/** The trust-on-first-use list: who was approved, under which alias, and when first. */
module Trust {
  import opened Text

  datatype TrustedDevice = TrustedDevice(alias: string, trustedAt: string)
  type Devices = map<string, TrustedDevice>

  // ---- the list as a function of its history ----------------------------------------

  /** A known fingerprint keeps its entry. */
  function Added(devices: Devices, fingerprint: string, alias: string, now: string): Devices {
    if fingerprint in devices then devices else devices[fingerprint := TrustedDevice(alias, now)]
  }

  function Removed(devices: Devices, fingerprint: string): Devices {
    devices - {fingerprint}
  }

  /** One call that changes the list; an approved transfer is an `Add`. */
  datatype Op = Add(fingerprint: string, alias: string, now: string) | Remove(fingerprint: string)

  function Apply(devices: Devices, op: Op): Devices {
    match op
    case Add(fingerprint, alias, now) => Added(devices, fingerprint, alias, now)
    case Remove(fingerprint) => Removed(devices, fingerprint)
  }

  /** The list after a history, from an empty store. */
  function After(ops: seq<Op>): Devices {
    if ops == [] then map[] else Apply(After(ops[..|ops| - 1]), ops[|ops| - 1])
  }

  /** `ops[i]` is the first `Add` of its fingerprint since that fingerprint's last `Remove`. */
  ghost predicate FirstAddSinceRemove(ops: seq<Op>, i: nat) {
    && i < |ops| && ops[i].Add?
    && (forall k | i < k < |ops| :: ops[k] != Remove(ops[i].fingerprint))
    && forall k | 0 <= k < i && ops[k].Add? && ops[k].fingerprint == ops[i].fingerprint ::
         exists m :: k < m < i && ops[m] == Remove(ops[i].fingerprint)
  }

  /** Where the entry of `fp` comes from. */
  ghost predicate Origin(ops: seq<Op>, fp: string, i: nat) {
    FirstAddSinceRemove(ops, i) && ops[i].fingerprint == fp
  }

  lemma OriginExtends(ops: seq<Op>, op: Op, fp: string, i: nat)
    requires op != Remove(fp)
    requires Origin(ops, fp, i)
    ensures Origin(ops + [op], fp, i)
  {
    var all := ops + [op];
    forall k | 0 <= k < i && all[k].Add? && all[k].fingerprint == fp
      ensures exists m :: k < m < i && all[m] == Remove(fp)
    {
      assert ops[k] == all[k];
      var m :| k < m < i && ops[m] == Remove(ops[i].fingerprint);
      assert all[m] == Remove(fp);
    }
  }

  /** With no entry, every earlier `Add` of `fp` was undone by a `Remove` after it. */
  lemma {:induction false} NoEntryMeansRemoved(ops: seq<Op>, fp: string, k: nat)
    requires fp !in After(ops)
    requires k < |ops| && ops[k].Add? && ops[k].fingerprint == fp
    ensures exists m :: k < m < |ops| && ops[m] == Remove(fp)
  {
    var init, last := ops[..|ops| - 1], ops[|ops| - 1];
    if last != Remove(fp) {
      assert fp !in After(init);
      assert k < |init|;
      NoEntryMeansRemoved(init, fp, k);
      var m :| k < m < |init| && init[m] == Remove(fp);
      assert ops[m] == Remove(fp);
    }
  }

  /** TOFU: a fingerprint is listed exactly when it was added after its last removal, and its
      alias and date are those of the first such add, whatever was added later. */
  lemma {:induction false} EntryIsFirstAddSinceRemove(ops: seq<Op>, fp: string)
    ensures fp in After(ops) <==> exists i: nat :: Origin(ops, fp, i)
    ensures forall i: nat | Origin(ops, fp, i) ::
              fp in After(ops) && After(ops)[fp] == TrustedDevice(ops[i].alias, ops[i].now)
  {
    if ops != [] {
      var init, last := ops[..|ops| - 1], ops[|ops| - 1];
      assert ops == init + [last];
      EntryIsFirstAddSinceRemove(init, fp);
      if fp in After(ops) {
        if fp in After(init) {
          var i: nat :| Origin(init, fp, i);
          OriginExtends(init, last, fp, i);
        } else {
          forall k | 0 <= k < |init| && ops[k].Add? && ops[k].fingerprint == fp
            ensures exists m :: k < m < |init| && ops[m] == Remove(fp)
          {
            assert init[k] == ops[k];
            NoEntryMeansRemoved(init, fp, k);
            var m :| k < m < |init| && init[m] == Remove(fp);
            assert ops[m] == Remove(fp);
          }
          assert Origin(ops, fp, |init|);
        }
      }
      forall i: nat | Origin(ops, fp, i)
        ensures fp in After(ops) && After(ops)[fp] == TrustedDevice(ops[i].alias, ops[i].now)
      {
        assert last != Remove(fp) || i == |init|;
        if i < |init| {
          OriginRestricts(init, last, fp, i);
        } else if fp in After(init) {
          assert false;
        }
      }
    }
  }

  lemma OriginRestricts(ops: seq<Op>, op: Op, fp: string, i: nat)
    requires i < |ops| && Origin(ops + [op], fp, i)
    ensures Origin(ops, fp, i)
  {
    var all := ops + [op];
    forall k | i < k < |ops| ensures ops[k] != Remove(fp) {
      assert all[k] == ops[k];
    }
    forall k | 0 <= k < i && ops[k].Add? && ops[k].fingerprint == fp
      ensures exists m :: k < m < i && ops[m] == Remove(fp)
    {
      assert all[k] == ops[k];
      var m :| k < m < i && all[m] == Remove(fp);
      assert ops[m] == Remove(fp);
    }
  }

  // ---- the store --------------------------------------------------------------------

  type Row = (string, TrustedDevice)

  function ByDate(row: Row): string {
    row.1.trustedAt
  }

  /** The rows of a listing are the entries of the map, each once. */
  ghost predicate Lists(rows: seq<Row>, devices: Devices) {
    && (forall r | r in rows :: r.0 in devices && devices[r.0] == r.1)
    && (forall fp | fp in devices :: multiset(rows)[(fp, devices[fp])] == 1)
  }

  /** The file: not there, holding a list, or holding something that does not parse. */
  datatype File = Absent | Holding(devices: Devices) | Garbled

  /** Writing truncates first: a write can fail before it touched the file or in the middle, and
      no proper beginning of a list parses. */
  datatype Write = Succeeds | FailsBefore | FailsMidway

  /** What opening a file gives: one that is not there or does not parse reads as empty. */
  function Opened(file: File): Devices {
    if file.Holding? then file.devices else map[]
  }

  function Written(file: File, devices: Devices, write: Write): File {
    match write
    case Succeeds => Holding(devices)
    case FailsBefore => file
    case FailsMidway => Garbled
  }

  /** `TrustStore`: the map in memory and the file it is saved to. */
  class TrustStore {
    var devices: Devices
    var file: File

    function OnDisk(): Devices
      reads this
    {
      Opened(file)
    }

    /** `open`, of a file that can be read or is not there. */
    constructor (file: File)
      ensures this.file == file && devices == OnDisk()
      ensures file.Garbled? ==> devices == map[]
    {
      this.file := file;
      devices := if file.Holding? then file.devices else map[];
    }

    method Contains(fingerprint: string) returns (known: bool)
      ensures known <==> fingerprint in devices
    {
      known := fingerprint in devices;
    }

    /** `save`. */
    method Save(write: Write) returns (ok: bool)
      modifies this`file
      ensures ok <==> write.Succeeds?
      ensures file == Written(old(file), devices, write)
      ensures ok ==> OnDisk() == devices
      ensures write.FailsMidway? ==> OnDisk() == map[]
    {
      match write {
        case Succeeds => file := Holding(devices);
        case FailsBefore =>
        case FailsMidway => file := Garbled;
      }
      ok := write.Succeeds?;
    }

    /** A call that changes the map tries to save it; a call that does not leaves the file
        alone. A save that succeeds repairs any that failed before it. */
    method Add(fingerprint: string, alias: string, now: string, write: Write) returns (ok: bool)
      modifies this
      ensures devices == Apply(old(devices), Op.Add(fingerprint, alias, now))
      ensures ok <==> fingerprint in old(devices) || write.Succeeds?
      ensures file == if fingerprint in old(devices) then old(file) else Written(old(file), devices, write)
    {
      var known := Contains(fingerprint);
      if known {
        return true;
      }
      devices := devices[fingerprint := TrustedDevice(alias, now)];
      ok := Save(write);
    }

    method Remove(fingerprint: string, write: Write) returns (ok: bool)
      modifies this
      ensures devices == Apply(old(devices), Op.Remove(fingerprint))
      ensures ok <==> fingerprint !in old(devices) || write.Succeeds?
      ensures file == if fingerprint !in old(devices) then old(file) else Written(old(file), devices, write)
    {
      if fingerprint !in devices {
        assert devices - {fingerprint} == devices;
        return true;
      }
      devices := devices - {fingerprint};
      ok := Save(write);
    }

    /** `all`: the map's entries, in whatever order the map yields them, sorted by date. */
    method All() returns (list: seq<Row>)
      ensures Lists(list, devices)
      ensures SortedBy(list, ByDate)
    {
      var rows: seq<Row> := [];
      var rest := devices.Keys;
      while rest != {}
        invariant rest <= devices.Keys
        invariant forall r | r in rows :: r.0 in devices && r.0 !in rest && devices[r.0] == r.1
        invariant forall fp | fp in devices && fp !in rest :: multiset(rows)[(fp, devices[fp])] == 1
        decreases rest
      {
        var fp :| fp in rest;
        var row := (fp, devices[fp]);
        assert row !in multiset(rows);
        rows := rows + [row];
        rest := rest - {fp};
      }
      list := Sorted(rows, ByDate);
      forall r | r in list ensures r in rows {
        assert r in multiset(list);
      }
      SortedIsSorted(rows, ByDate);
    }
  }

  /** A whole history of calls on one store: the map follows the history, and when the last
      save that was tried succeeded, whatever failed before it, reopening the file gives the
      same map. */
  method Replay(ops: seq<Op>, writes: seq<Write>) returns (store: TrustStore, saved: bool)
    requires |ops| == |writes|
    ensures fresh(store)
    ensures store.devices == After(ops)
    ensures saved ==> store.OnDisk() == After(ops)
    ensures (forall i | 0 <= i < |ops| :: Changes(ops, i) ==> writes[i].Succeeds?) ==> saved
    ensures forall i | 0 <= i < |ops| && Changes(ops, i) && (forall k | i < k < |ops| :: !Changes(ops, k)) ::
              saved <==> writes[i].Succeeds?
  {
    store := new TrustStore(Absent);
    saved := true;
    for i := 0 to |ops|
      invariant fresh(store)
      invariant store.devices == After(ops[..i])
      invariant saved ==> store.OnDisk() == store.devices
      invariant (forall k | 0 <= k < i :: Changes(ops, k) ==> writes[k].Succeeds?) ==> saved
      invariant forall k | 0 <= k < i && Changes(ops, k) && (forall m | k < m < i :: !Changes(ops, m)) ::
                  saved <==> writes[k].Succeeds?
    {
      assert ops[..i + 1][..i] == ops[..i];
      var ok, before := true, store.devices;
      match ops[i] {
        case Add(fingerprint, alias, now) => ok := store.Add(fingerprint, alias, now, writes[i]);
        case Remove(fingerprint) => ok := store.Remove(fingerprint, writes[i]);
      }
      assert Changes(ops, i) <==> Tries(before, ops[i]);
      if Tries(before, ops[i]) {
        saved := ok;
      }
    }
    assert ops[..|ops|] == ops;
  }

  /** A call that changes a map of these keys, and so tries to save it. */
  predicate Tries(devices: Devices, op: Op) {
    if op.Add? then op.fingerprint !in devices else op.fingerprint in devices
  }

  predicate Changes(ops: seq<Op>, i: nat)
    requires i < |ops|
  {
    Tries(After(ops[..i]), ops[i])
  }
}
