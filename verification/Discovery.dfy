/** The table of devices heard on the network (app/rust/src/core/discovery.rs and
    go-cli/internal/discovery/discovery.go): announcements are inserted as they arrive and
    expire after 15 seconds. Rust drops expired entries once a second and on every query, Go
    only on a query. */
module Discovery {
  import opened Protocol
  import opened Text

  /** 15 seconds, in the nanoseconds of the clock. */
  const TTL: nat := 15_000_000_000

  datatype Device = Device(info: PeerInfo, ip: string, lastSeen: nat)

  type Table = map<string, Device>

  function ByAlias(d: Device): string {
    d.info.alias
  }

  /** What reaches the table, with the time it does so: a decoded announcement, a tick of the
      background pruner, a call of `devices`. */
  datatype Op =
    | Heard(ann: Announcement, ip: string, at: nat)
    | Tick(at: nat)
    | Query(at: nat)

  /** The announcements the read loop does not skip: compatible ones of other devices. */
  predicate Counts(self: string, op: Op) {
    op.Heard? && Compatible(op.ann) && op.ann.info.fingerprint != self
  }

  /** They are this application's, of a version "1" or "1.something", from another fingerprint. */
  lemma {:induction false} CountsExactly(self: string, op: Op)
    ensures Counts(self, op) <==>
            && op.Heard? && op.ann.app == "easy-send" && op.ann.info.fingerprint != self
            && (op.ann.version == "1" || (|op.ann.version| >= 2 && op.ann.version[..2] == "1."))
  {
    if op.Heard? {
      CompatibleExactly(op.ann);
    }
  }

  function DeviceOf(op: Op): Device
    requires op.Heard?
  {
    Device(op.ann.info, op.ip, op.at)
  }

  function Expired(t: Table, now: nat): set<string> {
    set fp | fp in t && now - t[fp].lastSeen > TTL
  }

  /** `retain`. */
  function Kept(t: Table, now: nat): Table {
    t - Expired(t, now)
  }

  function Step(self: string, t: Table, op: Op): Table {
    match op
    case Heard(ann, _, _) => if Counts(self, op) then t[ann.info.fingerprint := DeviceOf(op)] else t
    case Tick(at) => Kept(t, at)
    case Query(at) => Kept(t, at)
  }

  function After(self: string, ops: seq<Op>): Table {
    if ops == [] then map[] else Step(self, After(self, ops[..|ops| - 1]), ops[|ops| - 1])
  }

  lemma AfterOneMore(self: string, ops: seq<Op>, op: Op)
    ensures After(self, ops + [op]) == Step(self, After(self, ops), op)
  {
    assert (ops + [op])[..|ops|] == ops;
  }

  // ---- what the table should hold ---------------------------------------------------

  predicate Announces(self: string, ops: seq<Op>, i: nat, fp: string) {
    i < |ops| && Counts(self, ops[i]) && ops[i].ann.info.fingerprint == fp
  }

  /** `ops[i]` is the latest announcement of `fp`. */
  ghost predicate LatestAt(self: string, ops: seq<Op>, i: nat, fp: string) {
    Announces(self, ops, i, fp) && forall j: nat | i < j :: !Announces(self, ops, j, fp)
  }

  /** The device is what its latest announcement said, and that is at most 15 seconds old. */
  ghost predicate Visible(self: string, ops: seq<Op>, now: nat, d: Device) {
    exists i: nat :: LatestAt(self, ops, i, d.info.fingerprint) && DeviceOf(ops[i]) == d && now - d.lastSeen <= 15_000_000_000
  }

  ghost predicate Monotone(ops: seq<Op>) {
    forall i, j | 0 <= i < j < |ops| :: ops[i].at <= ops[j].at
  }

  ghost predicate NotBefore(ops: seq<Op>, now: nat) {
    forall i | 0 <= i < |ops| :: ops[i].at <= now
  }

  lemma LatestExtends(self: string, ops: seq<Op>, op: Op, i: nat, fp: string)
    requires i < |ops|
    ensures LatestAt(self, ops + [op], i, fp)
       <==> LatestAt(self, ops, i, fp) && !(Counts(self, op) && op.ann.info.fingerprint == fp)
  {
    var more := ops + [op];
    forall j: nat ensures Announces(self, ops, j, fp) <==> j != |ops| && Announces(self, more, j, fp) {
      assert j < |ops| ==> more[j] == ops[j];
    }
    assert more[|ops|] == op;
    assert Announces(self, more, |ops|, fp) <==> Counts(self, op) && op.ann.info.fingerprint == fp;
  }

  lemma LatestIsOne(self: string, ops: seq<Op>, i: nat, j: nat, fp: string)
    requires LatestAt(self, ops, i, fp) && LatestAt(self, ops, j, fp)
    ensures i == j
  {
  }

  /** The table holds only latest announcements, and lacks none that is still fresh. */
  ghost predicate Faithful(self: string, ops: seq<Op>, t: Table, now: nat) {
    && (forall fp | fp in t :: exists i: nat :: LatestAt(self, ops, i, fp) && t[fp] == DeviceOf(ops[i]))
    && (forall i: nat, fp | LatestAt(self, ops, i, fp) && now - ops[i].at <= TTL :: fp in t)
  }

  lemma StepFaithful(self: string, ops: seq<Op>, t: Table, op: Op, was: nat)
    requires Faithful(self, ops, t, was) && was <= op.at
    ensures Faithful(self, ops + [op], Step(self, t, op), op.at)
  {
    var more, u := ops + [op], Step(self, t, op);
    forall fp | fp in u ensures exists i: nat :: LatestAt(self, more, i, fp) && u[fp] == DeviceOf(more[i]) {
      if Counts(self, op) && op.ann.info.fingerprint == fp {
        assert Announces(self, more, |ops|, fp);
        assert LatestAt(self, more, |ops|, fp);
      } else {
        assert fp in t && u[fp] == t[fp];
        var i: nat :| LatestAt(self, ops, i, fp) && t[fp] == DeviceOf(ops[i]);
        LatestExtends(self, ops, op, i, fp);
        assert more[i] == ops[i];
      }
    }
    forall i: nat, fp | LatestAt(self, more, i, fp) && op.at - more[i].at <= TTL ensures fp in u {
      if i < |ops| {
        LatestExtends(self, ops, op, i, fp);
        assert more[i] == ops[i];
        assert fp in t;
        var k: nat :| LatestAt(self, ops, k, fp) && t[fp] == DeviceOf(ops[k]);
        LatestIsOne(self, ops, i, k, fp);
      } else {
        assert more[i] == op;
      }
    }
  }

  lemma {:induction false} AfterIsFaithful(self: string, ops: seq<Op>, now: nat)
    requires Monotone(ops) && NotBefore(ops, now)
    ensures Faithful(self, ops, After(self, ops), now)
  {
    if ops != [] {
      var before, op := ops[..|ops| - 1], ops[|ops| - 1];
      assert before + [op] == ops;
      AfterIsFaithful(self, before, op.at);
      StepFaithful(self, before, After(self, before), op, op.at);
    }
  }

  /** Whatever announcements, ticks and queries came before, and however they were mixed, a
      device survives `retain` at `now` exactly when it is what the latest announcement of its
      fingerprint said and that is at most 15 seconds old. */
  lemma {:induction false} VisibleExactly(self: string, ops: seq<Op>, now: nat, d: Device)
    requires Monotone(ops) && NotBefore(ops, now)
    ensures IsEntry(Kept(After(self, ops), now), d) <==> Visible(self, ops, now, d)
  {
    var t, fp := After(self, ops), d.info.fingerprint;
    AfterIsFaithful(self, ops, now);
    if Visible(self, ops, now, d) {
      var i: nat :| LatestAt(self, ops, i, fp) && DeviceOf(ops[i]) == d && now - d.lastSeen <= TTL;
      var k: nat :| LatestAt(self, ops, k, fp) && t[fp] == DeviceOf(ops[k]);
      LatestIsOne(self, ops, i, k, fp);
    }
  }

  predicate IsEntry(t: Table, d: Device) {
    d.info.fingerprint in t && t[d.info.fingerprint] == d
  }

  ghost predicate Keyed(t: Table) {
    forall fp | fp in t :: t[fp].info.fingerprint == fp
  }

  lemma {:induction false} AfterIsKeyed(self: string, ops: seq<Op>)
    ensures Keyed(After(self, ops))
  {
    if ops != [] {
      AfterIsKeyed(self, ops[..|ops| - 1]);
    }
  }

  // ---- Rust and Go ------------------------------------------------------------------

  /** The announcements of a history: what the network, not the implementation, decides. */
  function Announcements(ops: seq<Op>): seq<Op> {
    if ops == [] then []
    else
      var before := Announcements(ops[..|ops| - 1]);
      if ops[|ops| - 1].Heard? then before + [ops[|ops| - 1]] else before
  }

  /** Ticks and queries in a history change nothing about which announcement is the latest. */
  lemma {:induction false} OnlyAnnouncementsMatter(self: string, ops: seq<Op>, now: nat, d: Device)
    ensures Visible(self, ops, now, d) <==> Visible(self, Announcements(ops), now, d)
  {
    if ops != [] {
      var before, op := ops[..|ops| - 1], ops[|ops| - 1];
      assert before + [op] == ops;
      OnlyAnnouncementsMatter(self, before, now, d);
      VisibleExtends(self, before, op, now, d);
      if op.Heard? {
        VisibleExtends(self, Announcements(before), op, now, d);
      }
    }
  }

  lemma VisibleExtends(self: string, ops: seq<Op>, op: Op, now: nat, d: Device)
    ensures Visible(self, ops + [op], now, d)
       <==> if Counts(self, op) && op.ann.info.fingerprint == d.info.fingerprint
            then DeviceOf(op) == d && now - d.lastSeen <= TTL
            else Visible(self, ops, now, d)
  {
    var more, fp := ops + [op], d.info.fingerprint;
    assert more[|ops|] == op;
    if Visible(self, more, now, d) {
      var i: nat :| LatestAt(self, more, i, fp) && DeviceOf(more[i]) == d && now - d.lastSeen <= TTL;
      if i < |ops| {
        LatestExtends(self, ops, op, i, fp);
        assert more[i] == ops[i];
      }
    }
    if Counts(self, op) && op.ann.info.fingerprint == fp {
      assert Announces(self, more, |ops|, fp);
      assert LatestAt(self, more, |ops|, fp);
    } else if Visible(self, ops, now, d) {
      var i: nat :| LatestAt(self, ops, i, fp) && DeviceOf(ops[i]) == d && now - d.lastSeen <= TTL;
      LatestExtends(self, ops, op, i, fp);
      assert more[i] == ops[i];
    }
  }

  /** The list is the table's entries, each once. */
  ghost predicate Lists(list: seq<Device>, t: Table) {
    forall d :: multiset(list)[d] == if IsEntry(t, d) then 1 else 0
  }

  /** Two discoverers of one device that heard the same announcements, with whatever ticks and
      queries of their own in between, answer a query at the same time with the same devices,
      and with the same column of aliases. A Go history is one without ticks. */
  lemma {:induction false} PruningIsInvisible(self: string, rust: seq<Op>, go: seq<Op>, now: nat, a: seq<Device>, b: seq<Device>)
    requires Monotone(rust) && NotBefore(rust, now) && Monotone(go) && NotBefore(go, now)
    requires Announcements(rust) == Announcements(go)
    requires Lists(a, Kept(After(self, rust), now)) && SortedBy(a, ByAlias)
    requires Lists(b, Kept(After(self, go), now)) && SortedBy(b, ByAlias)
    ensures multiset(a) == multiset(b)
    ensures KeysOf(a, ByAlias) == KeysOf(b, ByAlias)
  {
    forall d ensures multiset(a)[d] == multiset(b)[d] {
      VisibleExactly(self, rust, now, d);
      VisibleExactly(self, go, now, d);
      OnlyAnnouncementsMatter(self, rust, now, d);
      OnlyAnnouncementsMatter(self, go, now, d);
    }
    SortedAlike(a, b, ByAlias);
  }

  /** The history is ghost: it records the calls made so far. */
  class Discoverer {
    const self: string
    var devices: Table
    ghost var history: seq<Op>

    ghost predicate Valid()
      reads this
    {
      Monotone(history) && devices == After(self, history)
    }

    constructor (self: string)
      ensures Valid() && this.self == self && history == []
    {
      this.self := self;
      devices := map[];
      history := [];
    }

    /** One pass of the read loop with a decoded announcement. `changed` asks for an `emit`. */
    method Hear(ann: Announcement, ip: string, now: nat) returns (changed: bool)
      requires Valid() && NotBefore(history, now)
      modifies this
      ensures Valid() && history == old(history) + [Heard(ann, ip, now)]
      ensures changed <==> !Alike(old(devices), devices)
    {
      hide Alike, MajorOf, After;
      AfterOneMore(self, history, Heard(ann, ip, now));
      history := history + [Heard(ann, ip, now)];
      if Compatible(ann) == false || ann.info.fingerprint == self {
        AlikeToItself(devices);
        return false;
      }
      var fp := ann.info.fingerprint;
      changed := fp !in devices || devices[fp].info.alias != ann.info.alias ||
        devices[fp].info.port != ann.info.port || devices[fp].ip != ip;
      ghost var before := devices;
      devices := devices[fp := Device(ann.info, ip, now)];
      AlikeAfterInsert(before, fp, Device(ann.info, ip, now));
    }

    /** The background pruner. `removed` asks for an `emit`. */
    method Prune(now: nat) returns (removed: bool)
      requires Valid() && NotBefore(history, now)
      modifies this
      ensures Valid() && history == old(history) + [Tick(now)]
      ensures removed <==> !Alike(old(devices), devices)
    {
      assert (history + [Tick(now)])[..|history|] == history;
      history := history + [Tick(now)];
      var before := |devices|;
      ghost var was := devices;
      devices := Kept(devices, now);
      removed := |devices| != before;
      AlikeAfterExpiry(was, now);
    }

    /** `devices`: `retain`, then the entries in any order, sorted by alias. */
    method Devices(now: nat) returns (list: seq<Device>)
      requires Valid() && NotBefore(history, now)
      modifies this
      ensures Valid() && history == old(history) + [Query(now)]
      ensures forall d :: multiset(list)[d] == if Visible(self, old(history), now, d) then 1 else 0
      ensures SortedBy(list, ByAlias)
    {
      assert (history + [Query(now)])[..|history|] == history;
      AfterIsKeyed(self, history);
      forall d ensures IsEntry(Kept(devices, now), d) <==> Visible(self, history, now, d) {
        VisibleExactly(self, history, now, d);
      }
      history := history + [Query(now)];
      devices := Kept(devices, now);
      list := Snapshot(devices);
    }
  }

  /** `snapshot_of`. */
  method Snapshot(t: Table) returns (list: seq<Device>)
    requires Keyed(t)
    ensures Lists(list, t) && SortedBy(list, ByAlias)
  {
    var all: seq<Device> := [];
    var rest := t.Keys;
    while rest != {}
      invariant rest <= t.Keys
      invariant forall d :: multiset(all)[d] == if IsEntry(t, d) && d.info.fingerprint !in rest then 1 else 0
      decreases rest
    {
      var fp :| fp in rest;
      all := all + [t[fp]];
      rest := rest - {fp};
    }
    list := Sorted(all, ByAlias);
    SortedIsSorted(all, ByAlias);
  }

  /** The Go discoverer: no pruner, and a query deletes as it collects. */
  class GoDiscoverer {
    const self: string
    var devices: Table
    ghost var history: seq<Op>

    ghost predicate Valid()
      reads this
    {
      Monotone(history) && devices == After(self, history) && forall op | op in history :: !op.Tick?
    }

    constructor (self: string)
      ensures Valid() && this.self == self && history == []
    {
      this.self := self;
      devices := map[];
      history := [];
    }

    method Hear(ann: Announcement, ip: string, now: nat)
      requires Valid() && NotBefore(history, now)
      modifies this
      ensures Valid() && history == old(history) + [Heard(ann, ip, now)]
    {
      assert (history + [Heard(ann, ip, now)])[..|history|] == history;
      history := history + [Heard(ann, ip, now)];
      if Compatible(ann) == false || ann.info.fingerprint == self {
        return;
      }
      devices := devices[ann.info.fingerprint := Device(ann.info, ip, now)];
    }

    method Devices(now: nat) returns (list: seq<Device>)
      requires Valid() && NotBefore(history, now)
      modifies this
      ensures Valid() && history == old(history) + [Query(now)]
      ensures forall d :: multiset(list)[d] == if Visible(self, old(history), now, d) then 1 else 0
      ensures SortedBy(list, ByAlias)
    {
      assert (history + [Query(now)])[..|history|] == history;
      AfterIsKeyed(self, history);
      forall d ensures IsEntry(Kept(devices, now), d) <==> Visible(self, history, now, d) {
        VisibleExactly(self, history, now, d);
      }
      history := history + [Query(now)];
      var found := Collect(now);
      list := Sorted(found, ByAlias);
      SortedIsSorted(found, ByAlias);
    }

    /** The loop over the map, which deletes expired entries under its own feet. */
    method Collect(now: nat) returns (found: seq<Device>)
      requires Keyed(devices)
      modifies this`devices
      ensures devices == Kept(old(devices), now)
      ensures Lists(found, devices)
    {
      ghost var was := devices;
      found := [];
      var rest := devices.Keys;
      while rest != {}
        invariant rest <= devices.Keys <= was.Keys
        invariant forall fp | fp in devices :: devices[fp] == was[fp]
        invariant forall fp | fp in was && fp !in rest :: fp in devices <==> now - was[fp].lastSeen <= TTL
        invariant forall d :: multiset(found)[d] == (if IsEntry(devices, d) && d.info.fingerprint !in rest then 1 else 0)
        decreases rest
      {
        var fp :| fp in rest;
        if now - devices[fp].lastSeen > TTL {
          devices := devices - {fp};
        } else {
          found := found + [devices[fp]];
        }
        rest := rest - {fp};
      }
    }
  }

  // ---- what the change callback looks at ----------------------------------------------

  /** The fields a change of which is announced: alias, port and address per fingerprint. */
  datatype Entry = Entry(alias: string, ip: string, port: nat)

  function EntryOf(d: Device): Entry {
    Entry(d.info.alias, d.ip, d.info.port)
  }

  /** The tables announce the same entries. */
  predicate Alike(t: Table, u: Table) {
    t.Keys == u.Keys && forall fp | fp in t :: EntryOf(t[fp]) == EntryOf(u[fp])
  }

  /** Two tables announce the same when they list the same devices with the same alias, address
      and port; the device type and the time do not count. */
  lemma {:induction false} AlikeExactly(t: Table, u: Table)
    ensures Alike(t, u) <==>
            && t.Keys == u.Keys
            && forall fp | fp in t ::
                 t[fp].info.alias == u[fp].info.alias && t[fp].ip == u[fp].ip && t[fp].info.port == u[fp].info.port
  {
    if t.Keys == u.Keys {
      forall fp | fp in t
        ensures EntryOf(t[fp]) == EntryOf(u[fp]) <==>
                t[fp].info.alias == u[fp].info.alias && t[fp].ip == u[fp].ip && t[fp].info.port == u[fp].info.port
      {
        assert fp in u;
      }
    }
  }

  lemma AlikeToItself(t: Table)
    ensures Alike(t, t)
  {
  }

  lemma AlikeAfterInsert(t: Table, fp: string, d: Device)
    ensures Alike(t, t[fp := d]) <==> fp in t && EntryOf(t[fp]) == EntryOf(d)
  {
    var u := t[fp := d];
    assert fp in u && u[fp] == d;
    assert fp in t ==> u.Keys == t.Keys;
  }

  /** Comparing lengths, as the pruner does, detects every change it makes. */
  lemma {:induction false} AlikeAfterExpiry(t: Table, now: nat)
    ensures Alike(t, Kept(t, now)) <==> |Kept(t, now)| == |t|
    ensures |Kept(t, now)| <= |t|
  {
    var u := Kept(t, now);
    assert |u| == |u.Keys| && |t| == |t.Keys| && u.Keys <= t.Keys;
    if u.Keys != t.Keys {
      SmallerSet(u.Keys, t.Keys);
    }
  }

  lemma SmallerSet(small: set<string>, large: set<string>)
    requires small <= large && small != large
    ensures |small| < |large|
  {
    var x :| x in large && x !in small;
    assert |large - small| > 0;
    assert large == small + (large - small);
  }
}
