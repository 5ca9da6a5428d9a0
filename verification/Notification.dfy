/** How a change of the device table reaches the app: `emit` in app/rust/src/core/discovery.rs,
    the `on_changed` closure and `node_device_events` in app/rust/src/api/easy_send.rs. A task
    that changed the table later takes a snapshot, then stores it as the last list, then sends
    it to a bounded broadcast channel; subscribers start from the last list and follow the
    channel, skipping what it has already dropped. */
module Notification {
  import opened Protocol
  import opened Discovery

  /** The broadcast channel keeps this many snapshots. */
  const CAPACITY: nat := 64

  /** An `emit`: not begun, holding its snapshot, or with the snapshot stored but not sent.
      A snapshot is represented by the table it lists. */
  datatype Emission = Waiting | Taken(list: Table) | Stored(list: Table)

  /** A subscriber's place in the channel and the list it shows, once it has one. */
  datatype Subscriber = Subscriber(cursor: nat, shown: Option<Table>)

  /** `newest` is history: the snapshot most recently taken. `log` is everything sent so far. */
  datatype State = State(
    table: Table,
    next: nat,
    emissions: map<nat, Emission>,
    newest: Table,
    last: Table,
    log: seq<Table>,
    subscribers: map<nat, Subscriber>)

  datatype Action =
    | Change(op: Op)
    | Take(id: nat)
    | Store(id: nat)
    | Send(id: nat)
    | Subscribe(id: nat)
    | ShowLast(id: nat)
    | Receive(id: nat)

  const BOOT := State(map[], 0, map[], map[], map[], [], map[])

  predicate Enabled(s: State, a: Action) {
    match a
    case Change(_) => true
    case Take(id) => id in s.emissions && s.emissions[id].Waiting?
    case Store(id) => id in s.emissions && s.emissions[id].Taken?
    case Send(id) => id in s.emissions && s.emissions[id].Stored?
    case Subscribe(id) => id !in s.subscribers
    case ShowLast(id) => id in s.subscribers && s.subscribers[id].shown == None
    case Receive(id) => id in s.subscribers && s.subscribers[id].shown.Some? && s.subscribers[id].cursor < |s.log|
  }

  /** The read loop and the pruner ask for an `emit` when their change shows; a query never
      does, although it too drops expired entries. */
  function AfterChange(self: string, s: State, op: Op): State {
    var t := Discovery.Step(self, s.table, op);
    if !op.Query? && !Alike(s.table, t)
    then s.(table := t, next := s.next + 1, emissions := s.emissions[s.next := Waiting])
    else s.(table := t)
  }

  /** `recv`: the next snapshot, or a jump to the oldest one kept when that is gone. */
  function Received(sub: Subscriber, log: seq<Table>): Subscriber
    requires sub.cursor < |log|
  {
    if sub.cursor + CAPACITY < |log| then sub.(cursor := |log| - CAPACITY)
    else Subscriber(sub.cursor + 1, Some(log[sub.cursor]))
  }

  function Next(self: string, s: State, a: Action): State
    requires Enabled(s, a)
  {
    match a
    case Change(op) => AfterChange(self, s, op)
    case Take(id) => s.(emissions := s.emissions[id := Taken(s.table)], newest := s.table)
    case Store(id) => s.(emissions := s.emissions[id := Stored(s.emissions[id].list)], last := s.emissions[id].list)
    case Send(id) => s.(emissions := s.emissions - {id}, log := s.log + [s.emissions[id].list])
    case Subscribe(id) => s.(subscribers := s.subscribers[id := Subscriber(|s.log|, None)])
    case ShowLast(id) => s.(subscribers := s.subscribers[id := s.subscribers[id].(shown := Some(s.last))])
    case Receive(id) => s.(subscribers := s.subscribers[id := Received(s.subscribers[id], s.log)])
  }

  ghost predicate Run(self: string, trace: seq<State>, actions: seq<Action>) {
    && |trace| == |actions| + 1
    && trace[0] == BOOT
    && forall k | 0 <= k < |actions| :: Enabled(trace[k], actions[k]) && trace[k + 1] == Next(self, trace[k], actions[k])
  }

  // ---- what is wanted, and on what it depends -----------------------------------------

  /** No emission is waiting or under way. */
  predicate Quiet(s: State) {
    s.emissions == map[]
  }

  /** Which emission took its snapshot last, which stored last and which sent last. */
  datatype Latest = Latest(take: Option<nat>, store: Option<nat>, send: Option<nat>)

  function LatestOf(actions: seq<Action>): Latest {
    if actions == [] then Latest(None, None, None)
    else
      var before, a := LatestOf(actions[..|actions| - 1]), actions[|actions| - 1];
      match a
      case Take(id) => before.(take := Some(id))
      case Store(id) => before.(store := Some(id))
      case Send(id) => before.(send := Some(id))
      case _ => before
  }

  /** The emission that took its snapshot last also stored last and sent last. */
  predicate InOrder(l: Latest) {
    l.take == l.store == l.send
  }

  /** An emission takes its snapshot only when no other is between its snapshot and its send. */
  ghost predicate Serialized(trace: seq<State>, actions: seq<Action>)
    requires |trace| > |actions|
  {
    forall k | 0 <= k < |actions| && actions[k].Take? :: AllWaiting(trace[k])
  }

  ghost predicate AllWaiting(s: State) {
    forall e | e in s.emissions :: s.emissions[e].Waiting?
  }

  ghost predicate NoneWaiting(s: State) {
    forall e | e in s.emissions :: !s.emissions[e].Waiting?
  }

  /** Since the last snapshot was taken, a direct `devices()` call dropped an entry. */
  predicate Silent(trace: seq<State>, actions: seq<Action>)
    requires |trace| > |actions|
  {
    if actions == [] then false
    else
      var k := |actions| - 1;
      !actions[k].Take?
      && (Silent(trace, actions[..k])
          || (actions[k].Change? && actions[k].op.Query? && |trace[k + 1].table| < |trace[k].table|))
  }

  predicate Drained(s: State, sub: Subscriber) {
    sub.shown.Some? && sub.cursor == |s.log|
  }

  // ---- the newest snapshot, in every run -----------------------------------------------

  /** Every entry of the table is in the snapshot as the snapshot shows it. */
  ghost predicate Covers(snapshot: Table, t: Table) {
    forall fp | fp in t :: fp in snapshot && EntryOf(snapshot[fp]) == EntryOf(t[fp])
  }

  ghost predicate Followed(s: State, silent: bool) {
    && (forall e | e in s.emissions :: e < s.next)
    && (NoneWaiting(s) ==> Covers(s.newest, s.table) && (Alike(s.newest, s.table) <==> !silent))
  }

  lemma AlikeToBoth(snapshot: Table, t: Table, u: Table)
    requires Alike(t, u)
    ensures Covers(snapshot, t) <==> Covers(snapshot, u)
    ensures Alike(snapshot, t) <==> Alike(snapshot, u)
  {
    assert forall fp :: fp in t <==> fp in t.Keys;
    assert forall fp :: fp in u <==> fp in u.Keys;
  }

  lemma DroppedFromCover(snapshot: Table, t: Table, now: nat)
    requires Covers(snapshot, t)
    ensures Covers(snapshot, Kept(t, now))
    ensures Alike(snapshot, Kept(t, now)) <==> Alike(snapshot, t) && |Kept(t, now)| == |t|
    ensures |Kept(t, now)| <= |t|
  {
    AlikeAfterExpiry(t, now);
    var u := Kept(t, now);
    if Alike(snapshot, u) {
      assert forall fp :: fp in snapshot <==> fp in snapshot.Keys;
      assert u.Keys <= t.Keys <= snapshot.Keys == u.Keys;
    }
  }

  lemma ChangeFollowed(self: string, s: State, op: Op, silent: bool)
    requires Followed(s, silent)
    ensures Followed(AfterChange(self, s, op), silent || (op.Query? && |AfterChange(self, s, op).table| < |s.table|))
  {
    hide Alike, Discovery.Step, Kept, Covers;
    var s' := AfterChange(self, s, op);
    if op.Query? {
      StepOfQuery(self, s.table, op);
      if NoneWaiting(s') {
        assert NoneWaiting(s);
        DroppedFromCover(s.newest, s.table, op.at);
      }
    } else if Alike(s.table, s'.table) {
      assert NoneWaiting(s') ==> NoneWaiting(s);
      AlikeToBoth(s.newest, s.table, s'.table);
    } else {
      assert s'.emissions[s.next].Waiting?;
    }
  }

  lemma StepOfQuery(self: string, t: Table, op: Op)
    requires op.Query?
    ensures Discovery.Step(self, t, op) == Kept(t, op.at)
  {
  }

  lemma NextFollowed(self: string, s: State, a: Action, silent: bool)
    requires Followed(s, silent) && Enabled(s, a) && !a.Change?
    ensures Followed(Next(self, s, a), if a.Take? then false else silent)
  {
    var s' := Next(self, s, a);
    if NoneWaiting(s') && !a.Take? {
      forall e | e in s.emissions ensures !s.emissions[e].Waiting? {
        if e in s'.emissions {
          assert !s'.emissions[e].Waiting?;
        }
      }
    }
  }

  lemma {:induction false} RunFollowed(self: string, trace: seq<State>, actions: seq<Action>)
    requires Run(self, trace, actions)
    ensures Followed(trace[|actions|], Silent(trace, actions))
  {
    if actions != [] {
      var k := |actions| - 1;
      RunFollowed(self, trace[..k + 1], actions[..k]);
      SilentOfPrefix(trace, trace[..k + 1], actions[..k]);
      if actions[k].Change? {
        ChangeFollowed(self, trace[k], actions[k].op, Silent(trace, actions[..k]));
      } else {
        NextFollowed(self, trace[k], actions[k], Silent(trace, actions[..k]));
      }
    }
  }

  lemma {:induction false} SilentOfPrefix(long: seq<State>, short: seq<State>, actions: seq<Action>)
    requires |actions| < |short| <= |long| && long[..|short|] == short
    ensures Silent(long, actions) == Silent(short, actions)
  {
    if actions != [] {
      SilentOfPrefix(long, short, actions[..|actions| - 1]);
      var k := |actions| - 1;
      assert long[k] == short[k] && long[k + 1] == short[k + 1];
    }
  }

  // ---- the last list and the channel, in every run --------------------------------------

  /** The last snapshot sent; before any, the empty list `last_devices` starts from. */
  function Tail(log: seq<Table>): Table {
    if log == [] then map[] else log[|log| - 1]
  }

  /** Where the latest of each kind stand: their numbers are not used again, and whatever the
      latest taker did last shows the newest snapshot. */
  ghost predicate Placed(s: State, l: Latest) {
    && (l.take.Some? ==> l.take.value < s.next && (l.take.value in s.emissions ==> !s.emissions[l.take.value].Waiting?))
    && (l.store.Some? ==> l.store.value < s.next && (l.store.value in s.emissions ==> s.emissions[l.store.value].Stored?))
    && (l.send.Some? ==> l.send.value < s.next && l.send.value !in s.emissions)
  }

  ghost predicate ShowsNewest(s: State, l: Latest) {
    && (l.take.Some? && l.take.value in s.emissions && !s.emissions[l.take.value].Waiting? ==>
          s.emissions[l.take.value].list == s.newest)
    && (l.store == l.take ==> s.last == s.newest)
    && (l.send == l.take ==> Tail(s.log) == s.newest)
  }

  /** A subscriber that has caught up shows the channel's tail, or the last list, unless a newer
      one has been stored that is still to be sent. */
  ghost predicate Level(s: State, sub: Subscriber, l: Latest) {
    && sub.cursor <= |s.log|
    && (Drained(s, sub) ==>
          || sub.shown == Some(Tail(s.log))
          || sub.shown == Some(s.last)
          || (l.store.Some? && l.store.value in s.emissions))
  }

  ghost predicate AllLevel(s: State, l: Latest) {
    forall i | i in s.subscribers :: Level(s, s.subscribers[i], l)
  }

  ghost predicate Ordered(s: State, l: Latest) {
    && (forall e | e in s.emissions :: e < s.next)
    && Placed(s, l) && ShowsNewest(s, l) && AllLevel(s, l)
  }

  lemma ChangeOrdered(self: string, s: State, op: Op, l: Latest)
    requires Ordered(s, l)
    ensures Ordered(AfterChange(self, s, op), l)
  {
    hide Alike, Discovery.Step;
    var s' := AfterChange(self, s, op);
    forall i | i in s'.subscribers ensures Level(s', s'.subscribers[i], l) {
      assert Level(s, s.subscribers[i], l);
    }
  }

  lemma NextOrdered(self: string, s: State, a: Action, l: Latest)
    requires Ordered(s, l) && Enabled(s, a) && !a.Change?
    ensures var m := match a
                     case Take(id) => l.(take := Some(id))
                     case Store(id) => l.(store := Some(id))
                     case Send(id) => l.(send := Some(id))
                     case _ => l;
            Ordered(Next(self, s, a), m)
  {
    forall i | i in s.subscribers ensures Level(s, s.subscribers[i], l) {
    }
  }

  lemma {:induction false} RunOrdered(self: string, trace: seq<State>, actions: seq<Action>)
    requires Run(self, trace, actions)
    ensures Ordered(trace[|actions|], LatestOf(actions))
  {
    hide Next, Ordered, Enabled;
    if actions == [] {
      BootOrdered();
    } else {
      var k := |actions| - 1;
      RunOrdered(self, trace[..k + 1], actions[..k]);
      if actions[k].Change? {
        ChangeOrdered(self, trace[k], actions[k].op, LatestOf(actions[..k]));
        NextOfChange(self, trace[k], actions[k]);
      } else {
        NextOrdered(self, trace[k], actions[k], LatestOf(actions[..k]));
      }
    }
  }

  lemma BootOrdered()
    ensures Ordered(BOOT, Latest(None, None, None))
  {
  }

  lemma NextOfChange(self: string, s: State, a: Action)
    requires a.Change? && Enabled(s, a)
    ensures Next(self, s, a) == AfterChange(self, s, a.op)
  {
  }

  // ---- the main results ----------------------------------------------------------------

  /** However emissions overlapped: once none is pending, and the one that took its snapshot last
      also stored last and sent last, the last list, the tail of the channel and what every
      caught-up subscriber shows are one and the same list, whenever the subscriber joined and
      however much it missed; and on fingerprint, alias, address and port that list is the table
      exactly when no `devices()` call dropped an entry silently. */
  lemma {:induction false} QuietAgreement(self: string, trace: seq<State>, actions: seq<Action>)
    requires Run(self, trace, actions) && InOrder(LatestOf(actions))
    requires Quiet(trace[|actions|])
    ensures var s := trace[|actions|];
      && (Alike(s.last, s.table) <==> !Silent(trace, actions))
      && Tail(s.log) == s.last
      && forall i | i in s.subscribers && Drained(s, s.subscribers[i]) :: s.subscribers[i].shown == Some(s.last)
  {
    var s := trace[|actions|];
    RunFollowed(self, trace, actions);
    RunOrdered(self, trace, actions);
    assert NoneWaiting(s);
    forall i | i in s.subscribers && Drained(s, s.subscribers[i]) ensures s.subscribers[i].shown == Some(s.last) {
      assert Level(s, s.subscribers[i], LatestOf(actions));
    }
  }

  /** At most one emission is under way, and it is the one that took last. */
  ghost predicate OneUnderWay(s: State, l: Latest) {
    && (forall e | e in s.emissions && !s.emissions[e].Waiting? :: l.take == Some(e))
    && (forall e | e in s.emissions && s.emissions[e].Taken? :: l.store == l.send)
    && (forall e | e in s.emissions && s.emissions[e].Stored? :: l.store == Some(e))
    && (AllWaiting(s) ==> InOrder(l))
    && (forall e | e in s.emissions :: e < s.next)
  }

  /** Emissions that do not overlap are in order once none is under way. */
  lemma {:induction false} SerializedIsInOrder(self: string, trace: seq<State>, actions: seq<Action>)
    requires Run(self, trace, actions) && Serialized(trace, actions)
    ensures OneUnderWay(trace[|actions|], LatestOf(actions))
  {
    if actions != [] {
      var k := |actions| - 1;
      SerializedIsInOrder(self, trace[..k + 1], actions[..k]);
      OneUnderWayStep(self, trace[k], actions[k], LatestOf(actions[..k]), LatestOf(actions));
    }
  }

  lemma OneUnderWayStep(self: string, s: State, a: Action, l: Latest, m: Latest)
    requires OneUnderWay(s, l) && Enabled(s, a) && (a.Take? ==> AllWaiting(s))
    requires m == match a
                  case Take(id) => l.(take := Some(id))
                  case Store(id) => l.(store := Some(id))
                  case Send(id) => l.(send := Some(id))
                  case _ => l
    ensures OneUnderWay(Next(self, s, a), m)
  {
    hide Alike, Discovery.Step;
    var s' := Next(self, s, a);
    match a
    case Send(id) =>
      assert l.take == Some(id) && l.store == Some(id);
    case Store(id) =>
      assert s'.emissions[id].Stored? && s.emissions[id].Taken?;
    case Take(id) =>
      assert s'.emissions[id].Taken?;
    case Change(op) =>
      assert forall e | e in s.emissions :: s'.emissions[e] == s.emissions[e];
      assert AllWaiting(s') ==> AllWaiting(s);
    case _ =>
      assert AllWaiting(s') == AllWaiting(s);
  }

  /** In particular when they are serialized. */
  lemma {:induction false} SerializedAgreement(self: string, trace: seq<State>, actions: seq<Action>)
    requires Run(self, trace, actions) && Serialized(trace, actions)
    requires Quiet(trace[|actions|])
    ensures var s := trace[|actions|];
      && (Alike(s.last, s.table) <==> !Silent(trace, actions))
      && Tail(s.log) == s.last
      && forall i | i in s.subscribers && Drained(s, s.subscribers[i]) :: s.subscribers[i].shown == Some(s.last)
  {
    SerializedIsInOrder(self, trace, actions);
    assert AllWaiting(trace[|actions|]);
    QuietAgreement(self, trace, actions);
  }

  /** In particular the app, which never calls `devices()`, ends on the table. */
  lemma {:induction false} NoQueriesNoSilence(trace: seq<State>, actions: seq<Action>)
    requires |trace| > |actions|
    requires forall a | a in actions :: a.Change? ==> !a.op.Query?
    ensures !Silent(trace, actions)
  {
    if actions != [] {
      assert actions[|actions| - 1] in actions;
      forall a | a in actions[..|actions| - 1] ensures a in actions {
      }
      NoQueriesNoSilence(trace, actions[..|actions| - 1]);
    }
  }

  // ---- the hypotheses are needed --------------------------------------------------------

  /** What two emissions under way at once can do, from any state: if the older one's snapshot
      does not show the table and the newer one overtakes it, the run goes quiet with the
      outdated list stored last and sent last. */
  lemma {:induction false} OvertakingEndsWrong(self: string, s: State, older: nat, newer: nat)
    requires s.emissions.Keys == {older, newer} && older != newer
    requires s.emissions[older].Taken? && s.emissions[newer].Taken?
    requires !Alike(s.emissions[older].list, s.table)
    ensures Enabled(s, Store(newer))
    ensures var s1 := Next(self, s, Store(newer));
      Enabled(s1, Send(newer)) &&
      var s2 := Next(self, s1, Send(newer));
      Enabled(s2, Store(older)) &&
      var s3 := Next(self, s2, Store(older));
      Enabled(s3, Send(older)) &&
      var s4 := Next(self, s3, Send(older));
      Quiet(s4) && s4.table == s.table && !Alike(s4.last, s4.table) && Tail(s4.log) == s4.last
  {
    hide Alike;
    var s4 := Next(self, Next(self, Next(self, Next(self, s, Store(newer)), Send(newer)), Store(older)), Send(older));
    assert s4.emissions.Keys == {};
  }

  const ALICE := Announcement(APP, VERSION, PeerInfo("Alice", "mobile", "a", 53318), true)
  const BOB := Announcement(APP, VERSION, PeerInfo("Bob", "mobile", "b", 53318), true)

  /** One announcement, announced; then a direct `devices()` call after it expired. Nothing is
      pending, the table is empty, and the last list still shows the device. */
  lemma {:induction false} SilentQuery() returns (trace: seq<State>, actions: seq<Action>)
    ensures Run("", trace, actions) && Serialized(trace, actions) && Quiet(trace[|actions|])
    ensures "a" !in trace[|actions|].table && "a" in trace[|actions|].last
  {
    hide Alike, Discovery.Step;
    var heard := Heard(ALICE, "10.0.0.1", 0);
    actions := [Change(heard), Take(0), Store(0), Send(0), Change(Query(TTL + 1))];
    FirstHeard(heard);
    var s1 := Next("", BOOT, actions[0]);
    var s2 := Next("", s1, actions[1]);
    var s3 := Next("", s2, actions[2]);
    var s4 := Next("", s3, actions[3]);
    Expires(s4.table, TTL + 1);
    trace := [BOOT, s1, s2, s3, s4, Next("", s4, actions[4])];
  }

  lemma FirstHeard(op: Op)
    requires op.Heard? && op.ann == ALICE && op.at == 0
    ensures var one := Discovery.Step("", map[], op);
      "a" in one && one["a"].lastSeen == 0 && !Alike(map[], one)
  {
    var one := Discovery.Step("", map[], op);
    assert "a" in one.Keys;
  }

  lemma Expires(t: Table, now: nat)
    requires "a" in t && now - t["a"].lastSeen > TTL
    ensures "a" !in Discovery.Step("", t, Query(now))
  {
  }

  lemma OnlyAlice(op: Op)
    requires op.Heard? && op.ann == ALICE
    ensures "b" !in Discovery.Step("", map[], op)
  {
  }

  lemma SecondHeard(t: Table, op: Op)
    requires op.Heard? && op.ann == BOB && "b" !in t
    ensures !Alike(t, Discovery.Step("", t, op))
  {
    assert "b" in Discovery.Step("", t, op).Keys;
  }

  /** Two announcements; the second arrives, and takes its snapshot, while the first one's
      snapshot is still on its way. From here `OvertakingEndsWrong` applies. */
  lemma {:induction false} TwoUnderWay() returns (trace: seq<State>, actions: seq<Action>)
    ensures Run("", trace, actions) && !Serialized(trace, actions)
    ensures var s := trace[|actions|];
      && s.emissions.Keys == {0, 1} && s.emissions[0].Taken? && s.emissions[1].Taken?
      && !Alike(s.emissions[0].list, s.table)
  {
    var first, second := Heard(ALICE, "10.0.0.1", 0), Heard(BOB, "10.0.0.2", 0);
    actions := [Change(first), Take(0), Change(second), Take(1)];
    hide Alike, Discovery.Step;
    FirstHeard(first);
    OnlyAlice(first);
    SecondHeard(Discovery.Step("", map[], first), second);
    var s1 := Next("", BOOT, actions[0]);
    var s2 := Next("", s1, actions[1]);
    var s3 := Next("", s2, actions[2]);
    trace := [BOOT, s1, s2, s3, Next("", s3, actions[3])];
    assert actions[3].Take? && !trace[3].emissions[0].Waiting?;
  }

  /** The agreement is on the four fields only: a device that changes nothing but its type is
      inserted, and no emission follows. */
  lemma {:induction false} TypeChangesAreSilent(self: string, s: State, fp: string, ann: Announcement, at: nat)
    requires fp in s.table && ann.info.fingerprint == fp && Counts(self, Heard(ann, s.table[fp].ip, at))
    requires ann.info.alias == s.table[fp].info.alias && ann.info.port == s.table[fp].info.port
    ensures var s' := Next(self, s, Change(Heard(ann, s.table[fp].ip, at)));
      && s'.emissions == s.emissions
      && s'.table[fp].info.deviceType == ann.info.deviceType
  {
    AlikeAfterInsert(s.table, fp, Device(ann.info, s.table[fp].ip, at));
  }

  // ---- a subscriber's loop ----------------------------------------------------------------

  /** A subscription of `node_device_events`: its cursor and all it gave the app so far. */
  class Subscription {
    var cursor: nat
    var sink: seq<Table>

    function Place(): Subscriber
      reads this
    {
      Subscriber(cursor, if sink == [] then None else Some(sink[|sink| - 1]))
    }

    /** `subscribe`: the machine's Subscribe. */
    constructor (log: seq<Table>)
      ensures Place() == Subscriber(|log|, None) && sink == []
    {
      cursor := |log|;
      sink := [];
    }

    /** The first list, whatever was last by then: ShowLast. */
    method ShowLast(last: Table)
      modifies this
      ensures Place() == old(Place()).(shown := Some(last)) && sink == old(sink) + [last]
    {
      sink := sink + [last];
    }

    /** One `recv`: Receive. */
    method Receive(log: seq<Table>)
      requires cursor < |log|
      modifies this
      ensures Place() == Received(old(Place()), log)
      ensures sink == old(sink) + if old(cursor) + CAPACITY < |log| then [] else [log[old(cursor)]]
    {
      if cursor + CAPACITY < |log| {
        cursor := |log| - CAPACITY;
      } else {
        sink := sink + [log[cursor]];
        cursor := cursor + 1;
      }
    }

    /** The forwarding task, run until the channel has nothing more: it shows every snapshot the
        channel still kept, in order, and ends on the newest. */
    method Drain(log: seq<Table>)
      requires cursor <= |log|
      modifies this
      ensures cursor == |log|
      ensures sink == old(sink) + log[Oldest(old(cursor), log)..]
    {
      while cursor < |log|
        invariant old(cursor) <= cursor <= |log|
        invariant cursor == old(cursor) || Oldest(old(cursor), log) <= cursor
        invariant sink == old(sink) + if cursor <= Oldest(old(cursor), log) then [] else log[Oldest(old(cursor), log)..cursor]
        decreases |log| - cursor
      {
        Receive(log);
      }
    }
  }

  /** The first snapshot a subscriber at `cursor` can still receive. */
  function Oldest(cursor: nat, log: seq<Table>): (k: nat)
    requires cursor <= |log|
    ensures cursor <= k <= |log|
  {
    if cursor + 64 < |log| then |log| - 64 else cursor
  }
}
