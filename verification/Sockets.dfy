/** The discovery socket and its read loop (app/rust/src/core/discovery.rs): the system may close
    the socket at any time, the loop that reads it then clears the slot, and the next announcement
    binds a new one. A bind starts the new loop, replaces and aborts the old one, and only then
    fills the slot, each under its own lock. */
module Sockets {
  import opened Protocol

  /** A socket and the task reading it are created together and share a number. An aborted task
      may still be on its way through the failure path. */
  datatype Loop = Live | Aborted | Ended

  /** How far an announcer that found the slot empty has come. */
  datatype Binder = Looked | Spawned(socket: nat) | Replaced(socket: nat)

  datatype Net = Net(
    slot: Option<nat>,
    readTask: Option<nat>,
    loops: map<nat, Loop>,
    next: nat,
    binders: map<nat, Binder>)

  datatype Action =
    | Look(binder: nat)
    | Spawn(binder: nat)
    | NoBind(binder: nat)
    | Replace(binder: nat)
    | Publish(binder: nat)
    | Fail(socket: nat)
    | Finish(socket: nat)
    | Stop

  /** `start` binds before anything else runs. */
  const BOOT := Net(Some(0), Some(0), map[0 := Live], 1, map[])

  predicate Enabled(s: Net, a: Action) {
    match a
    case Look(b) => b !in s.binders && s.slot == None
    case Spawn(b) => b in s.binders && s.binders[b].Looked?
    case NoBind(b) => b in s.binders && s.binders[b].Looked?
    case Replace(b) => b in s.binders && s.binders[b].Spawned?
    case Publish(b) => b in s.binders && s.binders[b].Replaced?
    case Fail(n) => n in s.loops && !s.loops[n].Ended?
    case Finish(n) => n in s.loops && s.loops[n].Aborted?
    case Stop => true
  }

  /** `abort`: no effect on a task that is over. */
  function Abort(loops: map<nat, Loop>, task: Option<nat>): map<nat, Loop> {
    if task.Some? && task.value in loops && loops[task.value].Live? then loops[task.value := Aborted] else loops
  }

  /** `bind`, first part: the socket, and its loop at once. */
  function DoSpawn(s: Net, b: nat): Net {
    s.(loops := s.loops[s.next := Live], next := s.next + 1, binders := s.binders[b := Spawned(s.next)])
  }

  function DoReplace(s: Net, b: nat, n: nat): Net {
    s.(readTask := Some(n), loops := Abort(s.loops, s.readTask), binders := s.binders[b := Replaced(n)])
  }

  function DoPublish(s: Net, b: nat, n: nat): Net {
    s.(slot := Some(n), binders := s.binders - {b})
  }

  /** The failure path clears the slot only if it still holds the loop's own socket. */
  function DoFail(s: Net, n: nat): Net {
    s.(loops := s.loops[n := Ended], slot := if s.slot == Some(n) then None else s.slot)
  }

  function DoStop(s: Net): Net {
    s.(loops := Abort(s.loops, s.readTask), readTask := None, slot := None)
  }

  function Next(s: Net, a: Action): Net
    requires Enabled(s, a)
  {
    match a
    case Look(b) => s.(binders := s.binders[b := Looked])
    case Spawn(b) => DoSpawn(s, b)
    case NoBind(b) => s.(binders := s.binders - {b})
    case Replace(b) => DoReplace(s, b, s.binders[b].socket)
    case Publish(b) => DoPublish(s, b, s.binders[b].socket)
    case Fail(n) => DoFail(s, n)
    case Finish(n) => s.(loops := s.loops[n := Ended])
    case Stop => DoStop(s)
  }

  ghost predicate Reaches(trace: seq<Net>, actions: seq<Action>) {
    && |trace| == |actions| + 1
    && forall k | 0 <= k < |actions| :: Enabled(trace[k], actions[k]) && trace[k + 1] == Next(trace[k], actions[k])
  }

  /** The slot's socket has a loop reading it. */
  predicate Hearing(s: Net) {
    s.slot.Some? && s.slot.value in s.loops && s.loops[s.slot.value].Live?
  }

  /** The slot's socket has no loop left, so nothing will clear the slot. */
  predicate Deaf(s: Net) {
    s.slot.Some? && s.slot.value in s.loops && s.loops[s.slot.value].Ended?
  }

  // ---- binds and looks that are not disturbed ---------------------------------------------

  /** What an announcement does when no other step comes between its look and its last part;
      with no other under way, any number serves for it. */
  function Announce(s: Net, bindWorks: bool): Net {
    if s.slot.Some? || !bindWorks then s
    else
      DoPublish(DoReplace(DoSpawn(s, 0), 0, s.next), 0, s.next)
  }

  datatype Calm = Announcing(bindWorks: bool) | Quietly(action: Action)

  predicate CalmEnabled(s: Net, c: Calm) {
    c.Quietly? ==> (c.action.Fail? || c.action.Finish? || c.action.Stop?) && Enabled(s, c.action)
  }

  function CalmNext(s: Net, c: Calm): Net
    requires CalmEnabled(s, c)
  {
    match c
    case Announcing(bindWorks) => Announce(s, bindWorks)
    case Quietly(a) => Next(s, a)
  }

  ghost predicate CalmRun(trace: seq<Net>, steps: seq<Calm>) {
    && |trace| == |steps| + 1
    && trace[0] == BOOT
    && forall k | 0 <= k < |steps| :: CalmEnabled(trace[k], steps[k]) && trace[k + 1] == CalmNext(trace[k], steps[k])
  }

  /** The live loops are exactly the slot's, and it is the task on record. */
  ghost predicate Matched(s: Net) {
    && s.binders == map[]
    && (forall n | n in s.loops :: n < s.next)
    && (forall n | n in s.loops :: s.loops[n].Live? <==> s.slot == Some(n))
    && (s.slot.Some? ==> s.readTask == s.slot)
    && (s.readTask.Some? ==> s.readTask.value in s.loops)
  }

  lemma {:induction false} CalmKeepsMatched(s: Net, c: Calm)
    requires Matched(s) && CalmEnabled(s, c)
    ensures Matched(CalmNext(s, c))
  {
    var s' := CalmNext(s, c);
    match c
    case Announcing(bindWorks) =>
      if s.slot == None && bindWorks {
        assert s'.binders == map[];
      }
    case Quietly(a) =>
  }

  /** In every run whose binds are undisturbed, the slot is empty or its loop is live, and no
      other loop is. */
  lemma {:induction false} AlwaysMatched(trace: seq<Net>, steps: seq<Calm>)
    requires CalmRun(trace, steps)
    ensures Matched(trace[|steps|])
  {
    if steps != [] {
      AlwaysMatched(trace[..|steps|], steps[..|steps| - 1]);
      CalmKeepsMatched(trace[|steps| - 1], steps[|steps| - 1]);
    }
  }

  /** A loop that was replaced fails late: the newer socket and its loop are untouched. */
  lemma {:induction false} LateFailureIsHarmless(trace: seq<Net>, steps: seq<Calm>, n: nat)
    requires CalmRun(trace, steps)
    requires n in trace[|steps|].loops && trace[|steps|].loops[n].Aborted?
    ensures var s := trace[|steps|]; var s' := Next(s, Fail(n));
      s'.slot == s.slot && (Hearing(s) ==> Hearing(s'))
  {
    AlwaysMatched(trace, steps);
  }

  /** Whatever happened, one announcement whose bind works leaves a live socket; after a failure
      of the current one it is a new one. */
  lemma {:induction false} AnnouncementRestores(trace: seq<Net>, steps: seq<Calm>)
    requires CalmRun(trace, steps)
    ensures var s := trace[|steps|]; var s' := Announce(s, true);
      && Hearing(s')
      && (s.slot == None ==> s'.slot == Some(s.next) && s.next !in s.loops)
  {
    AlwaysMatched(trace, steps);
    CalmKeepsMatched(trace[|steps|], Announcing(true));
  }

  // ---- binds in three parts ---------------------------------------------------------------

  /** Nobody who is binding can still bring a live socket. */
  predicate NoHelp(s: Net) {
    forall b | b in s.binders ::
      !s.binders[b].Looked? && s.binders[b].socket in s.loops && s.loops[s.binders[b].socket].Ended?
  }

  /** What disturbed binds can do: a slot whose loop is over, with no help under way, stays deaf
      through every further run that does not stop the node. */
  lemma {:induction false} DeafForever(trace: seq<Net>, actions: seq<Action>)
    requires Reaches(trace, actions) && Stop !in actions
    requires Deaf(trace[0]) && NoHelp(trace[0])
    ensures Deaf(trace[|actions|]) && NoHelp(trace[|actions|])
  {
    if actions != [] {
      var k := |actions| - 1;
      forall a | a in actions[..k] ensures a in actions {
      }
      DeafForever(trace[..k + 1], actions[..k]);
      assert actions[k] in actions;
      StaysDeaf(trace[k], actions[k]);
    }
  }

  lemma StaysDeaf(s: Net, a: Action)
    requires Deaf(s) && NoHelp(s) && Enabled(s, a) && a != Stop
    ensures Deaf(Next(s, a)) && NoHelp(Next(s, a))
  {
  }

  ghost predicate CanRecover(s: Net) {
    exists trace, actions :: Recovers(trace, actions, s)
  }

  ghost predicate Recovers(trace: seq<Net>, actions: seq<Action>, s: Net) {
    Reaches(trace, actions) && Stop !in actions && trace[0] == s && Hearing(trace[|actions|])
  }

  ghost predicate Known(s: Net) {
    && (forall n | n in s.loops :: n < s.next)
    && (s.slot.Some? ==> s.slot.value in s.loops)
    && (s.readTask.Some? ==> s.readTask.value in s.loops)
    && (forall b | b in s.binders && !s.binders[b].Looked? :: s.binders[b].socket in s.loops)
  }

  /** A step towards recovery. */
  lemma RecoverAfter(s: Net, a: Action)
    requires Enabled(s, a) && a != Stop && CanRecover(Next(s, a))
    ensures CanRecover(s)
  {
    var trace, actions :| Recovers(trace, actions, Next(s, a));
    var all, steps := [s] + trace, [a] + actions;
    forall k | 0 <= k < |steps| ensures Enabled(all[k], steps[k]) && all[k + 1] == Next(all[k], steps[k]) {
      if k > 0 {
        assert Enabled(trace[k - 1], actions[k - 1]) && trace[k] == Next(trace[k - 1], actions[k - 1]);
      }
    }
    assert all[|steps|] == trace[|actions|];
    assert Recovers(all, steps, s);
  }

  lemma HearingRecovers(s: Net)
    requires Hearing(s)
    ensures CanRecover(s)
  {
    var none: seq<Action> := [];
    assert Recovers([s], none, s);
  }

  /** A loop that is not over can fail, and then its socket is not in the slot any more. */
  lemma SlotRecovers(s: Net)
    requires Known(s) && s.slot.Some? && !Deaf(s)
    ensures CanRecover(s)
  {
    if Hearing(s) {
      HearingRecovers(s);
    } else {
      KnownStep(s, Fail(s.slot.value));
      EmptyRecovers(Next(s, Fail(s.slot.value)));
      RecoverAfter(s, Fail(s.slot.value));
    }
  }

  lemma UnusedName(names: set<nat>) returns (b: nat)
    ensures forall n | n in names :: n < b
  {
    b := 0;
    if n :| n in names {
      var rest := names - {n};
      b := UnusedName(rest);
      b := if b <= n then n + 1 else b;
      assert names == rest + {n};
    }
  }

  /** An empty slot needs one announcement that is not disturbed. */
  lemma EmptyRecovers(s: Net)
    requires Known(s) && s.slot == None
    ensures CanRecover(s)
  {
    var b := UnusedName(s.binders.Keys);
    assert b !in s.binders;
    KnownStep(s, Look(b));
    LookedRecovers(Next(s, Look(b)), b);
    RecoverAfter(s, Look(b));
  }

  lemma LookedRecovers(s: Net, b: nat)
    requires Known(s) && b in s.binders && s.binders[b].Looked?
    ensures CanRecover(s)
  {
    var s1 := Next(s, Spawn(b));
    var s2 := Next(s1, Replace(b));
    var s3 := Next(s2, Publish(b));
    assert Hearing(s3);
    HearingRecovers(s3);
    RecoverAfter(s2, Publish(b));
    RecoverAfter(s1, Replace(b));
    RecoverAfter(s, Spawn(b));
  }

  /** An announcer whose socket still has a loop will put it in the slot; if the loop was aborted
      by then, it can still fail and empty it. */
  lemma HelpRecovers(s: Net, b: nat)
    requires Known(s) && b in s.binders && !s.binders[b].Looked? && !s.loops[s.binders[b].socket].Ended?
    ensures CanRecover(s)
    decreases if b in s.binders && s.binders[b].Spawned? then 1 else 0
  {
    if s.binders[b].Spawned? {
      KnownStep(s, Replace(b));
      HelpRecovers(Next(s, Replace(b)), b);
      RecoverAfter(s, Replace(b));
    } else {
      KnownStep(s, Publish(b));
      SlotRecovers(Next(s, Publish(b)));
      RecoverAfter(s, Publish(b));
    }
  }

  /** Discovery can come back without a restart exactly when the slot is not deaf, or somebody is
      binding whose socket is not dead yet. */
  lemma {:induction false} RecoversExactly(s: Net)
    requires Known(s)
    ensures CanRecover(s) <==> !Deaf(s) || !NoHelp(s)
  {
    if !Deaf(s) {
      if s.slot == None { EmptyRecovers(s); } else { SlotRecovers(s); }
    } else if !NoHelp(s) {
      var b :| b in s.binders
        && !(!s.binders[b].Looked? && s.binders[b].socket in s.loops && s.loops[s.binders[b].socket].Ended?);
      if s.binders[b].Looked? { LookedRecovers(s, b); } else { HelpRecovers(s, b); }
    } else if CanRecover(s) {
      var trace, actions :| Recovers(trace, actions, s);
      DeafForever(trace, actions);
    }
  }

  /** So it is in every reachable state, binds under way included. */
  lemma {:induction false} RecoversInEveryRun(trace: seq<Net>, actions: seq<Action>)
    requires Reaches(trace, actions) && trace[0] == BOOT
    ensures CanRecover(trace[|actions|]) <==> !Deaf(trace[|actions|]) || !NoHelp(trace[|actions|])
  {
    AlwaysKnown(trace, actions);
    RecoversExactly(trace[|actions|]);
  }

  /** The code does get there. The new socket dies between the two locks of its own bind: its
      loop finds the slot not yet its own, and the slot is then filled with a dead socket. */
  lemma {:induction false} DiesBeforePublished() returns (trace: seq<Net>, actions: seq<Action>)
    ensures Reaches(trace, actions) && trace[0] == BOOT && Stop !in actions
    ensures Deaf(trace[|actions|]) && trace[|actions|].binders == map[]
  {
    actions := [Fail(0), Look(0), Spawn(0), Fail(1), Replace(0), Publish(0)];
    var s1 := Next(BOOT, actions[0]);
    var s2 := Next(s1, actions[1]);
    var s3 := Next(s2, actions[2]);
    assert s3 == Net(None, Some(0), map[0 := Ended, 1 := Live], 2, map[0 := Spawned(1)]);
    var s4 := Next(s3, actions[3]);
    var s5 := Next(s4, actions[4]);
    trace := [BOOT, s1, s2, s3, s4, s5, Next(s5, actions[5])];
  }

  /** Two announcements find the slot empty together. The first to record its loop is the last
      to fill the slot: its loop was aborted, and the socket that is read is not in the slot. */
  lemma {:induction false} TwoBindersCross() returns (trace: seq<Net>, actions: seq<Action>)
    ensures Reaches(trace, actions) && trace[0] == BOOT && Stop !in actions
    ensures Deaf(trace[|actions|]) && trace[|actions|].binders == map[]
  {
    var first, early := BothSpawned();
    var s := Net(None, Some(0), map[0 := Ended, 1 := Live, 2 := Live], 3, map[0 := Spawned(1), 1 := Spawned(2)]);
    var second, late := Crossed(s);
    actions := early + late;
    trace := first + second[1..];
    assert forall k | |early| <= k < |actions| :: actions[k] == late[k - |early|];
    assert forall k | |early| <= k <= |actions| :: trace[k] == second[k - |early|];
  }

  lemma BothSpawned() returns (trace: seq<Net>, actions: seq<Action>)
    ensures Reaches(trace, actions) && trace[0] == BOOT && Stop !in actions
    ensures trace[|actions|] ==
      Net(None, Some(0), map[0 := Ended, 1 := Live, 2 := Live], 3, map[0 := Spawned(1), 1 := Spawned(2)])
  {
    actions := [Fail(0), Look(0), Look(1), Spawn(0), Spawn(1)];
    var s1 := Next(BOOT, actions[0]);
    var s2 := Next(s1, actions[1]);
    var s3 := Next(s2, actions[2]);
    var s4 := Next(s3, actions[3]);
    trace := [BOOT, s1, s2, s3, s4, Next(s4, actions[4])];
  }

  lemma Crossed(s: Net) returns (trace: seq<Net>, actions: seq<Action>)
    requires s == Net(None, Some(0), map[0 := Ended, 1 := Live, 2 := Live], 3, map[0 := Spawned(1), 1 := Spawned(2)])
    ensures Reaches(trace, actions) && trace[0] == s && Stop !in actions
    ensures Deaf(trace[|actions|]) && trace[|actions|].binders == map[]
  {
    actions := [Replace(0), Replace(1), Publish(1), Publish(0), Finish(1)];
    var s1 := Next(s, actions[0]);
    var s2 := Next(s1, actions[1]);
    var s3 := Next(s2, actions[2]);
    var s4 := Next(s3, actions[3]);
    trace := [s, s1, s2, s3, s4, Next(s4, actions[4])];
  }

  /** The facts about numbers that `RecoversExactly` asks for hold in every run. */
  lemma {:induction false} AlwaysKnown(trace: seq<Net>, actions: seq<Action>)
    requires Reaches(trace, actions) && trace[0] == BOOT
    ensures Known(trace[|actions|])
  {
    if actions != [] {
      var k := |actions| - 1;
      AlwaysKnown(trace[..k + 1], actions[..k]);
      KnownStep(trace[k], actions[k]);
    }
  }

  lemma KnownStep(s: Net, a: Action)
    requires Known(s) && Enabled(s, a)
    ensures Known(Next(s, a))
  {
    var s' := Next(s, a);
    forall b | b in s'.binders && !s'.binders[b].Looked? ensures s'.binders[b].socket in s'.loops {
    }
  }

  // ---- the methods ----------------------------------------------------------------------

  /** The two slots of `Inner`, with the tasks that exist. */
  class Discoverer {
    var socket: Option<nat>
    var readTask: Option<nat>
    var loops: map<nat, Loop>
    var next: nat

    function Snapshot(): Net
      reads this
    {
      Net(socket, readTask, loops, next, map[])
    }

    constructor ()
      ensures Snapshot() == BOOT
    {
      socket, readTask, loops, next := Some(0), Some(0), map[0 := Live], 1;
    }

    /** `current_or_rebind`. */
    method CurrentOrRebind(bindWorks: bool) returns (current: Option<nat>)
      requires Matched(Snapshot())
      modifies this
      ensures Snapshot() == Announce(old(Snapshot()), bindWorks) && Matched(Snapshot())
      ensures current == socket && (bindWorks ==> Hearing(Snapshot()))
    {
      CalmKeepsMatched(Snapshot(), Announcing(bindWorks));
      if socket.Some? || !bindWorks {
        return socket;
      }
      current := Bind();
    }

    method Bind() returns (current: Option<nat>)
      requires socket == None
      modifies this
      ensures Snapshot() == Announce(old(Snapshot()), true)
      ensures current == socket == Some(old(next))
    {
      var n := next;
      loops := loops[n := Live];
      next := n + 1;
      var replaced := readTask;
      readTask := Some(n);
      if replaced.Some? && replaced.value in loops && loops[replaced.value].Live? {
        loops := loops[replaced.value := Aborted];
      }
      socket := Some(n);
      current := socket;
    }

    /** The end of a read loop: its own socket, and no other, leaves the slot. */
    method ReadFailed(n: nat)
      requires Matched(Snapshot()) && n in loops && !loops[n].Ended?
      modifies this
      ensures Snapshot() == Next(old(Snapshot()), Fail(n)) && Matched(Snapshot())
      ensures old(loops[n]).Aborted? ==> socket == old(socket)
    {
      CalmKeepsMatched(Snapshot(), Quietly(Fail(n)));
      loops := loops[n := Ended];
      if socket == Some(n) {
        socket := None;
      }
    }

    method StopAll()
      requires Matched(Snapshot())
      modifies this
      ensures Snapshot() == Next(old(Snapshot()), Stop) && Matched(Snapshot())
      ensures socket == None && readTask == None && forall n | n in loops :: !loops[n].Live?
    {
      CalmKeepsMatched(Snapshot(), Quietly(Stop));
      if readTask.Some? && readTask.value in loops && loops[readTask.value].Live? {
        loops := loops[readTask.value := Aborted];
      }
      readTask := None;
      socket := None;
    }
  }
}
