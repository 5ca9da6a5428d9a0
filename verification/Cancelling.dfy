/** The cancel request a job sends after a failure or an abort: which session it names, and what it
    does when it arrives. */
module Cancelling {
  import opened Protocol
  import opened Receiving
  import opened ReceiverInvariant
  import opened Delivery
  import opened Replies

  /** The session the job was granted, as long as it is not done with it. */
  predicate HoldsSession(c: Client) {
    c.Looping? || c.Uploading? || c.Stopping?
  }

  /** The job's session, and every session named by a cancel on the wire, is one that was opened
      for this job's request. */
  ghost predicate NamesOurs(plan: Plan, s: System)
    requires ValidPlan(plan)
  {
    && (HoldsSession(s.client) ==> Ours(plan, s.world.log, s.client.sessionId))
    && forall r | r in s.wire && s.wire[r].CancelMsg? :: Ours(plan, s.world.log, s.wire[r].sessionId)
  }

  lemma OursStays(plan: Plan, s: System, m: Move, sid: string)
    requires ValidPlan(plan) && Can(plan, s, m) && Ours(plan, s.world.log, sid)
    ensures Ours(plan, Next(plan, s, m).world.log, sid)
  {
    hide Step, Enabled, Ours;
    match m
    case Other(a) => LogGrows(s.world, a); OursGrows(plan, s.world.log, Next(plan, s, m).world.log, sid);
    case Arrive(req) =>
      var a := ArrivalOf(plan, req, s.wire[req]);
      ArrivalEnabled(plan, s, req);
      LogGrows(s.world, a);
      OursGrows(plan, s.world.log, Next(plan, s, m).world.log, sid);
    case _ =>
  }

  lemma NamesOursStep(plan: Plan, s: System, m: Move)
    requires ValidPlan(plan) && Can(plan, s, m) && NamesOurs(plan, s)
    requires PointOk(plan, s) && PointOk(plan, Next(plan, s, m))
    ensures NamesOurs(plan, Next(plan, s, m))
  {
    var v := Next(plan, s, m);
    if HoldsSession(s.client) {
      OursStays(plan, s, m, s.client.sessionId);
    }
    forall r | r in s.wire && s.wire[r].CancelMsg? ensures Ours(plan, v.world.log, s.wire[r].sessionId) {
      OursStays(plan, s, m, s.wire[r].sessionId);
    }
    hide Step, Enabled, Ours;
  }

  /** In every execution, every cancel on the wire names a session opened for this job. */
  lemma {:induction false} CancelsNameOurs(plan: Plan, trace: seq<System>, moves: seq<Move>, k: nat)
    requires ValidPlan(plan) && Execution(plan, trace, moves) && k <= |moves|
    ensures NamesOurs(plan, trace[k])
  {
    hide Can, Next;
    if k > 0 {
      CancelsNameOurs(plan, trace, moves, k - 1);
      SysInvAlways(plan, trace, moves, k - 1);
      SysInvAlways(plan, trace, moves, k);
      hide NamesOurs;
      NamesOursStep(plan, trace[k - 1], moves[k - 1]);
    }
  }

  // ---- from sending to arriving -----------------------------------------------------------

  lemma OnTheWay(plan: Plan, s: System, m: Move, req: Req, msg: Message)
    requires ValidPlan(plan) && Can(plan, s, m) && req in s.mine && (req in s.wire ==> s.wire[req] == msg)
    ensures var v := Next(plan, s, m); req in v.mine && (req in v.wire ==> v.wire[req] == msg)
  {
    hide Step, Enabled;
  }

  /** What was sent as a cancel is that cancel, of the session the job held then, until it arrives
      or is lost. */
  lemma {:induction false} SentCancel(plan: Plan, trace: seq<System>, moves: seq<Move>, k: nat, j: nat, req: Req)
    requires ValidPlan(plan) && Execution(plan, trace, moves) && k < j <= |moves| && moves[k] == SendCancel(req)
    ensures trace[k].client.Stopping?
    ensures req in trace[j].mine
    ensures req in trace[j].wire ==> trace[j].wire[req] == CancelMsg(trace[k].client.sessionId)
  {
    hide Can, Next, Initial;
    assert Can(plan, trace[k], moves[k]) && trace[k + 1] == Next(plan, trace[k], moves[k]);
    JustSent(plan, trace[k], req);
    if j > k + 1 {
      SentCancel(plan, trace, moves, k, j - 1, req);
      OnTheWay(plan, trace[j - 1], moves[j - 1], req, CancelMsg(trace[k].client.sessionId));
    }
  }

  lemma JustSent(plan: Plan, s: System, req: Req)
    requires ValidPlan(plan) && Can(plan, s, SendCancel(req))
    ensures s.client.Stopping?
    ensures var v := Next(plan, s, SendCancel(req)); req in v.mine && req in v.wire && v.wire[req] == CancelMsg(s.client.sessionId)
  {
    hide Step, Enabled;
  }

  /** When the cancel a job sent arrives, the session it held is no longer live at the receiver:
      if it was until then, the receiver is idle and answers 200, and otherwise it answers 404 and
      stays as it was. */
  lemma {:induction false} CancelEndsSession(plan: Plan, trace: seq<System>, moves: seq<Move>, k: nat, m: nat, req: Req)
    requires ValidPlan(plan) && Execution(plan, trace, moves) && k < m < |moves|
    requires moves[k] == SendCancel(req) && moves[m] == Arrive(req)
    ensures trace[k].client.Stopping?
    ensures var sid, w, v := trace[k].client.sessionId, trace[m].world, trace[m + 1].world;
      && Ours(plan, trace[k].world.log, sid)
      && !IsLive(v, sid)
      && req in v.replies
      && if IsLive(w, sid) then v.replies[req] == Status(200) && v.state.Idle?
         else v.replies[req] == Status(404) && v.state == w.state
  {
    SentCancel(plan, trace, moves, k, m, req);
    CancelsNameOurs(plan, trace, moves, k);
    var sid := trace[k].client.sessionId;
    assert Can(plan, trace[m], moves[m]) && trace[m + 1] == Next(plan, trace[m], moves[m]);
    assert trace[m + 1].world == Step(trace[m].world, Cancel(req, sid));
    CancelStep(trace[m].world, Cancel(req, sid));
  }

  // ---- a job that does not finish cancels ---------------------------------------------------

  /** Where a job with a session can go: on with it, to Done, or over by way of a cancel. */
  lemma HoldsOn(plan: Plan, s: System, m: Move)
    requires ValidPlan(plan) && Can(plan, s, m) && HoldsSession(s.client)
    ensures var v := Next(plan, s, m);
      || (HoldsSession(v.client) && v.client.sessionId == s.client.sessionId)
      || (v.client.Over? && v.client.outcome.Done?)
      || (v.client.Over? && s.client.Stopping? && (m.SendCancel? || m.CancelLost?))
  {
    hide Step, Enabled;
  }

  lemma OverStays(plan: Plan, s: System, m: Move)
    requires ValidPlan(plan) && Can(plan, s, m) && s.client.Over?
    ensures Next(plan, s, m).client == s.client
  {
    hide Step, Enabled;
  }

  /** The job tries to cancel session `sid` at step `k`. */
  ghost predicate Cancels(trace: seq<System>, moves: seq<Move>, k: nat, sid: string) {
    && k < |moves| && k < |trace| && (moves[k].SendCancel? || moves[k].CancelLost?)
    && trace[k].client.Stopping? && trace[k].client.sessionId == sid
  }

  /** A job that was granted a session and ends otherwise than in Done has sent a cancel for that
      session, or lost it on the way out. */
  lemma {:induction false} UnfinishedJobCancels(plan: Plan, trace: seq<System>, moves: seq<Move>, i: nat, j: nat)
    requires ValidPlan(plan) && Execution(plan, trace, moves) && i <= j <= |moves|
    requires HoldsSession(trace[i].client)
    ensures || (HoldsSession(trace[j].client) && trace[j].client.sessionId == trace[i].client.sessionId)
            || (trace[j].client.Over? && trace[j].client.outcome.Done?)
            || (trace[j].client.Over? && exists k: nat :: i <= k < j && Cancels(trace, moves, k, trace[i].client.sessionId))
    decreases j - i
  {
    if i < j {
      UnfinishedJobCancels(plan, trace, moves, i, j - 1);
      var s, m := trace[j - 1], moves[j - 1];
      assert Can(plan, s, m) && trace[j] == Next(plan, s, m);
      hide Can, Next;
      if HoldsSession(s.client) {
        HoldsOn(plan, s, m);
        if s.client.Stopping? && (m.SendCancel? || m.CancelLost?) && s.client.sessionId == trace[i].client.sessionId {
          assert Cancels(trace, moves, j - 1, trace[i].client.sessionId);
        }
      } else {
        OverStays(plan, s, m);
      }
    }
  }
}
