/** One session at a time (rule R4): exactly when the receiver keeps it, and what it gives. */
module OneSession {
  import opened Protocol
  import opened Receiving
  import opened ReceiverInvariant
  import opened Folder
  import Collision
  import Trust

  /** At most one prepare handler is between its lock-held regions, and the state is Pending
      precisely while there is one. */
  ghost predicate OneAsking(w: World) {
    && (forall r, s | r in w.asking && s in w.asking :: r == s)
    && (w.state.Pending? <==> exists r :: r in w.asking)
  }

  /** The one action that can break the rule: an upload that failed resets a Pending state
      that belongs to somebody else's request. */
  predicate ResetsPending(w: World, a: Action) {
    a.Abandon? && w.state.Pending?
  }

  /** How each action moves the state and the set of waiting prepare handlers. */
  lemma {:induction false} AskingMoves(w: World, a: Action)
    requires Enabled(w, a) && Apart(w.asking, w.uploading, w.replies)
    ensures var v := Step(w, a);
            match a
            case BeginPrepare(req, prepare) =>
              if prepare.files != map[] && w.state.Idle? then v.state.Pending? && v.asking.Keys == w.asking.Keys + {req}
              else v.state == w.state && v.asking == w.asking
            case TimeOut(req) => v.state.Idle? && v.asking.Keys == w.asking.Keys - {req}
            case Reject(req) => v.state.Idle? && v.asking.Keys == w.asking.Keys - {req}
            case Approve(_, _) => v.state == w.state && v.asking.Keys == w.asking.Keys
            case Open(req, _, _) => v.state.Sending? && v.asking.Keys == w.asking.Keys - {req}
            case Abandon(_) => v.state.Idle? && v.asking == w.asking
            case _ => (v.state.Pending? <==> w.state.Pending?) && v.asking == w.asking
  {
    hide FreshNames, Target, Contents, ValidUpload;
    assert a.req !in w.asking ==> w.asking - {a.req} == w.asking;
  }

  /** One step keeps the rule exactly when it is not that action. */
  lemma {:induction false} KeptExactly(w: World, a: Action)
    requires Enabled(w, a) && Apart(w.asking, w.uploading, w.replies) && OneAsking(w)
    ensures OneAsking(Step(w, a)) <==> !ResetsPending(w, a)
  {
    AskingMoves(w, a);
    hide Step, Apart;
    var v := Step(w, a);
    if r :| r in w.asking {
      assert w.asking.Keys == {r};
      if a.Abandon? { assert r in v.asking; }
    } else if a.BeginPrepare? && v.asking != w.asking {
      assert a.req in v.asking;
    }
  }

  /** Over whole runs: the rule holds in every state exactly when no failed upload ever
      completes while somebody's request is pending. */
  lemma {:induction false} RuleOverRuns(trace: seq<World>, acts: seq<Action>)
    requires Run(trace, acts)
    ensures (forall k | 0 <= k < |trace| :: OneAsking(trace[k]))
            <==> (forall k | 0 <= k < |acts| :: !ResetsPending(trace[k], acts[k]))
  {
    if forall k | 0 <= k < |trace| :: OneAsking(trace[k]) {
      forall k | 0 <= k < |acts| ensures !ResetsPending(trace[k], acts[k]) {
        InvAlways(trace, acts, k);
        KeptExactly(trace[k], acts[k]);
        assert OneAsking(trace[k + 1]);
      }
    }
    if forall k | 0 <= k < |acts| :: !ResetsPending(trace[k], acts[k]) {
      forall k | 0 <= k < |trace| ensures OneAsking(trace[k]) {
        RuleUpTo(trace, acts, k);
      }
    }
  }

  lemma {:induction false} RuleUpTo(trace: seq<World>, acts: seq<Action>, k: nat)
    requires Run(trace, acts) && k <= |acts|
    requires forall i | 0 <= i < |acts| :: !ResetsPending(trace[i], acts[i])
    ensures OneAsking(trace[k])
  {
    if k > 0 {
      RuleUpTo(trace, acts, k - 1);
      InvAlways(trace, acts, k - 1);
      KeptExactly(trace[k - 1], acts[k - 1]);
    }
  }

  /** Under the rule a live session is only ever followed by itself or by Idle, so no session
      takes the place of another. */
  lemma {:induction false} SessionNotReplaced(w: World, a: Action)
    requires Enabled(w, a) && OneAsking(w) && w.state.Sending?
    ensures Step(w, a).state.Idle?
            || (Step(w, a).state.Sending? && Step(w, a).state.session.id == w.state.session.id
                && Step(w, a).state.session.files == w.state.session.files)
  {
    hide FreshNames, Target, Contents, ValidUpload;
    assert a.Open? ==> a.req in w.asking;
  }

  // ---- uploads that do not outlive their session ------------------------------------

  /** Every upload in flight belongs to the live session. */
  ghost predicate NoneOutlives(w: World) {
    forall r | r in w.uploading :: w.state.Sending? && w.state.session.id == w.uploading[r].ticket.sessionId
  }

  /** When no upload outlives its session, the rule holds throughout. */
  lemma {:induction false} NoneOutlivesKeepsRule(trace: seq<World>, acts: seq<Action>)
    requires Run(trace, acts)
    requires forall k | 0 <= k < |trace| :: NoneOutlives(trace[k])
    ensures forall k | 0 <= k < |trace| :: OneAsking(trace[k])
  {
    forall k | 0 <= k < |acts| ensures !ResetsPending(trace[k], acts[k]) {
      assert NoneOutlives(trace[k]);
    }
    RuleOverRuns(trace, acts);
  }

  /** An upload that completes while a session is live completes into its own session. */
  predicate Timely(w: World, a: Action) {
    a.Finish? && a.req in w.uploading && w.state.Sending? ==>
      w.uploading[a.req].ticket.sessionId == w.state.session.id
  }

  ghost predicate SavedIn(log: seq<Event>, sid: string, fid: string) {
    exists e :: e in log && e.Saved? && e.ticket.sessionId == sid && e.ticket.fileId == fid
  }

  /** What the live session counts as received are files of its own, each of them saved. */
  ghost predicate ReceivedOk(state: State, log: seq<Event>) {
    state.Sending? ==>
      && state.session.received <= state.session.files.Keys
      && forall fid | fid in state.session.received :: SavedIn(log, state.session.id, fid)
  }

  lemma SavedInGrows(log: seq<Event>, log': seq<Event>, sid: string, fid: string)
    requires SavedIn(log, sid, fid) && log <= log'
    ensures SavedIn(log', sid, fid)
  {
    var s :| s in log && s.Saved? && s.ticket.sessionId == sid && s.ticket.fileId == fid;
    assert s in log';
  }

  /** A ticket of the live session names one of its files. */
  lemma {:induction false} TicketOfSession(w: World, req: Req)
    requires Inv(w) && req in w.uploading && w.state.Sending?
    requires w.uploading[req].ticket.sessionId == w.state.session.id
    ensures w.uploading[req].ticket.fileId in w.state.session.files
  {
    hide FilesOk, AskingOk, GrantedOk, Apart;
    var t := w.uploading[req].ticket;
    assert Accepted(req, t) in w.log;
    var k :| 0 <= k < |w.log| && w.log[k] == Accepted(req, t);
    assert Justified(w.log[..k], w.log[k]);
    var o :| o in w.log[..k] && Issues(o, t);
    assert o in w.log;
    var s :| s in w.log && Opens(s, w.state.session);
    assert s == o;
  }

  /** How a live session comes about. */
  lemma SessionMoves(w: World, a: Action)
    requires Enabled(w, a) && Step(w, a).state.Sending?
    ensures var v := Step(w, a);
            || v.state == w.state
            || (a.Open? && v.state.session.received == {})
            || (a.Finish? && w.state.Sending?
                && v.state.session == w.state.session.(received := w.state.session.received + {w.uploading[a.req].ticket.fileId}))
  {
    hide FreshNames, Target, Contents, ValidUpload;
  }

  lemma BootReceived(log: seq<Event>)
    ensures ReceivedOk(Idle, log)
  {
  }

  lemma ReceivedGrows(state: State, log: seq<Event>, log': seq<Event>)
    requires ReceivedOk(state, log) && log <= log'
    ensures ReceivedOk(state, log')
  {
    if state.Sending? {
      forall fid | fid in state.session.received ensures SavedIn(log', state.session.id, fid) {
        SavedInGrows(log, log', state.session.id, fid);
      }
    }
  }

  lemma ReceivedAnother(state: State, log: seq<Event>, log': seq<Event>, fid: string)
    requires ReceivedOk(state, log) && log <= log'
    requires state.Sending? ==> fid in state.session.files && SavedIn(log', state.session.id, fid)
    ensures ReceivedOk(AfterReceived(state, fid), log')
  {
    ReceivedGrows(state, log, log');
  }

  lemma ReceivedFinish(w: World, req: Req)
    requires Inv(w) && Enabled(w, Finish(req)) && Timely(w, Finish(req)) && ReceivedOk(w.state, w.log)
    ensures ReceivedOk(DoFinish(w, req).state, DoFinish(w, req).log)
  {
    hide SessionOk, IdsOk, FilesOk, RequestsOk, Grounded, ReceivedOk, AfterReceived;
    var u, v := w.uploading[req], DoFinish(w, req);
    if w.state.Sending? {
      TicketOfSession(w, req);
    }
    var e := Saved(req, u.ticket, u.phase.path);
    assert e in v.log;
    assert SavedIn(v.log, u.ticket.sessionId, u.ticket.fileId);
    ReceivedAnother(w.state, w.log, v.log, u.ticket.fileId);
  }

  lemma ReceivedStep(w: World, a: Action)
    requires Inv(w) && Enabled(w, a) && Timely(w, a) && ReceivedOk(w.state, w.log)
    ensures ReceivedOk(Step(w, a).state, Step(w, a).log)
  {
    if a.Finish? {
      ReceivedFinish(w, a.req);
    } else {
      LogGrows(w, a);
      ReceivedGrows(w.state, w.log, Step(w, a).log);
      if Step(w, a).state.Sending? {
        SessionMoves(w, a);
        hide Inv, Step, Enabled;
      }
    }
  }

  lemma {:induction false} ReceivedUpTo(trace: seq<World>, acts: seq<Action>, k: nat)
    requires Run(trace, acts) && k <= |acts|
    requires forall i | 0 <= i < k :: Timely(trace[i], acts[i])
    ensures ReceivedOk(trace[k].state, trace[k].log)
  {
    hide Inv, ReceivedOk;
    if k > 0 {
      ReceivedUpTo(trace, acts, k - 1);
      InvAlways(trace, acts, k - 1);
      ReceivedStep(trace[k - 1], acts[k - 1]);
    } else {
      assert ReceivedOk(Idle, trace[0].log) by { BootReceived(trace[0].log); }
    }
  }

  lemma SubsetOfSameSize<T>(a: set<T>, b: set<T>)
    requires a <= b && |a| == |b|
    ensures a == b
  {
    assert b == a + (b - a);
  }

  /** When uploads complete into their own sessions, a session that a completed upload closes
      is complete: every file the user approved has been saved in it. */
  lemma {:induction false} ClosedSessionIsComplete(trace: seq<World>, acts: seq<Action>, k: nat, fid: string)
    requires Run(trace, acts) && k < |acts|
    requires forall i | 0 <= i <= k :: Timely(trace[i], acts[i])
    requires acts[k].Finish? && trace[k].state.Sending? && trace[k + 1].state.Idle?
    requires fid in trace[k].state.session.files
    ensures SavedIn(trace[k + 1].log, trace[k].state.session.id, fid)
  {
    var w, req := trace[k], acts[k].req;
    ReceivedUpTo(trace, acts, k);
    InvAlways(trace, acts, k);
    assert Timely(w, acts[k]);
    TicketOfSession(w, req);
    hide Inv;
    var received := w.state.session.received + {w.uploading[req].ticket.fileId};
    assert trace[k + 1] == DoFinish(w, req);
    assert |received| == |w.state.session.files.Keys|;
    SubsetOfSameSize(received, w.state.session.files.Keys);
    var e := Saved(req, w.uploading[req].ticket, w.uploading[req].phase.path);
    if fid in w.state.session.received {
      SavedInGrows(w.log, trace[k + 1].log, w.state.session.id, fid);
    } else {
      assert e in trace[k + 1].log;
    }
  }

  // ---- saved files are counted ---------------------------------------------------------

  /** What was saved in the live session is counted in it. */
  ghost predicate Counted(state: State, log: seq<Event>) {
    state.Sending? ==> forall fid | SavedIn(log, state.session.id, fid) :: fid in state.session.received
  }

  /** Only a completed upload adds a save, and it is that upload's. */
  lemma NewSave(w: World, a: Action, e: Event)
    requires Enabled(w, a) && e in Step(w, a).log && e.Saved? && e !in w.log
    ensures a.Finish? && e.ticket == w.uploading[a.req].ticket
  {
    hide FreshNames, Target, Contents, ValidUpload, AfterReceived;
  }

  /** A save belongs to a session whose id was issued before. */
  lemma SavedUnderIssued(w: World, sid: string, fid: string)
    requires Inv(w) && SavedIn(w.log, sid, fid)
    ensures sid in w.issued
  {
    hide SessionOk, FilesOk, RequestsOk;
    var e :| e in w.log && e.Saved? && e.ticket.sessionId == sid && e.ticket.fileId == fid;
    var m :| 0 <= m < |w.log| && w.log[m] == e;
    SavesAreAuthorized(w.log, m);
    var h: nat, i: nat, j: nat, l: nat :| Chain(w.log, m, w.log[m].ticket, h, i, j, l);
    assert Issues(w.log[j], e.ticket) && w.log[j] in w.log;
  }

  /** A file of session `sid` that was saved is the one just completed, or was saved before. */
  lemma SavedBefore(w: World, a: Action, sid: string, fid: string)
    requires Enabled(w, a) && SavedIn(Step(w, a).log, sid, fid)
    ensures SavedIn(w.log, sid, fid)
            || (a.Finish? && w.uploading[a.req].ticket.sessionId == sid && w.uploading[a.req].ticket.fileId == fid)
  {
    hide Step, Enabled;
    var e :| e in Step(w, a).log && e.Saved? && e.ticket.sessionId == sid && e.ticket.fileId == fid;
    if e !in w.log {
      NewSave(w, a, e);
    }
  }

  lemma CountedStep(w: World, a: Action)
    requires Inv(w) && Enabled(w, a) && Counted(w.state, w.log)
    ensures Counted(Step(w, a).state, Step(w, a).log)
  {
    var v := Step(w, a);
    if v.state.Sending? {
      SessionMoves(w, a);
      if a.Open? { OpensFresh(w, a); }
      hide Inv, Step, Enabled;
      forall fid | SavedIn(v.log, v.state.session.id, fid) ensures fid in v.state.session.received {
        SavedBefore(w, a, v.state.session.id, fid);
        if SavedIn(w.log, v.state.session.id, fid) {
          SavedUnderIssued(w, v.state.session.id, fid);
        } else {
          FinishCounts(w, a);
        }
      }
    }
  }

  lemma OpensFresh(w: World, a: Action)
    requires Enabled(w, a) && a.Open?
    ensures Step(w, a).state.Sending? && Step(w, a).state.session.id !in w.issued
  {
  }

  lemma FinishCounts(w: World, a: Action)
    requires Enabled(w, a) && a.Finish? && Step(w, a).state.Sending?
    ensures w.uploading[a.req].ticket.fileId in Step(w, a).state.session.received
  {
  }

  /** In every run, late completions included, a save of the live session is counted in it. */
  lemma {:induction false} SavesAreCounted(trace: seq<World>, acts: seq<Action>, k: nat)
    requires Run(trace, acts) && k <= |acts|
    ensures Counted(trace[k].state, trace[k].log)
  {
    hide Inv, Counted;
    if k > 0 {
      SavesAreCounted(trace, acts, k - 1);
      InvAlways(trace, acts, k - 1);
      CountedStep(trace[k - 1], acts[k - 1]);
    } else {
      assert Counted(Idle, trace[0].log) by { NothingLive(trace[0].log); }
    }
  }

  lemma NothingLive(log: seq<Event>)
    ensures Counted(Idle, log)
  {
  }

  /** Every file of the session was saved in it. */
  ghost predicate Complete(s: Session, log: seq<Event>) {
    forall fid | fid in s.files :: SavedIn(log, s.id, fid)
  }

  lemma MissingFile(s: Session)
    requires |s.received| < |s.files|
    ensures exists fid :: fid in s.files && fid !in s.received
  {
    if s.files.Keys <= s.received {
      Collision.CardinalityMonotone(s.files.Keys, s.received);
    }
  }

  /** Up to the first late completion, a completed upload closes a complete session if and only
      if it was an upload of that session. */
  lemma {:induction false} ClosesCompleteExactly(trace: seq<World>, acts: seq<Action>, k: nat)
    requires Run(trace, acts) && k < |acts|
    requires forall i | 0 <= i < k :: Timely(trace[i], acts[i])
    requires acts[k].Finish? && trace[k].state.Sending? && trace[k + 1].state.Idle?
    ensures Complete(trace[k].state.session, trace[k + 1].log) <==> Timely(trace[k], acts[k])
  {
    var w, a, s := trace[k], acts[k], trace[k].state.session;
    if Timely(w, a) {
      forall fid | fid in s.files ensures SavedIn(trace[k + 1].log, s.id, fid) {
        ClosedSessionIsComplete(trace, acts, k, fid);
      }
    } else {
      SavesAreCounted(trace, acts, k);
      InvAlways(trace, acts, k);
      LateCloses(w, a);
    }
  }

  lemma LateCloses(w: World, a: Action)
    requires Inv(w) && Enabled(w, a) && Counted(w.state, w.log) && !Timely(w, a)
    ensures !Complete(w.state.session, Step(w, a).log)
  {
    var s, v := w.state.session, Step(w, a);
    MissingFile(s);
    hide Inv, Step, Enabled;
    var fid :| fid in s.files && fid !in s.received;
    assert !SavedIn(w.log, s.id, fid);
    if SavedIn(v.log, s.id, fid) {
      SavedBefore(w, a, s.id, fid);
    }
  }

  // ---- runs that show the hypotheses are needed -------------------------------------

  /** Continues a run by one more action. */
  lemma Extend(trace: seq<World>, acts: seq<Action>, a: Action) returns (trace': seq<World>, acts': seq<Action>)
    requires Run(trace, acts) && Enabled(trace[|acts|], a)
    ensures Run(trace', acts') && |trace| + 1 == |trace'| == |acts'| + 1
    ensures trace <= trace' && acts' == acts + [a]
    ensures trace'[|acts'|] == Step(trace[|acts|], a)
  {
    hide Enabled, Step, Boot;
    trace', acts' := trace + [Step(trace[|acts|], a)], acts + [a];
    forall k | 0 <= k < |acts'| ensures Enabled(trace'[k], acts'[k]) && trace'[k + 1] == Step(trace'[k], acts'[k]) {
      if k < |acts| {
        assert Enabled(trace[k], acts[k]) && trace[k + 1] == Step(trace[k], acts[k]);
      }
    }
  }

  const META := FileMeta("a", 1, "")
  const PREPARE := Prepare(PeerInfo("peer", "", "fp", 0), map["f1" := META])
  const UPLOAD := Ticket("s1", "f1", "t1", META, "peer", [7])

  ghost predicate NoSaves(w: World) {
    forall e | e in w.log :: !e.Saved?
  }

  ghost predicate GrantedSession(w: World, sid: string, tok: string) {
    w.state == Sending(Session(sid, "peer", PREPARE.files, map["f1" := tok], {}))
  }

  /** Continues a run by approving request `req` and opening session `sid` with token `tok`. */
  lemma Grant(trace: seq<World>, acts: seq<Action>, req: Req, sid: string, tok: string)
      returns (trace': seq<World>, acts': seq<Action>)
    requires Run(trace, acts) && |trace| == |acts| + 1
    requires var w := trace[|acts|];
             && req in w.asking && w.asking[req] == Asking(PREPARE, false)
             && sid !in w.issued && tok !in w.issued && sid != tok && sid != "" && tok != ""
    ensures Run(trace', acts') && |trace| + 2 == |trace'| == |acts'| + 1
    ensures trace <= trace' && acts <= acts'
    ensures GrantedSession(trace'[|acts'|], sid, tok)
    ensures var w, v := trace[|acts|], trace'[|acts'|];
            && v.asking == w.asking - {req} && v.uploading == w.uploading - {req}
            && v.replies.Keys == w.replies.Keys + {req}
            && v.issued == w.issued + {sid, tok}
    ensures trace'[|acts| + 1].state == trace[|acts|].state
    ensures NoSaves(trace[|acts|]) ==> NoSaves(trace'[|acts'|])
  {
    hide Run;
    var tokens := map["f1" := tok];
    trace', acts' := Extend(trace, acts, Approve(req, ""));
    assert tokens.Keys == PREPARE.files.Keys == {"f1"};
    assert tokens.Values == {tok} by { assert tokens["f1"] == tok; }
    trace', acts' := Extend(trace', acts', Open(req, sid, tokens));
  }

  /** In session s1: an upload starts, the session is cancelled, and another request becomes
      pending while the upload goes on. */
  lemma StartAndCancel(trace: seq<World>, acts: seq<Action>) returns (trace': seq<World>, acts': seq<Action>)
    requires Run(trace, acts) && |trace| == |acts| + 1
    requires var w := trace[|acts|];
             GrantedSession(w, "s1", "t1") && w.asking == map[] && w.uploading == map[] && w.replies.Keys == {0}
    ensures Run(trace', acts') && |trace| + 3 == |trace'| == |acts'| + 1
    ensures trace <= trace' && acts <= acts'
    ensures var w, v := trace[|acts|], trace'[|acts'|];
            && v.state == Pending && v.uploading == map[1 := Upload(UPLOAD, Ready)]
            && v.asking == map[3 := Asking(PREPARE, false)]
            && v.replies.Keys == {0, 2} && v.issued == w.issued
            && (NoSaves(w) ==> NoSaves(v))
  {
    hide Run;
    trace', acts' := Extend(trace, acts, BeginUpload(1, "s1", "f1", "t1", [7]));
    assert trace'[|acts'|].uploading == map[1 := Upload(UPLOAD, Ready)];
    trace', acts' := Extend(trace', acts', Cancel(2, "s1"));
    var w := trace'[|acts'|];
    assert w.uploading == map[1 := Upload(UPLOAD, Ready)] && w.asking == map[];
    trace', acts' := Extend(trace', acts', BeginPrepare(3, PREPARE));
  }

  /** The upload fails and resets the pending request, and a third one becomes pending too. */
  lemma FailAndReset(trace: seq<World>, acts: seq<Action>) returns (trace': seq<World>, acts': seq<Action>)
    requires Run(trace, acts) && |trace| == |acts| + 1
    requires var w := trace[|acts|];
             && w.state == Pending && w.uploading == map[1 := Upload(UPLOAD, Ready)]
             && w.asking == map[3 := Asking(PREPARE, false)] && w.replies.Keys == {0, 2}
    ensures Run(trace', acts') && |trace| + 3 == |trace'| == |acts'| + 1
    ensures trace <= trace' && acts <= acts'
    ensures ResetsPending(trace'[|acts| + 1], acts'[|acts| + 1]) && !OneAsking(trace'[|acts| + 2])
    ensures var w, v := trace[|acts|], trace'[|acts'|];
            && v.state == Pending && v.uploading == map[] && v.issued == w.issued
            && v.asking == map[3 := Asking(PREPARE, false), 4 := Asking(PREPARE, false)]
  {
    hide Run;
    trace', acts' := Extend(trace, acts, CreateFails(1));
    assert trace'[|acts'|].uploading == map[1 := Upload(UPLOAD, Broken)];
    trace', acts' := Extend(trace', acts', Abandon(1));
    var w := trace'[|acts'|];
    assert w.uploading == map[] && w.asking == map[3 := Asking(PREPARE, false)] && w.replies.Keys == {0, 1, 2};
    assert 3 in w.asking && w.state.Idle?;
    assert "f1" in PREPARE.files;
    trace', acts' := Extend(trace', acts', BeginPrepare(4, PREPARE));
  }

  lemma FirstSession() returns (trace: seq<World>, acts: seq<Action>)
    ensures Run(trace, acts) && |acts| == 3 && |trace| == 4
    ensures GrantedSession(trace[3], "s1", "t1")
    ensures trace[3].asking == map[] && trace[3].uploading == map[] && trace[3].replies.Keys == {0}
    ensures trace[3].issued == {"s1", "t1"} && NoSaves(trace[3])
  {
    var w0 := World(Idle, map[], map[], map[], map[], map[], {}, []);
    trace, acts := [w0], [];
    assert Run(trace, acts) && "f1" in PREPARE.files;
    hide Run;
    trace, acts := Extend(trace, acts, BeginPrepare(0, PREPARE));
    assert trace[1].asking == map[0 := Asking(PREPARE, false)];
    hide Step, Enabled;
    trace, acts := Grant(trace, acts, 0, "s1", "t1");
  }

  /** A failed upload whose session was cancelled resets somebody else's pending request; two
      requests are then approved, and the second session takes the place of the first. */
  lemma {:induction false} LateFailureReplacesSession() returns (trace: seq<World>, acts: seq<Action>)
    ensures Run(trace, acts) && |acts| == 13 && |trace| == 14
    ensures ResetsPending(trace[7], acts[7]) && !OneAsking(trace[8])
    ensures GrantedSession(trace[12], "s2", "t2") && GrantedSession(trace[13], "s3", "t3")
  {
    hide Run, OneAsking, ResetsPending, Step, Enabled;
    var t1, a1 := FirstSession();
    var t2, a2 := StartAndCancel(t1, a1);
    var t3, a3 := FailAndReset(t2, a2);
    var t4, a4 := Grant(t3, a3, 3, "s2", "t2");
    trace, acts := Grant(t4, a4, 4, "s3", "t3");
    assert trace[11] == t4[11];
    assert trace[8] == t3[8] && trace[7] == t3[7] && acts[7] == a3[7];
  }

  /** The late upload's body arrives. */
  lemma StoreLate(trace: seq<World>, acts: seq<Action>) returns (trace': seq<World>, acts': seq<Action>, path: string)
    requires Run(trace, acts) && |trace| == |acts| + 1
    requires trace[|acts|].uploading == map[1 := Upload(UPLOAD, Ready)]
    ensures Run(trace', acts') && |trace| + 3 == |trace'| == |acts'| + 1
    ensures trace <= trace' && acts <= acts'
    ensures var w, v := trace[|acts|], trace'[|acts'|];
            v.state == w.state && v.log == w.log && v.uploading == map[1 := Upload(UPLOAD, Stored(path))]
  {
    hide Run, Target;
    path := Target(trace[|acts|], UPLOAD);
    trace', acts' := Extend(trace, acts, Create(1));
    assert trace'[|acts'|].uploading == map[1 := Upload(UPLOAD, Writing(path, 0))];
    trace', acts' := Extend(trace', acts', Chunk(1, 1));
    assert trace'[|acts'|].uploading == map[1 := Upload(UPLOAD, Writing(path, 1))];
    trace', acts' := Extend(trace', acts', EndBody(1));
    assert trace'[|acts'|].uploading == map[1 := Upload(UPLOAD, Stored(path))];
  }

  /** Its completion is counted in the session that is live by then. */
  lemma FinishLate(w: World, path: string)
    requires GrantedSession(w, "s2", "t2") && NoSaves(w) && w.uploading == map[1 := Upload(UPLOAD, Stored(path))]
    ensures Enabled(w, Finish(1)) && !Timely(w, Finish(1))
    ensures DoFinish(w, 1).state.Idle? && !SavedIn(DoFinish(w, 1).log, "s2", "f1")
  {
    assert {} + {"f1"} == PREPARE.files.Keys;
    assert |PREPARE.files| == |PREPARE.files.Keys| == 1;
    assert AfterReceived(w.state, "f1").Idle?;
  }

  lemma StepIsFinish(w: World, req: Req)
    requires Enabled(w, Finish(req))
    ensures Step(w, Finish(req)) == DoFinish(w, req)
  {
  }

  /** Without timeliness a session can be closed by an upload of another one, with none of its
      own files saved. */
  lemma {:induction false} LateCompletionClosesSession() returns (trace: seq<World>, acts: seq<Action>)
    ensures Run(trace, acts) && |acts| == 12 && |trace| == 13
    ensures acts[11] == Finish(1) && !Timely(trace[11], acts[11])
    ensures GrantedSession(trace[11], "s2", "t2") && trace[12].state.Idle?
    ensures !SavedIn(trace[12].log, "s2", "f1")
  {
    hide Run, Step, Enabled, Timely;
    var t1, a1 := FirstSession();
    var t2, a2 := StartAndCancel(t1, a1);
    var t3, a3 := Grant(t2, a2, 3, "s2", "t2");
    assert t3[8].uploading == map[1 := Upload(UPLOAD, Ready)];
    var t4, a4, path := StoreLate(t3, a3);
    FinishLate(t4[11], path);
    StepIsFinish(t4[11], 1);
    trace, acts := Extend(t4, a4, Finish(1));
  }
}
