/** The two receivers side by side: exactly when one step keeps them in agreement, and the
    runs on which they agree throughout. */
module Simulation {
  import opened Protocol
  import opened Receiving
  import opened ReceiverInvariant
  import opened GoReceiving
  import opened OneSession
  import opened Replies
  import Collision
  import Trust

  /** The trust lists name the same devices under the same aliases. */
  predicate SameTrust(a: Trust.Devices, b: Trust.Devices) {
    a.Keys == b.Keys && forall fp | fp in a :: a[fp].alias == b[fp].alias
  }

  /** Same phase, same session; what remains is what was not received. */
  predicate SameSession(state: State, g: GoWorld) {
    match state
    case Idle => g.state.StateIdle?
    case Pending => g.state.StatePending?
    case Sending(s) =>
      && g.state.StateSending? && g.sessionId == s.id && g.tokens == s.tokens && g.files == s.files
      && g.fromAlias == s.fromAlias && g.remaining == s.files.Keys - s.received
  }

  /** The same requests are answered, and alike: only a cancel that names no live session is
      answered 404 by one and 200 by the other. */
  predicate SameReplies(a: map<Req, Reply>, b: map<Req, Reply>) {
    a.Keys == b.Keys && forall r | r in a :: SameReply(a[r], b[r])
  }

  predicate SameReply(a: Reply, b: Reply) {
    a == b || (a == Status(404) && b == Status(200))
  }

  /** Everything but the session. */
  predicate SameRest(w: World, g: GoWorld) {
    && SameTrust(w.trust, g.trust)
    && w.folder == g.folder
    && w.asking == g.asking
    && w.uploading == g.uploading
    && SameReplies(w.replies, g.replies)
    && w.issued == g.issued
  }

  predicate Related(w: World, g: GoWorld) {
    SameSession(w.state, g) && SameRest(w, g)
  }

  /** A repeated upload of a file that the session already has. */
  predicate Repeats(w: World, sid: string, fid: string, token: string) {
    && w.state.Sending? && w.state.session.id == sid && token != ""
    && fid in w.state.session.tokens && w.state.session.tokens[fid] == token
    && fid in w.state.session.received
  }

  /** Where the two implementations do the same; a condition on the states before the step. */
  ghost predicate Agrees(w: World, g: GoWorld, a: Action)
    requires Enabled(w, a)
  {
    match a
    case BeginPrepare(_, prepare) => prepare.files != map[]
    case BeginUpload(_, sid, fid, token, _) => !Repeats(w, sid, fid, token)
    case Create(req) => Collision.StoredAlike(w.folder.Keys, w.uploading[req].ticket.meta.name)
    case EndBody(req) => |w.uploading[req].ticket.body| == w.uploading[req].ticket.meta.size
    case Finish(req) =>
      CompletesAlike(w.state, g, w.uploading[req].ticket.fileId)
    case _ => true
  }

  /** A completed upload of file `fid` finds: no session; or a pending request, with files of an
      earlier session still to come in the second one's set; or a session all of whose received
      files are its own, or which lacks more than this one. */
  predicate CompletesAlike(state: State, g: GoWorld, fid: string) {
    match state
    case Idle => true
    case Pending => g.remaining - {fid} != {}
    case Sending(s) => s.received + {fid} <= s.files.Keys || |s.received + {fid}| < |s.files|
  }

  lemma SameGuards(w: World, g: GoWorld, a: Action)
    requires Related(w, g)
    ensures GoEnabled(g, a) <==> Enabled(w, a)
  {
    assert forall r :: r in w.replies <==> r in w.replies.Keys;
    assert forall r :: r in g.replies <==> r in g.replies.Keys;
  }

  lemma AnswersRelate(w: World, g: GoWorld, req: Req, r1: Reply, r2: Reply)
    requires Related(w, g) && SameReply(r1, r2)
    ensures Related(Answer(w, req, r1), GoAnswer(g, req, r2))
  {
    ReplyAdded(w.replies, g.replies, req, r1, r2);
    hide SameReplies, SameTrust;
  }

  lemma ReplyAdded(a: map<Req, Reply>, b: map<Req, Reply>, req: Req, r1: Reply, r2: Reply)
    requires SameReplies(a, b) && SameReply(r1, r2)
    ensures SameReplies(a[req := r1], b[req := r2])
  {
    assert forall r :: r in a <==> r in a.Keys;
    assert forall r :: r in b <==> r in b.Keys;
  }

  lemma PrepareRelates(w: World, g: GoWorld, req: Req, prepare: Prepare)
    requires Related(w, g) && Enabled(w, BeginPrepare(req, prepare))
    ensures Related(DoBeginPrepare(w, req, prepare), GoBeginPrepare(g, req, prepare))
            <==> Agrees(w, g, BeginPrepare(req, prepare))
  {
    if prepare.files == map[] {
      EmptyRequestDiffers(w, g, req, prepare);
    } else if !w.state.Idle? {
      hide SameSession, SameRest;
      AnswersRelate(w, g, req, Status(409), Status(409));
    } else {
      hide SameTrust, SameReplies;
    }
  }

  lemma EmptyRequestDiffers(w: World, g: GoWorld, req: Req, prepare: Prepare)
    requires Fresh(w, req) && Fresh(w, req) == GoFresh(g, req) && prepare.files == map[]
    ensures !Related(DoBeginPrepare(w, req, prepare), GoBeginPrepare(g, req, prepare))
  {
    var v, h := DoBeginPrepare(w, req, prepare), GoBeginPrepare(g, req, prepare);
    assert req in v.replies.Keys && v.replies[req] == Status(400);
    assert req in h.replies.Keys ==> h.replies[req] == Status(409);
  }

  lemma OpenRelates(w: World, g: GoWorld, req: Req, sid: string, tokens: map<string, string>)
    requires Related(w, g) && Enabled(w, Open(req, sid, tokens))
    ensures Related(DoOpen(w, req, sid, tokens), GoOpen(g, req, sid, tokens))
  {
    AnswersRelate(w, g, req, Granted(sid, tokens), Granted(sid, tokens));
    assert w.asking[req].prepare.files.Keys - {} == w.asking[req].prepare.files.Keys;
  }

  lemma UploadRelates(w: World, g: GoWorld, req: Req, sid: string, fid: string, token: string, body: Bytes)
    requires Related(w, g) && SessionOk(w.state, w.log) && Fresh(w, req)
    ensures Related(DoBeginUpload(w, req, sid, fid, token, body), GoBeginUpload(g, req, sid, fid, token, body))
            <==> !Repeats(w, sid, fid, token)
  {
    AnswersRelate(w, g, req, Status(404), Status(404));
    if Repeats(w, sid, fid, token) {
      assert req in GoBeginUpload(g, req, sid, fid, token, body).uploading;
      assert req !in DoBeginUpload(w, req, sid, fid, token, body).uploading;
    }
  }

  lemma PhaseRelates(w: World, g: GoWorld, req: Req, folder: map<string, Bytes>, phase: Phase)
    requires Related(w, g) && req in w.uploading
    ensures Related(SetPhase(w.(folder := folder), req, phase), GoSetPhase(g.(folder := folder), req, phase))
  {
    hide SameTrust;
  }

  lemma PhasesDiffer(w: World, g: GoWorld, req: Req)
    requires req in w.uploading && req in g.uploading && w.uploading[req].phase != g.uploading[req].phase
    ensures !Related(w, g)
  {
  }

  lemma CreateRelates(w: World, g: GoWorld, req: Req)
    requires Related(w, g) && Enabled(w, Create(req))
    ensures Related(DoCreate(w, req), GoCreate(g, req)) <==> Agrees(w, g, Create(req))
  {
    assert w.uploading == g.uploading && w.folder == g.folder;
    var p, q := Target(w, w.uploading[req].ticket), GoTarget(g.folder, w.uploading[req].ticket);
    PhaseRelates(w, g, req, w.folder[p := []], Writing(p, 0));
    Collision.StoredAlikeExactly(w.folder.Keys, w.uploading[req].ticket.meta.name);
    TargetsByName(w, g, req);
    hide Related, Target, GoTarget, Collision.StoredAlike;
    if p != q {
      PhasesDiffer(DoCreate(w, req), GoCreate(g, req), req);
    }
  }

  lemma TargetsByName(w: World, g: GoWorld, req: Req)
    requires req in w.uploading && w.folder == g.folder
    ensures var name := w.uploading[req].ticket.meta.name;
            && Target(w, w.uploading[req].ticket) == Collision.Resolve(w.folder.Keys, Collision.FileName(name))
            && GoTarget(g.folder, w.uploading[req].ticket) == Collision.GoResolve(w.folder.Keys, Collision.GoBase(name))
  {
  }

  lemma EndBodyRelates(w: World, g: GoWorld, req: Req)
    requires Related(w, g) && Enabled(w, EndBody(req))
    ensures Related(DoEndBody(w, req), GoStep(g, EndBody(req))) <==> Agrees(w, g, EndBody(req))
  {
    var path := w.uploading[req].phase.path;
    assert GoStep(g, EndBody(req)).uploading[req].phase == Stored(path);
    if w.uploading[req].phase.written != w.uploading[req].ticket.meta.size {
      assert DoEndBody(w, req).uploading[req].phase == Broken;
    }
  }

  /** The session after a completed upload. */
  lemma {:induction false} FinishSession(state: State, g: GoWorld, fid: string)
    requires SameSession(state, g)
    requires state.Sending? ==> |state.session.received| < |state.session.files|
    ensures var rest := g.(remaining := g.remaining - {fid});
            SameSession(AfterReceived(state, fid), if rest.remaining == {} then SetIdle(rest) else rest)
            <==> CompletesAlike(state, g, fid)
  {
    if state.Sending? {
      var s := state.session;
      assert g.remaining - {fid} == s.files.Keys - (s.received + {fid});
      assert g.remaining - {fid} == {} <==> s.files.Keys <= s.received + {fid};
      ClosingAgrees(s, fid);
    }
  }

  /** Counting to the number of files and finding none missing come to the same unless the count
      is reached with a file that is not the session's. */
  lemma {:induction false} ClosingAgrees(s: Session, fid: string)
    requires |s.received| < |s.files|
    ensures (|s.received + {fid}| == |s.files| <==> s.files.Keys <= s.received + {fid})
            <==> s.received + {fid} <= s.files.Keys || |s.received + {fid}| < |s.files|
  {
    var received := s.received + {fid};
    assert |s.files| == |s.files.Keys|;
    if received <= s.files.Keys && |received| == |s.files.Keys| {
      SubsetOfSameSize(received, s.files.Keys);
    }
    if s.files.Keys <= received {
      Collision.CardinalityMonotone(s.files.Keys, received);
      if |received| == |s.files.Keys| {
        SubsetOfSameSize(s.files.Keys, received);
      }
    }
  }

  lemma FinishLeaves(w: World, req: Req)
    requires InPhase(w, req, IsStored)
    ensures var v := DoFinish(w, req);
            && v.trust == w.trust && v.folder == w.folder && v.issued == w.issued
            && v.asking == w.asking - {req} && v.uploading == w.uploading - {req} && v.replies == w.replies[req := Status(200)]
            && v.state == AfterReceived(w.state, w.uploading[req].ticket.fileId)
  {
    hide AfterReceived;
  }

  predicate GoAnswered(g: GoWorld, h: GoWorld, req: Req, reply: Reply) {
    && h.trust == g.trust && h.folder == g.folder && h.issued == g.issued
    && h.asking == g.asking - {req} && h.uploading == g.uploading - {req} && h.replies == g.replies[req := reply]
  }

  lemma GoAnswerLeaves(g: GoWorld, req: Req, reply: Reply)
    ensures GoAnswered(g, GoAnswer(g, req, reply), req, reply)
  {
  }

  lemma GoFinishLeaves(g: GoWorld, req: Req)
    requires GoInPhase(g, req, IsStored)
    ensures GoAnswered(g, GoFinish(g, req), req, Status(200))
  {
    hide GoAnswer;
    var h := g.(remaining := g.remaining - {g.uploading[req].ticket.fileId});
    GoAnswerLeaves(if h.remaining == {} then SetIdle(h) else h, req, Status(200));
  }

  lemma FinishRest(w: World, g: GoWorld, req: Req)
    requires SameRest(w, g) && InPhase(w, req, IsStored) && GoInPhase(g, req, IsStored)
    ensures SameRest(DoFinish(w, req), GoFinish(g, req))
  {
    hide SameTrust, SameReplies, DoFinish, GoFinish, InPhase, GoInPhase;
    FinishLeaves(w, req);
    GoFinishLeaves(g, req);
    ReplyAdded(w.replies, g.replies, req, Status(200), Status(200));
  }

  lemma GoFinishSession(g: GoWorld, req: Req, state: State)
    requires GoInPhase(g, req, IsStored)
    ensures var h := g.(remaining := g.remaining - {g.uploading[req].ticket.fileId});
            SameSession(state, GoFinish(g, req)) <==> SameSession(state, if h.remaining == {} then SetIdle(h) else h)
  {
  }

  lemma FinishRelates(w: World, g: GoWorld, req: Req)
    requires Related(w, g) && SessionOk(w.state, w.log) && Enabled(w, Finish(req))
    ensures GoInPhase(g, req, IsStored)
    ensures Related(DoFinish(w, req), GoFinish(g, req)) <==> Agrees(w, g, Finish(req))
  {
    assert GoInPhase(g, req, IsStored);
    hide SameSession, SameTrust, AfterReceived, SameRest, DoFinish, GoFinish, SetIdle, CompletesAlike;
    var fid := w.uploading[req].ticket.fileId;
    FinishLeaves(w, req);
    FinishSession(w.state, g, fid);
    FinishRest(w, g, req);
    GoFinishSession(g, req, AfterReceived(w.state, fid));
  }

  predicate OfUpload(a: Action) {
    a.Create? || a.CreateFails? || a.Chunk? || a.BodyFails? || a.EndBody? || a.Finish? || a.Abandon?
  }

  lemma UploadStepRelates(w: World, g: GoWorld, a: Action)
    requires Related(w, g) && SessionOk(w.state, w.log) && Enabled(w, a) && GoEnabled(g, a) && OfUpload(a)
    ensures Related(Step(w, a), GoStep(g, a)) <==> Agrees(w, g, a)
  {
    hide SameSession, FreshNames, GoFreshNames, ValidUpload, GoValid, Target, GoTarget, AfterReceived, Contents, Answer, GoAnswer;
    match a
    case Create(req) => CreateRelates(w, g, req);
    case EndBody(req) => EndBodyRelates(w, g, req);
    case Finish(req) => FinishRelates(w, g, req);
    case Abandon(req) => IdleAnswersRelate(w, g, req, 500);
    case _ => ByteStepRelates(w, g, a);
  }

  lemma ByteStepRelates(w: World, g: GoWorld, a: Action)
    requires Related(w, g) && Enabled(w, a) && GoEnabled(g, a) && (a.CreateFails? || a.Chunk? || a.BodyFails?)
    ensures Related(Step(w, a), GoStep(g, a))
  {
    hide Contents, SameTrust;
  }

  lemma RequestStepRelates(w: World, g: GoWorld, a: Action)
    requires Related(w, g) && SessionOk(w.state, w.log) && Enabled(w, a) && GoEnabled(g, a) && !OfUpload(a)
    ensures Related(Step(w, a), GoStep(g, a)) <==> Agrees(w, g, a)
  {
    hide Related, SessionOk, FreshNames, GoFreshNames, ValidUpload, GoValid, Answer, GoAnswer, SetIdle;
    match a
    case BeginPrepare(req, prepare) => PrepareRelates(w, g, req, prepare);
    case TimeOut(req) => IdleAnswersRelate(w, g, req, 408);
    case Reject(req) => IdleAnswersRelate(w, g, req, 403);
    case Approve(req, now) => ApproveRelates(w, g, req, now);
    case Open(req, sid, tokens) => OpenRelates(w, g, req, sid, tokens);
    case BeginUpload(req, sid, fid, token, body) => UploadRelates(w, g, req, sid, fid, token, body);
    case Cancel(req, sid) => CancelRelates(w, g, req, sid);
  }

  /** From related states, one step leads to related states exactly when `Agrees` holds. */
  lemma {:induction false} StepRelates(w: World, g: GoWorld, a: Action)
    requires Related(w, g) && SessionOk(w.state, w.log) && Enabled(w, a)
    ensures GoEnabled(g, a)
    ensures Related(Step(w, a), GoStep(g, a)) <==> Agrees(w, g, a)
  {
    SameGuards(w, g, a);
    hide Related, Enabled, GoEnabled, Step, GoStep, Agrees, SessionOk;
    if OfUpload(a) {
      UploadStepRelates(w, g, a);
    } else {
      RequestStepRelates(w, g, a);
    }
  }

  lemma ApproveRelates(w: World, g: GoWorld, req: Req, now: string)
    requires Related(w, g) && Enabled(w, Approve(req, now))
    ensures Related(DoApprove(w, req, now), GoApprove(g, req, now))
  {
  }

  /** An approval enters a new device under its alias and this date, and leaves a known one. */
  lemma {:induction false} GoApprovalRecorded(g: GoWorld, a: Action)
    requires GoEnabled(g, a)
    ensures !a.Approve? ==> GoStep(g, a).trust == g.trust
    ensures a.Approve? ==>
              var info := g.asking[a.req].prepare.info;
              GoStep(g, a).trust ==
                if info.fingerprint in g.trust then g.trust
                else g.trust[info.fingerprint := Trust.TrustedDevice(info.alias, a.now)]
  {
    hide GoFreshNames, GoTarget, Contents, GoValid;
    match a
    case Approve(_, _) =>
    case Finish(req) => GoFinishLeaves(g, req);
    case Open(req, sid, tokens) => GoOpenTrust(g, req, sid, tokens);
    case _ =>
  }

  lemma GoOpenTrust(g: GoWorld, req: Req, sid: string, tokens: map<string, string>)
    requires req in g.asking
    ensures GoOpen(g, req, sid, tokens).trust == g.trust
  {
  }

  lemma IdleAnswersRelate(w: World, g: GoWorld, req: Req, code: nat)
    requires Related(w, g)
    ensures Related(Answer(w.(state := Idle), req, Status(code)), GoAnswer(SetIdle(g), req, Status(code)))
  {
    AnswersRelate(w.(state := Idle), SetIdle(g), req, Status(code), Status(code));
  }

  lemma CancelRelates(w: World, g: GoWorld, req: Req, sid: string)
    requires Related(w, g) && Fresh(w, req)
    ensures Related(DoCancel(w, req, sid), GoCancel(g, req, sid))
  {
    if w.state.Sending? && w.state.session.id == sid {
      IdleAnswersRelate(w, g, req, 200);
    } else {
      AnswersRelate(w, g, req, Status(404), Status(200));
    }
  }

  // ---- whole runs -------------------------------------------------------------------

  /** The conditions of an ordinary transfer, on one action: a prepare request has files, no
      file is sent again after it was received, both read the same path out of a file's name,
      bodies have the announced length, and uploads complete into their own live session. */
  ghost predicate Ordinary(w: World, a: Action)
    requires Enabled(w, a)
  {
    match a
    case BeginPrepare(_, prepare) => prepare.files != map[]
    case BeginUpload(_, sid, fid, token, _) => !Repeats(w, sid, fid, token)
    case Create(req) => Collision.StoredAlike(w.folder.Keys, w.uploading[req].ticket.meta.name)
    case EndBody(req) => |w.uploading[req].ticket.body| == w.uploading[req].ticket.meta.size
    case Finish(req) => w.state.Sending? && w.state.session.id == w.uploading[req].ticket.sessionId
    case _ => true
  }

  lemma FinishAgrees(w: World, g: GoWorld, req: Req)
    requires Inv(w) && ReceivedOk(w.state, w.log) && Enabled(w, Finish(req)) && Ordinary(w, Finish(req))
    ensures Agrees(w, g, Finish(req))
  {
    hide Inv, SavedIn;
    TicketOfSession(w, req);
  }

  lemma {:induction false} OrdinaryAgrees(w: World, g: GoWorld, a: Action)
    requires Inv(w) && ReceivedOk(w.state, w.log) && Enabled(w, a) && Ordinary(w, a)
    ensures Agrees(w, g, a)
  {
    hide Inv, ReceivedOk;
    if a.Finish? {
      FinishAgrees(w, g, a.req);
    }
  }

  /** A run of the second receiver on the same actions. */
  ghost predicate GoRun(trace: seq<GoWorld>, acts: seq<Action>) {
    && |trace| == |acts| + 1
    && GoBoot(trace[0])
    && forall k | 0 <= k < |acts| :: GoEnabled(trace[k], acts[k]) && trace[k + 1] == GoStep(trace[k], acts[k])
  }

  /** Started alike and given the same ordinary actions, the two receivers agree in every
      state: same phase, session, files on disk, handlers and trusted devices, with the files
      that remain in one being those not received in the other. */
  lemma {:induction false} ReceiversAgree(trace: seq<World>, acts: seq<Action>, goTrace: seq<GoWorld>, k: nat)
    requires Run(trace, acts) && GoRun(goTrace, acts) && k <= |acts|
    requires trace[0].folder == goTrace[0].folder && SameTrust(trace[0].trust, goTrace[0].trust)
    requires forall i | 0 <= i < |acts| :: Ordinary(trace[i], acts[i])
    ensures Related(trace[k], goTrace[k])
    ensures ReceivedOk(trace[k].state, trace[k].log)
  {
    if k > 0 {
      var w, g, a := trace[k - 1], goTrace[k - 1], acts[k - 1];
      ReceiversAgree(trace, acts, goTrace, k - 1);
      InvAlways(trace, acts, k - 1);
      assert Ordinary(w, a);
      OrdinaryStep(w, g, a);
    }
  }

  lemma GoAnswerElsewhere(g: GoWorld, h: GoWorld, req: Req, reply: Reply, r: Req)
    requires h.replies == g.replies && r in g.replies && r != req
    ensures r in GoAnswer(h, req, reply).replies && GoAnswer(h, req, reply).replies[r] == g.replies[r]
  {
  }

  lemma GoAnsweredStays(g: GoWorld, a: Action, r: Req)
    requires GoEnabled(g, a) && r != a.req && r in g.replies
    ensures r in GoStep(g, a).replies && GoStep(g, a).replies[r] == g.replies[r]
  {
    hide GoFreshNames, GoTarget, Contents, GoValid, GoAnswer;
    match a
    case BeginPrepare(req, _) => GoAnswerElsewhere(g, g, req, Status(409), r);
    case TimeOut(req) => GoAnswerElsewhere(g, SetIdle(g), req, Status(408), r);
    case Reject(req) => GoAnswerElsewhere(g, SetIdle(g), req, Status(403), r);
    case Approve(_, _) =>
    case Open(_, _, _) => GoOpenAnswers(g, a, r);
    case BeginUpload(req, _, _, _, _) => GoAnswerElsewhere(g, g, req, Status(404), r);
    case Finish(req) => GoFinishLeaves(g, req);
    case Abandon(req) => GoAnswerElsewhere(g, SetIdle(g), req, Status(500), r);
    case Cancel(req, _) =>
      GoAnswerElsewhere(g, SetIdle(g), req, Status(200), r);
      GoAnswerElsewhere(g, g, req, Status(200), r);
    case _ =>
  }

  lemma GoOpenAnswers(g: GoWorld, a: Action, r: Req)
    requires GoEnabled(g, a) && a.Open? && r != a.req && r in g.replies
    ensures r in GoStep(g, a).replies && GoStep(g, a).replies[r] == g.replies[r]
  {
    hide GoFreshNames;
  }

  lemma NotFound(w: World, a: Action)
    requires Enabled(w, a) && a.req !in w.replies
    requires a.req in Step(w, a).replies && Step(w, a).replies[a.req] == Status(404)
    ensures a.BeginUpload? || a.Cancel?
  {
    hide FreshNames, Target, Contents, AfterReceived, ValidUpload;
  }

  lemma GoUploadNotFound(g: GoWorld, a: Action)
    requires GoEnabled(g, a) && a.BeginUpload? && a.req in GoStep(g, a).replies
    ensures GoStep(g, a).replies[a.req] == Status(404)
  {
    hide GoValid, GoSetPhase;
    assert a.req !in g.replies;
  }

  /** A reply after a step was there before, or is the same in both, or answers a cancel. */
  lemma AnswersStep(w: World, g: GoWorld, a: Action, r: Req)
    requires Apart(w.asking, w.uploading, w.replies) && Enabled(w, a) && GoEnabled(g, a)
    requires Related(w, g) && Related(Step(w, a), GoStep(g, a)) && r in Step(w, a).replies
    ensures r in GoStep(g, a).replies
    ensures || (r in w.replies && r in g.replies
                && Step(w, a).replies[r] == w.replies[r] && GoStep(g, a).replies[r] == g.replies[r])
            || Step(w, a).replies[r] == GoStep(g, a).replies[r]
            || (r == a.req && a.Cancel? && !IsLive(w, a.sessionId))
  {
    RelatedReplies(Step(w, a), GoStep(g, a), r);
    hide Related, Step, GoStep, Enabled, GoEnabled, IsLive;
    if r in w.replies {
      RelatedReplies(w, g, r);
      UnansweredYet(w, a);
      hide Apart;
      Elsewhere(w, a, r);
      GoAnsweredStays(g, a, r);
    } else {
      hide Apart;
      if r != a.req { Elsewhere(w, a, r); }
      if Step(w, a).replies[r] == Status(404) { OwnAnswers(w, g, a); }
    }
  }

  /** A request that is answered 404 is an upload, answered 404 by the other too, or a cancel that
      names no live session. */
  lemma OwnAnswers(w: World, g: GoWorld, a: Action)
    requires Enabled(w, a) && GoEnabled(g, a) && a.req !in w.replies && a.req in Step(w, a).replies
    requires Step(w, a).replies[a.req] == Status(404) && a.req in GoStep(g, a).replies
    ensures GoStep(g, a).replies[a.req] == Status(404) || (a.Cancel? && !IsLive(w, a.sessionId))
  {
    hide Step, GoStep, Enabled, GoEnabled, IsLive;
    NotFound(w, a);
    if a.BeginUpload? { GoUploadNotFound(g, a); } else { CancelStep(w, a); }
  }

  /** Every request is answered alike by both, but for a cancel that names no live session. */
  lemma {:induction false} AnswersAgree(trace: seq<World>, acts: seq<Action>, goTrace: seq<GoWorld>, k: nat, r: Req)
    requires Run(trace, acts) && GoRun(goTrace, acts) && k <= |acts|
    requires trace[0].folder == goTrace[0].folder && SameTrust(trace[0].trust, goTrace[0].trust)
    requires forall i | 0 <= i < |acts| :: Ordinary(trace[i], acts[i])
    requires r in trace[k].replies
    ensures r in goTrace[k].replies
    ensures || trace[k].replies[r] == goTrace[k].replies[r]
            || (trace[k].replies[r] == Status(404) && goTrace[k].replies[r] == Status(200)
                && exists i :: 0 <= i < k && acts[i].Cancel? && acts[i].req == r && !IsLive(trace[i], acts[i].sessionId))
  {
    hide Step, GoStep, Ordinary, Enabled, GoEnabled, Related, SameReply, ReceivedOk;
    ReceiversAgree(trace, acts, goTrace, k);
    RelatedReplies(trace[k], goTrace[k], r);
    if k > 0 {
      ReceiversAgree(trace, acts, goTrace, k - 1);
      InvAlways(trace, acts, k - 1);
      assert Apart(trace[k - 1].asking, trace[k - 1].uploading, trace[k - 1].replies);
      hide Inv, Apart;
      AnswersStep(trace[k - 1], goTrace[k - 1], acts[k - 1], r);
      if r in trace[k - 1].replies {
        AnswersAgree(trace, acts, goTrace, k - 1, r);
      }
    }
  }

  lemma RelatedReplies(w: World, g: GoWorld, r: Req)
    requires Related(w, g) && r in w.replies
    ensures r in g.replies
    ensures w.replies[r] == g.replies[r] || (w.replies[r] == Status(404) && g.replies[r] == Status(200))
  {
    assert r in g.replies.Keys;
  }

  lemma InvHasSession(w: World)
    requires Inv(w)
    ensures SessionOk(w.state, w.log)
  {
  }

  lemma OrdinaryIsTimely(w: World, a: Action)
    requires Enabled(w, a) && Ordinary(w, a)
    ensures Timely(w, a)
  {
  }

  lemma OrdinaryStep(w: World, g: GoWorld, a: Action)
    requires Inv(w) && ReceivedOk(w.state, w.log) && Enabled(w, a) && Ordinary(w, a) && Related(w, g)
    ensures GoEnabled(g, a) && Related(Step(w, a), GoStep(g, a))
    ensures ReceivedOk(Step(w, a).state, Step(w, a).log)
  {
    hide Inv, ReceivedOk, Related, Agrees, Step, GoStep, Ordinary, Timely, Enabled, GoEnabled, SessionOk;
    InvHasSession(w);
    OrdinaryIsTimely(w, a);
    OrdinaryAgrees(w, g, a);
    StepRelates(w, g, a);
    ReceivedStep(w, a);
  }
}
