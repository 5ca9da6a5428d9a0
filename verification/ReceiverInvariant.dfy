/** What every action of every handler keeps, under any interleaving. */
module ReceiverInvariant {
  import opened Protocol
  import opened Receiving
  import Collision

  // ---- the history is well founded --------------------------------------------------

  /** `e` opened the session, and issued the token, that ticket `t` was accepted on. */
  predicate Issues(e: Event, t: Ticket) {
    && e.Opened? && e.sessionId == t.sessionId
    && t.fileId in e.prepare.files && e.prepare.files[t.fileId] == t.meta
    && t.fileId in e.tokens && e.tokens[t.fileId] == t.token
    && e.prepare.info.alias == t.from
  }

  /** `path` is the announced name's file component, possibly numbered. */
  ghost predicate NamedAfter(path: string, name: string) {
    var base := Collision.FileName(name);
    exists k: nat :: path == Collision.Candidate(Collision.Stem(base), Collision.Ext(base), k)
  }

  /** What must have happened before `e`. */
  ghost predicate Justified(before: seq<Event>, e: Event) {
    match e
    case Asked(_, prepare) => prepare.files != map[]
    case Approved(req, prepare) => Asked(req, prepare) in before
    case Opened(req, prepare, _, tokens) => Approved(req, prepare) in before && tokens.Keys == prepare.files.Keys
    case Accepted(_, t) => exists o :: o in before && Issues(o, t)
    case Saved(req, t, path) =>
      Accepted(req, t) in before && |t.body| == t.meta.size && NamedAfter(path, t.meta.name)
  }

  ghost predicate Grounded(log: seq<Event>) {
    forall k | 0 <= k < |log| :: Justified(log[..k], log[k])
  }

  lemma GroundedAppend(log: seq<Event>, e: Event)
    requires Grounded(log) && Justified(log, e)
    ensures Grounded(log + [e])
  {
    var all := log + [e];
    forall k | 0 <= k < |all| ensures Justified(all[..k], all[k]) {
      if k < |log| {
        assert all[..k] == log[..k] && all[k] == log[k];
      } else {
        assert all[..k] == log;
      }
    }
  }

  // ---- sessions ---------------------------------------------------------------------

  predicate Opens(e: Event, s: Session) {
    && e.Opened? && e.sessionId == s.id && e.tokens == s.tokens
    && e.prepare.files == s.files && e.prepare.info.alias == s.fromAlias
  }

  /** A live session has a token for each of its files, is not finished, and was opened. */
  ghost predicate SessionOk(state: State, log: seq<Event>) {
    state.Sending? ==>
      var s := state.session;
      && s.tokens.Keys == s.files.Keys
      && |s.received| < |s.files|
      && exists e :: e in log && Opens(e, s)
  }

  /** Session ids never repeat. */
  ghost predicate IdsOk(issued: set<string>, log: seq<Event>) {
    && (forall e | e in log && e.Opened? :: e.sessionId in issued)
    && (forall e, f | e in log && f in log && e.Opened? && f.Opened? && e.sessionId == f.sessionId :: e == f)
  }

  lemma SessionGrows(state: State, log: seq<Event>, e: Event)
    requires SessionOk(state, log)
    ensures SessionOk(state, log + [e])
  {
    if state.Sending? {
      var o :| o in log && Opens(o, state.session);
      assert o in log + [e];
    }
  }

  /** Inserting a received file cannot reach the count without ending the session. */
  lemma ReceivedKeepsSession(state: State, log: seq<Event>, fid: string)
    requires SessionOk(state, log)
    ensures SessionOk(AfterReceived(state, fid), log)
  {
    if state.Sending? {
      var o :| o in log && Opens(o, state.session);
      var received := state.session.received + {fid};
      assert Opens(o, state.session.(received := received));
    }
  }

  lemma OpenSession(w: World, req: Req, sid: string, tokens: map<string, string>)
    requires Enabled(w, Open(req, sid, tokens)) && w.asking[req].prepare.files != map[]
    ensures SessionOk(DoOpen(w, req, sid, tokens).state, DoOpen(w, req, sid, tokens).log)
  {
    var prepare := w.asking[req].prepare;
    var s := Session(sid, prepare.info.alias, prepare.files, tokens, {});
    var e := Opened(req, prepare, sid, tokens);
    assert e in w.log + [e] && Opens(e, s);
    assert |s.files| > 0;
    assert SessionOk(Sending(s), w.log + [e]);
  }

  lemma OpenIds(w: World, req: Req, sid: string, tokens: map<string, string>)
    requires IdsOk(w.issued, w.log) && Enabled(w, Open(req, sid, tokens))
    ensures IdsOk(DoOpen(w, req, sid, tokens).issued, DoOpen(w, req, sid, tokens).log)
  {
  }

  // ---- files ------------------------------------------------------------------------

  predicate HasPath(p: Phase) {
    p.Writing? || p.Stored?
  }

  /** The file an upload is writing, or has written, holds exactly what it received. */
  ghost predicate ContentOk(folder: map<string, Bytes>, u: Upload) {
    && (u.phase.Writing? ==>
          u.phase.written <= |u.ticket.body| && u.phase.path in folder &&
          folder[u.phase.path] == u.ticket.body[..u.phase.written])
    && (u.phase.Stored? ==>
          |u.ticket.body| == u.ticket.meta.size && u.phase.path in folder && folder[u.phase.path] == u.ticket.body)
    && (HasPath(u.phase) ==> NamedAfter(u.phase.path, u.ticket.meta.name))
  }

  ghost predicate ContentsOk(folder: map<string, Bytes>, uploading: map<Req, Upload>) {
    forall r | r in uploading :: ContentOk(folder, uploading[r])
  }

  ghost predicate PathsDistinct(uploading: map<Req, Upload>) {
    forall r, s | r in uploading && s in uploading && r != s && HasPath(uploading[r].phase) && HasPath(uploading[s].phase) ::
      uploading[r].phase.path != uploading[s].phase.path
  }

  ghost predicate SavedHeld(folder: map<string, Bytes>, log: seq<Event>) {
    forall e | e in log && e.Saved? :: e.path in folder && folder[e.path] == e.ticket.body
  }

  ghost predicate SavedApart(uploading: map<Req, Upload>, log: seq<Event>) {
    forall e, r | e in log && e.Saved? && r in uploading && HasPath(uploading[r].phase) ::
      e.path != uploading[r].phase.path
  }

  ghost predicate SavedUnique(log: seq<Event>) {
    forall e, f | e in log && e.Saved? && f in log && f.Saved? && e.path == f.path :: e == f
  }

  /** Uploads in flight have their own bytes in files of their own; saved files still hold
      theirs, each under a path no other upload, and no other saved file, has. */
  ghost predicate FilesOk(folder: map<string, Bytes>, uploading: map<Req, Upload>, log: seq<Event>) {
    && ContentsOk(folder, uploading)
    && PathsDistinct(uploading)
    && SavedHeld(folder, log)
    && SavedApart(uploading, log)
    && SavedUnique(log)
  }

  lemma {:induction false} TargetIsFree(w: World, t: Ticket)
    ensures Target(w, t) !in w.folder
    ensures NamedAfter(Target(w, t), t.meta.name)
  {
    Collision.ResolveIsFirstFree(w.folder.Keys, Collision.FileName(t.meta.name));
  }

  /** `mine` is no other upload's file and no saved file. */
  ghost predicate Exclusive(uploading: map<Req, Upload>, log: seq<Event>, req: Req, mine: string) {
    && (forall r | r in uploading && r != req && HasPath(uploading[r].phase) :: uploading[r].phase.path != mine)
    && (forall e | e in log && e.Saved? :: e.path != mine)
  }

  ghost predicate SameBut(folder: map<string, Bytes>, folder': map<string, Bytes>, mine: string) {
    forall p | p in folder && p != mine :: p in folder' && folder'[p] == folder[p]
  }

  /** An upload that changes only its own file disturbs no one. */
  lemma OwnFileOnly(folder: map<string, Bytes>, folder': map<string, Bytes>, uploading: map<Req, Upload>,
                    log: seq<Event>, req: Req, u: Upload, mine: string)
    requires FilesOk(folder, uploading, log)
    requires Exclusive(uploading, log, req, mine) && SameBut(folder, folder', mine)
    requires ContentOk(folder', u) && (HasPath(u.phase) ==> u.phase.path == mine)
    ensures FilesOk(folder', uploading[req := u], log)
  {
    forall r | r in uploading && r != req ensures ContentOk(folder', uploading[r]) {
      assert ContentOk(folder, uploading[r]);
    }
  }

  lemma FreePathIsExclusive(w: World, req: Req, path: string)
    requires FilesOk(w.folder, w.uploading, w.log) && path !in w.folder
    ensures Exclusive(w.uploading, w.log, req, path)
  {
    forall r | r in w.uploading && HasPath(w.uploading[r].phase) ensures w.uploading[r].phase.path != path {
      assert ContentOk(w.folder, w.uploading[r]);
    }
  }

  lemma CreateFiles(w: World, req: Req)
    requires FilesOk(w.folder, w.uploading, w.log) && Enabled(w, Create(req))
    ensures FilesOk(DoCreate(w, req).folder, DoCreate(w, req).uploading, w.log)
  {
    var v, path := DoCreate(w, req), Target(w, w.uploading[req].ticket);
    TargetIsFree(w, w.uploading[req].ticket);
    FreePathIsExclusive(w, req, path);
    OwnFileOnly(w.folder, v.folder, w.uploading, w.log, req, v.uploading[req], path);
  }

  lemma ChunkFiles(w: World, req: Req, count: nat)
    requires FilesOk(w.folder, w.uploading, w.log) && Enabled(w, Chunk(req, count))
    ensures FilesOk(DoChunk(w, req, count).folder, DoChunk(w, req, count).uploading, w.log)
  {
    var v, u := DoChunk(w, req, count), w.uploading[req];
    var body, from, upto := u.ticket.body, u.phase.written, u.phase.written + count;
    assert ContentOk(w.folder, u);
    assert body[..from] + body[from..upto] == body[..upto];
    OwnFileOnly(w.folder, v.folder, w.uploading, w.log, req, v.uploading[req], u.phase.path);
  }

  lemma BreakFiles(w: World, req: Req)
    requires FilesOk(w.folder, w.uploading, w.log) && InPhase(w, req, IsWriting)
    ensures FilesOk(DoBreak(w, req).folder, DoBreak(w, req).uploading, w.log)
  {
    var v, u := DoBreak(w, req), w.uploading[req];
    OwnFileOnly(w.folder, v.folder, w.uploading, w.log, req, v.uploading[req], u.phase.path);
  }

  lemma EndBodyFiles(w: World, req: Req)
    requires FilesOk(w.folder, w.uploading, w.log) && Enabled(w, EndBody(req))
    ensures FilesOk(DoEndBody(w, req).folder, DoEndBody(w, req).uploading, w.log)
  {
    var v, u := DoEndBody(w, req), w.uploading[req];
    if u.phase.written == u.ticket.meta.size {
      assert ContentOk(w.folder, u);
      assert u.ticket.body[..|u.ticket.body|] == u.ticket.body;
      OwnFileOnly(w.folder, v.folder, w.uploading, w.log, req, v.uploading[req], u.phase.path);
    } else {
      BreakFiles(w, req);
    }
  }

  lemma FinishFiles(w: World, req: Req)
    requires FilesOk(w.folder, w.uploading, w.log) && Enabled(w, Finish(req))
    ensures FilesOk(w.folder, DoFinish(w, req).uploading, DoFinish(w, req).log)
  {
  }

  /** A task without a file does not matter to the files. */
  lemma FilesWithout(folder: map<string, Bytes>, uploading: map<Req, Upload>, log: seq<Event>, req: Req, u: Upload)
    requires FilesOk(folder, uploading, log) && !HasPath(u.phase)
    ensures FilesOk(folder, uploading - {req}, log)
    ensures FilesOk(folder, uploading[req := u], log)
  {
  }

  /** Nor does an event that saves nothing. */
  lemma FilesGrow(folder: map<string, Bytes>, uploading: map<Req, Upload>, log: seq<Event>, e: Event)
    requires FilesOk(folder, uploading, log) && !e.Saved?
    ensures FilesOk(folder, uploading, log + [e])
  {
  }

  lemma IdsIgnore(issued: set<string>, log: seq<Event>, e: Event)
    requires IdsOk(issued, log) && !e.Opened?
    ensures IdsOk(issued, log + [e])
  {
  }

  // ---- requests ---------------------------------------------------------------------

  ghost predicate AskingOk(asking: map<Req, Asking>, log: seq<Event>) {
    forall r | r in asking ::
      && asking[r].prepare.files != map[]
      && Asked(r, asking[r].prepare) in log
      && (asking[r].approved ==> Approved(r, asking[r].prepare) in log)
  }

  predicate SavedReq(e: Event, r: Req, t: Ticket) {
    e.Saved? && e.req == r && e.ticket == t
  }

  /** An accepted upload is in flight or answered, and answered 200 only if it was saved. */
  ghost predicate AcceptedOk(uploading: map<Req, Upload>, replies: map<Req, Reply>, log: seq<Event>) {
    && (forall r | r in uploading :: Accepted(r, uploading[r].ticket) in log)
    && (forall r, t | Accepted(r, t) in log ::
          || (r in uploading && uploading[r].ticket == t)
          || (r in replies && (replies[r] == Status(200) ==> exists e :: e in log && SavedReq(e, r, t))))
    && (forall e | e in log && e.Saved? :: e.req in replies && replies[e.req] == Status(200))
    && (forall e, f | e in log && f in log && e.Saved? && f.Saved? && e.req == f.req :: e == f)
  }

  predicate Grants(e: Event, r: Req, sid: string, tokens: map<string, string>) {
    e.Opened? && e.req == r && e.sessionId == sid && e.tokens == tokens
  }

  /** A prepare request was asked once, and a granted one opened the session it names. */
  ghost predicate GrantedOk(asking: map<Req, Asking>, replies: map<Req, Reply>, log: seq<Event>) {
    && (forall r, p | Asked(r, p) in log :: r in replies || (r in asking && asking[r].prepare == p))
    && (forall r, p, q | Asked(r, p) in log && Asked(r, q) in log :: p == q)
    && (forall r | r in replies && replies[r].Granted? ::
          exists e :: e in log && Grants(e, r, replies[r].sessionId, replies[r].tokens))
  }

  predicate Apart(asking: map<Req, Asking>, uploading: map<Req, Upload>, replies: map<Req, Reply>) {
    asking.Keys !! uploading.Keys && asking.Keys !! replies.Keys && uploading.Keys !! replies.Keys
  }

  /** The four kinds of record about requests, for any event that is not about them. */
  lemma AskingGrows(asking: map<Req, Asking>, replies: map<Req, Reply>, log: seq<Event>, e: Event)
    requires AskingOk(asking, log) && GrantedOk(asking, replies, log) && !e.Asked?
    ensures AskingOk(asking, log + [e]) && GrantedOk(asking, replies, log + [e])
  {
    forall r | r in replies && replies[r].Granted?
      ensures exists o :: o in log + [e] && Grants(o, r, replies[r].sessionId, replies[r].tokens)
    {
      var o :| o in log && Grants(o, r, replies[r].sessionId, replies[r].tokens);
      assert o in log + [e];
    }
  }

  lemma AcceptedGrows(uploading: map<Req, Upload>, replies: map<Req, Reply>, log: seq<Event>, e: Event)
    requires AcceptedOk(uploading, replies, log) && !e.Accepted? && !e.Saved?
    ensures AcceptedOk(uploading, replies, log + [e])
  {
    forall r, t | Accepted(r, t) in log + [e] && !(r in uploading && uploading[r].ticket == t)
      ensures r in replies && (replies[r] == Status(200) ==> exists o :: o in log + [e] && SavedReq(o, r, t))
    {
      assert Accepted(r, t) in log;
      if replies[r] == Status(200) {
        var o :| o in log && SavedReq(o, r, t);
        assert o in log + [e];
      }
    }
  }

  lemma AnswerAsking(w: World, req: Req, reply: Reply)
    requires AskingOk(w.asking, w.log) && GrantedOk(w.asking, w.replies, w.log) && req !in w.replies && reply.Status?
    ensures AskingOk(Answer(w, req, reply).asking, w.log)
    ensures GrantedOk(Answer(w, req, reply).asking, Answer(w, req, reply).replies, w.log)
  {
  }

  lemma AnswerAccepted(w: World, req: Req, reply: Reply)
    requires AcceptedOk(w.uploading, w.replies, w.log) && req !in w.replies
    requires req in w.uploading ==> reply != Status(200)
    requires Apart(w.asking, w.uploading, w.replies)
    ensures AcceptedOk(Answer(w, req, reply).uploading, Answer(w, req, reply).replies, w.log)
  {
    var v := Answer(w, req, reply);
    forall r, t | Accepted(r, t) in w.log && !(r in v.uploading && v.uploading[r].ticket == t)
      ensures r in v.replies && (v.replies[r] == Status(200) ==> exists o :: o in w.log && SavedReq(o, r, t))
    {
      if r != req {
        assert r !in w.uploading;
      }
    }
  }

  lemma SetPhaseAccepted(w: World, req: Req, phase: Phase)
    requires AcceptedOk(w.uploading, w.replies, w.log) && req in w.uploading
    ensures AcceptedOk(SetPhase(w, req, phase).uploading, w.replies, w.log)
  {
    var v := SetPhase(w, req, phase);
    forall r, t | Accepted(r, t) in w.log && !(r in v.uploading && v.uploading[r].ticket == t)
      ensures r in w.replies && (w.replies[r] == Status(200) ==> exists o :: o in w.log && SavedReq(o, r, t))
    {
      assert !(r in w.uploading && w.uploading[r].ticket == t);
    }
  }

  lemma OpenGranted(w: World, req: Req, sid: string, tokens: map<string, string>)
    requires AskingOk(w.asking, w.log) && GrantedOk(w.asking, w.replies, w.log)
    requires Enabled(w, Open(req, sid, tokens)) && req !in w.replies
    ensures AskingOk(DoOpen(w, req, sid, tokens).asking, DoOpen(w, req, sid, tokens).log)
    ensures GrantedOk(DoOpen(w, req, sid, tokens).asking, DoOpen(w, req, sid, tokens).replies, DoOpen(w, req, sid, tokens).log)
  {
    var v := DoOpen(w, req, sid, tokens);
    var e := Opened(req, w.asking[req].prepare, sid, tokens);
    AskingGrows(w.asking, w.replies, w.log, e);
    assert e in v.log && Grants(e, req, sid, tokens);
  }

  lemma AcceptAccepted(w: World, req: Req, ticket: Ticket)
    requires AcceptedOk(w.uploading, w.replies, w.log) && Fresh(w, req)
    ensures AcceptedOk(w.uploading[req := Upload(ticket, Ready)], w.replies, w.log + [Accepted(req, ticket)])
  {
    var log := w.log + [Accepted(req, ticket)];
    forall r, t | Accepted(r, t) in log && r != req
      ensures (r in w.uploading && w.uploading[r].ticket == t)
              || (r in w.replies && (w.replies[r] == Status(200) ==> exists o :: o in log && SavedReq(o, r, t)))
    {
      assert Accepted(r, t) in w.log;
      if !(r in w.uploading && w.uploading[r].ticket == t) && w.replies[r] == Status(200) {
        var o :| o in w.log && SavedReq(o, r, t);
        assert o in log;
      }
    }
    assert forall t | Accepted(req, t) in w.log :: false;
  }

  lemma FinishAccepted(w: World, req: Req)
    requires AcceptedOk(w.uploading, w.replies, w.log) && Enabled(w, Finish(req))
    requires Apart(w.asking, w.uploading, w.replies)
    ensures AcceptedOk(DoFinish(w, req).uploading, DoFinish(w, req).replies, DoFinish(w, req).log)
  {
    var t, path := w.uploading[req].ticket, w.uploading[req].phase.path;
    assert InPhase(w, req, IsStored);
    SavedAccepted(w.uploading, w.replies, w.log, req, t, path);
    hide AcceptedOk;
  }

  /** The records once an upload is answered and noted as saved. */
  lemma SavedAccepted(uploading: map<Req, Upload>, replies: map<Req, Reply>, log: seq<Event>, req: Req, t: Ticket, path: string)
    requires AcceptedOk(uploading, replies, log) && uploading.Keys !! replies.Keys
    requires req in uploading && uploading[req].ticket == t
    ensures AcceptedOk(uploading - {req}, replies[req := Status(200)], log + [Saved(req, t, path)])
  {
    var rest, answers, all, e := uploading - {req}, replies[req := Status(200)], log + [Saved(req, t, path)], Saved(req, t, path);
    assert e in all && SavedReq(e, req, t);
    forall r, u | Accepted(r, u) in all && !(r in rest && rest[r].ticket == u)
      ensures r in answers && (answers[r] == Status(200) ==> exists o :: o in all && SavedReq(o, r, u))
    {
      assert Accepted(r, u) in log;
      if r != req && replies[r] == Status(200) {
        var o :| o in log && SavedReq(o, r, u);
        assert o in all;
      }
    }
  }

  // ---- the invariant ----------------------------------------------------------------

  ghost predicate RequestsOk(w: World) {
    && AskingOk(w.asking, w.log)
    && AcceptedOk(w.uploading, w.replies, w.log)
    && GrantedOk(w.asking, w.replies, w.log)
    && Apart(w.asking, w.uploading, w.replies)
  }

  ghost predicate Inv(w: World) {
    && SessionOk(w.state, w.log)
    && IdsOk(w.issued, w.log)
    && FilesOk(w.folder, w.uploading, w.log)
    && RequestsOk(w)
    && Grounded(w.log)
  }

  /** Answering a request whose file is gone, with the state unchanged or reset. */
  lemma AnswerKeeps(w: World, req: Req, state: State, reply: Reply)
    requires Inv(w)
    requires state == w.state || state.Idle?
    requires req !in w.replies && reply.Status?
    requires req in w.uploading ==> reply != Status(200)
    ensures Inv(Answer(w.(state := state), req, reply))
  {
    AnswerAsking(w, req, reply);
    AnswerAccepted(w, req, reply);
  }

  /** An event that opens nothing, accepts nothing and saves nothing. */
  lemma NoteKeeps(w: World, e: Event)
    requires Inv(w) && Justified(w.log, e) && e.Approved?
    ensures Inv(Note(w, e))
  {
    hide SessionOk, IdsOk, FilesOk, AskingOk, AcceptedOk, GrantedOk, Apart, Grounded, Justified;
    SessionGrows(w.state, w.log, e);
    IdsIgnore(w.issued, w.log, e);
    FilesGrow(w.folder, w.uploading, w.log, e);
    GroundedAppend(w.log, e);
    AskingGrows(w.asking, w.replies, w.log, e);
    AcceptedGrows(w.uploading, w.replies, w.log, e);
  }

  lemma AskRecorded(w: World, req: Req, prepare: Prepare)
    requires AskingOk(w.asking, w.log) && GrantedOk(w.asking, w.replies, w.log)
    requires Fresh(w, req) && prepare.files != map[]
    ensures AskingOk(w.asking[req := Asking(prepare, false)], w.log + [Asked(req, prepare)])
    ensures GrantedOk(w.asking[req := Asking(prepare, false)], w.replies, w.log + [Asked(req, prepare)])
  {
    var log := w.log + [Asked(req, prepare)];
    assert forall p | Asked(req, p) in w.log :: false;
    forall r | r in w.replies && w.replies[r].Granted?
      ensures exists o :: o in log && Grants(o, r, w.replies[r].sessionId, w.replies[r].tokens)
    {
      var o :| o in w.log && Grants(o, r, w.replies[r].sessionId, w.replies[r].tokens);
      assert o in log;
    }
  }

  lemma BeginPrepareKeeps(w: World, req: Req, prepare: Prepare)
    requires Inv(w) && Fresh(w, req)
    ensures Inv(DoBeginPrepare(w, req, prepare))
  {
    hide IdsOk, FilesOk, AskingOk, AcceptedOk, GrantedOk, Grounded;
    assert w.(state := w.state) == w;
    if prepare.files == map[] {
      AnswerKeeps(w, req, w.state, Status(400));
    } else if !w.state.Idle? {
      AnswerKeeps(w, req, w.state, Status(409));
    } else {
      var e := Asked(req, prepare);
      IdsIgnore(w.issued, w.log, e);
      FilesGrow(w.folder, w.uploading, w.log, e);
      GroundedAppend(w.log, e);
      AcceptedGrows(w.uploading, w.replies, w.log, e);
      AskRecorded(w, req, prepare);
    }
  }

  lemma ApproveKeeps(w: World, req: Req, now: string)
    requires Inv(w) && Enabled(w, Approve(req, now))
    ensures Inv(DoApprove(w, req, now))
  {
    hide SessionOk, IdsOk, FilesOk, AcceptedOk, Grounded;
    NoteKeeps(w, Approved(req, w.asking[req].prepare));
    ApproveAsking(w, req, now);
    hide AskingOk, GrantedOk;
  }

  lemma ApproveAsking(w: World, req: Req, now: string)
    requires req in w.asking && AskingOk(w.asking, w.log) && GrantedOk(w.asking, w.replies, w.log)
    ensures var v := DoApprove(w, req, now); AskingOk(v.asking, v.log) && GrantedOk(v.asking, v.replies, v.log)
  {
    var e := Approved(req, w.asking[req].prepare);
    AskingGrows(w.asking, w.replies, w.log, e);
    assert e in w.log + [e];
  }

  lemma OpenRequests(w: World, req: Req, sid: string, tokens: map<string, string>)
    requires RequestsOk(w) && Enabled(w, Open(req, sid, tokens))
    ensures RequestsOk(DoOpen(w, req, sid, tokens))
  {
    hide AskingOk, AcceptedOk, GrantedOk, FreshNames;
    OpenGranted(w, req, sid, tokens);
    AnswerAccepted(w, req, Granted(sid, tokens));
    var e := Opened(req, w.asking[req].prepare, sid, tokens);
    AcceptedGrows(Answer(w, req, Granted(sid, tokens)).uploading, w.replies[req := Granted(sid, tokens)], w.log, e);
  }

  lemma OpenKeeps(w: World, req: Req, sid: string, tokens: map<string, string>)
    requires Inv(w) && Enabled(w, Open(req, sid, tokens))
    ensures Inv(DoOpen(w, req, sid, tokens))
  {
    hide SessionOk, IdsOk, FilesOk, AskingOk, AcceptedOk, GrantedOk, Grounded, FreshNames;
    var e := Opened(req, w.asking[req].prepare, sid, tokens);
    OpenJustified(w, req, sid, tokens);
    OpenSession(w, req, sid, tokens);
    OpenIds(w, req, sid, tokens);
    OpenRequests(w, req, sid, tokens);
    assert w.uploading - {req} == w.uploading;
    hide RequestsOk, Enabled;
    FilesGrow(w.folder, w.uploading, w.log, e);
    GroundedAppend(w.log, e);
  }

  lemma OpenJustified(w: World, req: Req, sid: string, tokens: map<string, string>)
    requires AskingOk(w.asking, w.log) && Enabled(w, Open(req, sid, tokens))
    ensures w.asking[req].prepare.files != map[]
    ensures Justified(w.log, Opened(req, w.asking[req].prepare, sid, tokens))
  {
  }

  lemma BeginUploadKeeps(w: World, req: Req, sid: string, fid: string, token: string, body: Bytes)
    requires Inv(w) && Fresh(w, req)
    ensures Inv(DoBeginUpload(w, req, sid, fid, token, body))
  {
    hide IdsOk, FilesOk, AskingOk, AcceptedOk, GrantedOk, Grounded;
    if ValidUpload(w.state, sid, fid, token) && fid in w.state.session.files {
      var s := w.state.session;
      var ticket := Ticket(sid, fid, token, s.files[fid], s.fromAlias, body);
      var e := Accepted(req, ticket);
      var o :| o in w.log && Opens(o, s);
      assert Issues(o, ticket);
      GroundedAppend(w.log, e);
      SessionGrows(w.state, w.log, e);
      IdsIgnore(w.issued, w.log, e);
      FilesGrow(w.folder, w.uploading, w.log, e);
      FilesWithout(w.folder, w.uploading, w.log + [e], req, Upload(ticket, Ready));
      AskingGrows(w.asking, w.replies, w.log, e);
      AcceptAccepted(w, req, ticket);
    } else {
      AnswerKeeps(w, req, w.state, Status(404));
      assert w.(state := w.state) == w;
    }
  }

  lemma FinishJustified(w: World, req: Req)
    requires ContentsOk(w.folder, w.uploading) && AcceptedOk(w.uploading, w.replies, w.log) && Enabled(w, Finish(req))
    ensures Justified(w.log, Saved(req, w.uploading[req].ticket, w.uploading[req].phase.path))
  {
    assert ContentOk(w.folder, w.uploading[req]);
  }

  lemma FilesHaveContents(w: World)
    requires FilesOk(w.folder, w.uploading, w.log)
    ensures ContentsOk(w.folder, w.uploading)
  {
  }

  lemma FinishKeeps(w: World, req: Req)
    requires Inv(w) && Enabled(w, Finish(req))
    ensures Inv(DoFinish(w, req))
  {
    hide SessionOk, IdsOk, FilesOk, AskingOk, AcceptedOk, GrantedOk, Grounded, Justified;
    var u := w.uploading[req];
    var e := Saved(req, u.ticket, u.phase.path);
    FilesHaveContents(w);
    FinishJustified(w, req);
    GroundedAppend(w.log, e);
    IdsIgnore(w.issued, w.log, e);
    ReceivedKeepsSession(w.state, w.log, u.ticket.fileId);
    SessionGrows(AfterReceived(w.state, u.ticket.fileId), w.log, e);
    FinishFiles(w, req);
    FinishAccepted(w, req);
    AnswerAsking(w, req, Status(200));
    AskingGrows(Answer(w, req, Status(200)).asking, w.replies[req := Status(200)], w.log, e);
  }

  lemma FileStepKeeps(w: World, req: Req, w': World)
    requires Inv(w) && req in w.uploading && req in w'.uploading
    requires w' == SetPhase(w.(folder := w'.folder), req, w'.uploading[req].phase)
    requires FilesOk(w'.folder, w'.uploading, w.log)
    ensures Inv(w')
  {
    hide SessionOk, IdsOk, FilesOk, AskingOk, AcceptedOk, GrantedOk, Grounded;
    SetPhaseAccepted(w, req, w'.uploading[req].phase);
  }

  /** The invariant is kept by every action. */
  lemma {:induction false} StepKeeps(w: World, a: Action)
    requires Inv(w) && Enabled(w, a)
    ensures Inv(Step(w, a))
  {
    hide SessionOk, IdsOk, FilesOk, AskingOk, AcceptedOk, GrantedOk, Grounded;
    match a
    case BeginPrepare(req, prepare) => BeginPrepareKeeps(w, req, prepare);
    case TimeOut(req) => AnswerKeeps(w, req, Idle, Status(408));
    case Reject(req) => AnswerKeeps(w, req, Idle, Status(403));
    case Approve(req, now) => ApproveKeeps(w, req, now);
    case Open(req, sid, tokens) => OpenKeeps(w, req, sid, tokens);
    case BeginUpload(req, sid, fid, token, body) => BeginUploadKeeps(w, req, sid, fid, token, body);
    case Create(req) =>
      CreateFiles(w, req);
      FileStepKeeps(w, req, DoCreate(w, req));
    case CreateFails(req) => CreateFailsKeeps(w, req);
    case Chunk(req, count) =>
      ChunkFiles(w, req, count);
      FileStepKeeps(w, req, DoChunk(w, req, count));
    case BodyFails(req) =>
      BreakFiles(w, req);
      FileStepKeeps(w, req, DoBreak(w, req));
    case EndBody(req) =>
      EndBodyFiles(w, req);
      FileStepKeeps(w, req, DoEndBody(w, req));
    case Finish(req) => FinishKeeps(w, req);
    case Abandon(req) => AnswerKeeps(w, req, Idle, Status(500));
    case Cancel(req, sid) => CancelKeeps(w, req, sid);
  }

  lemma CreateFailsKeeps(w: World, req: Req)
    requires Inv(w) && Enabled(w, CreateFails(req))
    ensures Inv(SetPhase(w, req, Broken))
  {
    hide SessionOk, IdsOk, FilesOk, AskingOk, AcceptedOk, GrantedOk, Grounded;
    var u := w.uploading[req].(phase := Broken);
    FilesWithout(w.folder, w.uploading, w.log, req, u);
    SetPhaseAccepted(w, req, Broken);
  }

  lemma CancelKeeps(w: World, req: Req, sid: string)
    requires Inv(w) && Fresh(w, req)
    ensures Inv(DoCancel(w, req, sid))
  {
    hide SessionOk, IdsOk, FilesOk, AskingOk, AcceptedOk, GrantedOk, Grounded;
    if w.state.Sending? && w.state.session.id == sid {
      AnswerKeeps(w, req, Idle, Status(200));
    } else {
      AnswerKeeps(w, req, w.state, Status(404));
      assert w.(state := w.state) == w;
    }
  }

  /** The history only grows. */
  lemma {:induction false} LogGrows(w: World, a: Action)
    requires Enabled(w, a)
    ensures w.log <= Step(w, a).log
  {
    hide FreshNames, Target, Contents, ValidUpload, AfterReceived;
  }

  /** What `w` and `v` say about `r` is the same. */
  predicate SameFor(w: World, v: World, r: Req) {
    && (r in v.asking <==> r in w.asking) && (r in w.asking ==> v.asking[r] == w.asking[r])
    && (r in v.uploading <==> r in w.uploading) && (r in w.uploading ==> v.uploading[r] == w.uploading[r])
    && (r in v.replies <==> r in w.replies) && (r in w.replies ==> v.replies[r] == w.replies[r])
  }

  lemma AnswerElsewhere(w: World, v: World, req: Req, reply: Reply, r: Req)
    requires v.asking == w.asking && v.uploading == w.uploading && v.replies == w.replies && r != req
    ensures SameFor(w, Answer(v, req, reply), r)
  {
  }

  /** An action of one request changes nothing about another request's standing. */
  lemma {:induction false} Elsewhere(w: World, a: Action, r: Req)
    requires Enabled(w, a) && r != a.req
    ensures SameFor(w, Step(w, a), r)
  {
    hide FreshNames, Target, Contents, ValidUpload, AfterReceived, Answer;
    match a
    case BeginPrepare(req, prepare) =>
      AnswerElsewhere(w, w, req, Status(400), r);
      AnswerElsewhere(w, w, req, Status(409), r);
    case TimeOut(req) => AnswerElsewhere(w, w.(state := Idle), req, Status(408), r);
    case Reject(req) => AnswerElsewhere(w, w.(state := Idle), req, Status(403), r);
    case Approve(_, _) =>
    case Open(req, sid, tokens) => OpenElsewhere(w, req, sid, tokens, r);
    case BeginUpload(req, _, _, _, _) => AnswerElsewhere(w, w, req, Status(404), r);
    case Finish(req) =>
      var state := AfterReceived(w.state, w.uploading[req].ticket.fileId);
      AnswerElsewhere(w, w.(state := state), req, Status(200), r);
    case Abandon(req) => AnswerElsewhere(w, w.(state := Idle), req, Status(500), r);
    case Cancel(req, _) =>
      AnswerElsewhere(w, w.(state := Idle), req, Status(200), r);
      AnswerElsewhere(w, w, req, Status(404), r);
    case _ =>
  }

  lemma OpenElsewhere(w: World, req: Req, sid: string, tokens: map<string, string>, r: Req)
    requires req in w.asking && r != req
    ensures SameFor(w, DoOpen(w, req, sid, tokens), r)
  {
  }

  lemma OtherRequests(w: World, a: Action, r: Req)
    requires Enabled(w, a) && r != a.req
    ensures Fresh(Step(w, a), r) <==> Fresh(w, r)
    ensures r in w.replies ==> r in Step(w, a).replies && Step(w, a).replies[r] == w.replies[r]
  {
    hide Step, Enabled;
    Elsewhere(w, a, r);
  }

  lemma OtherEvents(w: World, a: Action, r: Req)
    requires Enabled(w, a) && r != a.req
    ensures forall p | Asked(r, p) in Step(w, a).log :: Asked(r, p) in w.log
  {
    hide FreshNames, Target, Contents, ValidUpload, AfterReceived;
  }

  lemma BootHolds(w: World)
    requires Boot(w)
    ensures Inv(w)
  {
  }

  /** Every state of every run satisfies the invariant. */
  lemma {:induction false} InvAlways(trace: seq<World>, acts: seq<Action>, k: nat)
    requires Run(trace, acts) && k <= |acts|
    ensures Inv(trace[k])
  {
    if k == 0 {
      BootHolds(trace[0]);
    } else {
      InvAlways(trace, acts, k - 1);
      StepKeeps(trace[k - 1], acts[k - 1]);
    }
  }
}
