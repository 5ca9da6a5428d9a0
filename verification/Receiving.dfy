/** The receiver of app/rust/src/core/transfer/recv.rs as a machine: the handlers of all
    requests share one state under a mutex and release it while they wait for the user or
    for the body. Each lock-held region, and each file operation, is one action. */
module Receiving {
  import opened Protocol
  import Collision
  import Trust

  /** A request, and the handler task that serves it. */
  type Req = nat

  datatype Session = Session(
    id: string,
    fromAlias: string,
    files: map<string, FileMeta>,
    tokens: map<string, string>,
    received: set<string>)

  datatype State = Idle | Pending | Sending(session: Session)

  /** A prepare handler between its two lock-held regions. */
  datatype Asking = Asking(prepare: Prepare, approved: bool)

  /** What an upload handler keeps after its request was found valid. `body` is all the
      bytes the client would send. */
  datatype Ticket = Ticket(
    sessionId: string,
    fileId: string,
    token: string,
    meta: FileMeta,
    from: string,
    body: Bytes)

  /** Where `save_body` stands. */
  datatype Phase =
    | Ready
    | Writing(path: string, written: nat)
    | Stored(path: string)
    | Broken

  datatype Upload = Upload(ticket: Ticket, phase: Phase)

  datatype Reply = Granted(sessionId: string, tokens: map<string, string>) | Status(code: nat)

  /** The history, for stating what happened before what. */
  datatype Event =
    | Asked(req: Req, prepare: Prepare)
    | Approved(req: Req, prepare: Prepare)
    | Opened(req: Req, prepare: Prepare, sessionId: string, tokens: map<string, string>)
    | Accepted(req: Req, ticket: Ticket)
    | Saved(req: Req, ticket: Ticket, path: string)

  datatype World = World(
    state: State,
    trust: Trust.Devices,
    folder: map<string, Bytes>,
    asking: map<Req, Asking>,
    uploading: map<Req, Upload>,
    replies: map<Req, Reply>,
    issued: set<string>,
    log: seq<Event>)

  datatype Action =
    | BeginPrepare(req: Req, prepare: Prepare)
    | TimeOut(req: Req)
    | Reject(req: Req)
    | Approve(req: Req, now: string)
    | Open(req: Req, sessionId: string, tokens: map<string, string>)
    | BeginUpload(req: Req, sessionId: string, fileId: string, token: string, body: Bytes)
    | Create(req: Req)
    | CreateFails(req: Req)
    | Chunk(req: Req, count: nat)
    | BodyFails(req: Req)
    | EndBody(req: Req)
    | Finish(req: Req)
    | Abandon(req: Req)
    | Cancel(req: Req, sessionId: string)

  // ---- guards -----------------------------------------------------------------------

  /** No handler has served `req` yet. */
  predicate Unserved(asking: map<Req, Asking>, uploading: map<Req, Upload>, replies: map<Req, Reply>, req: Req) {
    req !in asking && req !in uploading && req !in replies
  }

  predicate Fresh(w: World, req: Req) {
    Unserved(w.asking, w.uploading, w.replies, req)
  }

  /** What the random supply promises: non-empty names that it never gave out before. */
  predicate NeverIssued(issued: set<string>, files: map<string, FileMeta>, sessionId: string, tokens: map<string, string>) {
    && tokens.Keys == files.Keys
    && sessionId !in issued && sessionId != ""
    && (forall id | id in tokens :: tokens[id] !in issued && tokens[id] != sessionId && tokens[id] != "")
    && (forall i, j | i in tokens && j in tokens && tokens[i] == tokens[j] :: i == j)
  }

  predicate FreshNames(w: World, files: map<string, FileMeta>, sessionId: string, tokens: map<string, string>) {
    NeverIssued(w.issued, files, sessionId, tokens)
  }

  /** The checks of `handle_upload` under the lock. */
  predicate ValidUpload(state: State, sessionId: string, fileId: string, token: string) {
    && state.Sending?
    && state.session.id == sessionId
    && token != ""
    && fileId in state.session.tokens && state.session.tokens[fileId] == token
    && fileId !in state.session.received
  }

  predicate Stands(uploading: map<Req, Upload>, req: Req, p: Phase -> bool) {
    req in uploading && p(uploading[req].phase)
  }

  predicate InPhase(w: World, req: Req, p: Phase -> bool) {
    Stands(w.uploading, req, p)
  }

  predicate IsReady(p: Phase) { p.Ready? }
  predicate IsWriting(p: Phase) { p.Writing? }
  predicate IsStored(p: Phase) { p.Stored? }
  predicate IsBroken(p: Phase) { p.Broken? }

  predicate Enabled(w: World, a: Action) {
    match a
    case BeginPrepare(req, _) => Fresh(w, req)
    case TimeOut(req) => req in w.asking && !w.asking[req].approved
    case Reject(req) => req in w.asking && !w.asking[req].approved
    case Approve(req, _) => req in w.asking && !w.asking[req].approved
    case Open(req, sid, tokens) =>
      req in w.asking && w.asking[req].approved && FreshNames(w, w.asking[req].prepare.files, sid, tokens)
    case BeginUpload(req, _, _, _, _) => Fresh(w, req)
    case Create(req) => InPhase(w, req, IsReady)
    case CreateFails(req) => InPhase(w, req, IsReady)
    case Chunk(req, count) =>
      InPhase(w, req, IsWriting) && w.uploading[req].phase.written + count <= |w.uploading[req].ticket.body|
    case BodyFails(req) => InPhase(w, req, IsWriting)
    case EndBody(req) =>
      InPhase(w, req, IsWriting) && w.uploading[req].phase.written == |w.uploading[req].ticket.body|
    case Finish(req) => InPhase(w, req, IsStored)
    case Abandon(req) => InPhase(w, req, IsBroken)
    case Cancel(req, _) => Fresh(w, req)
  }

  // ---- effects ----------------------------------------------------------------------

  function Contents(folder: map<string, Bytes>, path: string): Bytes {
    if path in folder then folder[path] else []
  }

  function Answer(w: World, req: Req, reply: Reply): World {
    w.(asking := w.asking - {req}, uploading := w.uploading - {req}, replies := w.replies[req := reply])
  }

  function Note(w: World, e: Event): World {
    w.(log := w.log + [e])
  }

  function SetPhase(w: World, req: Req, phase: Phase): World
    requires req in w.uploading
  {
    w.(uploading := w.uploading[req := w.uploading[req].(phase := phase)])
  }

  function DoBeginPrepare(w: World, req: Req, prepare: Prepare): World {
    if prepare.files == map[] then Answer(w, req, Status(400))
    else if w.state.Idle? then
      Note(w.(state := Pending, asking := w.asking[req := Asking(prepare, false)]), Asked(req, prepare))
    else Answer(w, req, Status(409))
  }

  function DoApprove(w: World, req: Req, now: string): World
    requires req in w.asking
  {
    var prepare := w.asking[req].prepare;
    Note(w.(trust := Trust.Added(w.trust, prepare.info.fingerprint, prepare.info.alias, now),
            asking := w.asking[req := Asking(prepare, true)]),
         Approved(req, prepare))
  }

  function DoOpen(w: World, req: Req, sid: string, tokens: map<string, string>): World
    requires req in w.asking
  {
    var prepare := w.asking[req].prepare;
    Note(Answer(w.(state := Sending(Session(sid, prepare.info.alias, prepare.files, tokens, {})),
                   issued := w.issued + {sid} + tokens.Values),
                req, Granted(sid, tokens)),
         Opened(req, prepare, sid, tokens))
  }

  /** `session.files[&file_id]` is evaluated here; that it never misses is
      `Folder.LookupNeverMisses`. */
  function DoBeginUpload(w: World, req: Req, sid: string, fid: string, token: string, body: Bytes): World {
    if ValidUpload(w.state, sid, fid, token) && fid in w.state.session.files then
      var ticket := Ticket(sid, fid, token, w.state.session.files[fid], w.state.session.fromAlias, body);
      Note(w.(uploading := w.uploading[req := Upload(ticket, Ready)]), Accepted(req, ticket))
    else Answer(w, req, Status(404))
  }

  /** The free name `save_body` settles on. */
  function Target(w: World, ticket: Ticket): string {
    Collision.Resolve(w.folder.Keys, Collision.FileName(ticket.meta.name))
  }

  function DoCreate(w: World, req: Req): World
    requires req in w.uploading
  {
    var path := Target(w, w.uploading[req].ticket);
    SetPhase(w.(folder := w.folder[path := []]), req, Writing(path, 0))
  }

  function DoChunk(w: World, req: Req, count: nat): World
    requires InPhase(w, req, IsWriting)
    requires w.uploading[req].phase.written + count <= |w.uploading[req].ticket.body|
  {
    var u := w.uploading[req];
    var upto := u.phase.written + count;
    var data := u.ticket.body[u.phase.written..upto];
    SetPhase(w.(folder := w.folder[u.phase.path := Contents(w.folder, u.phase.path) + data]),
             req, Writing(u.phase.path, upto))
  }

  function DoBreak(w: World, req: Req): World
    requires InPhase(w, req, IsWriting)
  {
    SetPhase(w.(folder := w.folder - {w.uploading[req].phase.path}), req, Broken)
  }

  /** End of the body: a size other than the announced one is a failure. */
  function DoEndBody(w: World, req: Req): World
    requires InPhase(w, req, IsWriting)
  {
    var u := w.uploading[req];
    if u.phase.written == u.ticket.meta.size then SetPhase(w, req, Stored(u.phase.path)) else DoBreak(w, req)
  }

  /** The state after a file was stored, whichever session holds the lock by then. */
  function AfterReceived(state: State, fid: string): State {
    if state.Sending? then
      var received := state.session.received + {fid};
      if |received| == |state.session.files| then Idle
      else Sending(state.session.(received := received))
    else state
  }

  function DoFinish(w: World, req: Req): World
    requires InPhase(w, req, IsStored)
  {
    var u := w.uploading[req];
    Note(Answer(w.(state := AfterReceived(w.state, u.ticket.fileId)), req, Status(200)),
         Saved(req, u.ticket, u.phase.path))
  }

  function DoCancel(w: World, req: Req, sid: string): World {
    if w.state.Sending? && w.state.session.id == sid then Answer(w.(state := Idle), req, Status(200))
    else Answer(w, req, Status(404))
  }

  function Step(w: World, a: Action): World
    requires Enabled(w, a)
  {
    match a
    case BeginPrepare(req, prepare) => DoBeginPrepare(w, req, prepare)
    case TimeOut(req) => Answer(w.(state := Idle), req, Status(408))
    case Reject(req) => Answer(w.(state := Idle), req, Status(403))
    case Approve(req, now) => DoApprove(w, req, now)
    case Open(req, sid, tokens) => DoOpen(w, req, sid, tokens)
    case BeginUpload(req, sid, fid, token, body) => DoBeginUpload(w, req, sid, fid, token, body)
    case Create(req) => DoCreate(w, req)
    case CreateFails(req) => SetPhase(w, req, Broken)
    case Chunk(req, count) => DoChunk(w, req, count)
    case BodyFails(req) => DoBreak(w, req)
    case EndBody(req) => DoEndBody(w, req)
    case Finish(req) => DoFinish(w, req)
    case Abandon(req) => Answer(w.(state := Idle), req, Status(500))
    case Cancel(req, sid) => DoCancel(w, req, sid)
  }

  // ---- runs -------------------------------------------------------------------------

  /** The receiver when it starts, with whatever the folder and the trust list hold. */
  predicate Boot(w: World) {
    w.state.Idle? && w.asking == map[] && w.uploading == map[] && w.replies == map[] && w.issued == {} && w.log == []
  }

  /** `trace` is the states of a run whose `k`-th action is `acts[k]`. */
  ghost predicate Run(trace: seq<World>, acts: seq<Action>) {
    && |trace| == |acts| + 1
    && Boot(trace[0])
    && forall k | 0 <= k < |acts| :: Enabled(trace[k], acts[k]) && trace[k + 1] == Step(trace[k], acts[k])
  }
}
