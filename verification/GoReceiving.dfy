/** The second receiver, go-cli/internal/transfer/recv.go, over the same actions. It keeps the
    files still to come where the first one keeps the files received. */
module GoReceiving {
  import opened Protocol
  import opened Receiving
  import Collision
  import Trust

  datatype GoState = StateIdle | StatePending | StateSending

  datatype GoWorld = GoWorld(
    state: GoState,
    sessionId: string,
    tokens: map<string, string>,
    files: map<string, FileMeta>,
    remaining: set<string>,
    fromAlias: string,
    trust: Trust.Devices,
    folder: map<string, Bytes>,
    asking: map<Req, Asking>,
    uploading: map<Req, Upload>,
    replies: map<Req, Reply>,
    issued: set<string>)

  // ---- guards: the same handler states ----------------------------------------------

  predicate GoFresh(g: GoWorld, req: Req) {
    Unserved(g.asking, g.uploading, g.replies, req)
  }

  predicate GoFreshNames(g: GoWorld, files: map<string, FileMeta>, sessionId: string, tokens: map<string, string>) {
    NeverIssued(g.issued, files, sessionId, tokens)
  }

  predicate GoInPhase(g: GoWorld, req: Req, p: Phase -> bool) {
    Stands(g.uploading, req, p)
  }

  predicate GoEnabled(g: GoWorld, a: Action) {
    match a
    case BeginPrepare(req, _) => GoFresh(g, req)
    case TimeOut(req) => req in g.asking && !g.asking[req].approved
    case Reject(req) => req in g.asking && !g.asking[req].approved
    case Approve(req, _) => req in g.asking && !g.asking[req].approved
    case Open(req, sid, tokens) =>
      req in g.asking && g.asking[req].approved && GoFreshNames(g, g.asking[req].prepare.files, sid, tokens)
    case BeginUpload(req, _, _, _, _) => GoFresh(g, req)
    case Create(req) => GoInPhase(g, req, IsReady)
    case CreateFails(req) => GoInPhase(g, req, IsReady)
    case Chunk(req, count) =>
      GoInPhase(g, req, IsWriting) && g.uploading[req].phase.written + count <= |g.uploading[req].ticket.body|
    case BodyFails(req) => GoInPhase(g, req, IsWriting)
    case EndBody(req) =>
      GoInPhase(g, req, IsWriting) && g.uploading[req].phase.written == |g.uploading[req].ticket.body|
    case Finish(req) => GoInPhase(g, req, IsStored)
    case Abandon(req) => GoInPhase(g, req, IsBroken)
    case Cancel(req, _) => GoFresh(g, req)
  }

  // ---- effects ----------------------------------------------------------------------

  function GoAnswer(g: GoWorld, req: Req, reply: Reply): GoWorld {
    g.(asking := g.asking - {req}, uploading := g.uploading - {req}, replies := g.replies[req := reply])
  }

  function SetIdle(g: GoWorld): GoWorld {
    g.(state := StateIdle, sessionId := "")
  }

  function GoSetPhase(g: GoWorld, req: Req, phase: Phase): GoWorld
    requires req in g.uploading
  {
    g.(uploading := g.uploading[req := g.uploading[req].(phase := phase)])
  }

  /** An empty file map is not refused. */
  function GoBeginPrepare(g: GoWorld, req: Req, prepare: Prepare): GoWorld {
    if !g.state.StateIdle? then GoAnswer(g, req, Status(409))
    else g.(state := StatePending, asking := g.asking[req := Asking(prepare, false)])
  }

  function GoApprove(g: GoWorld, req: Req, now: string): GoWorld
    requires req in g.asking
  {
    var prepare := g.asking[req].prepare;
    g.(trust := if prepare.info.fingerprint in g.trust then g.trust
                else g.trust[prepare.info.fingerprint := Trust.TrustedDevice(prepare.info.alias, now)],
       asking := g.asking[req := Asking(prepare, true)])
  }

  function GoOpen(g: GoWorld, req: Req, sid: string, tokens: map<string, string>): GoWorld
    requires req in g.asking
  {
    var prepare := g.asking[req].prepare;
    GoAnswer(g.(state := StateSending, sessionId := sid, files := prepare.files, tokens := tokens,
                remaining := prepare.files.Keys, fromAlias := prepare.info.alias,
                issued := g.issued + {sid} + tokens.Values),
             req, Granted(sid, tokens))
  }

  /** Whether the file was received before is not looked at. */
  predicate GoValid(g: GoWorld, sid: string, fid: string, token: string) {
    g.state.StateSending? && sid == g.sessionId && fid in g.tokens && g.tokens[fid] == token && token != ""
  }

  function GoBeginUpload(g: GoWorld, req: Req, sid: string, fid: string, token: string, body: Bytes): GoWorld {
    if GoValid(g, sid, fid, token) then
      var meta := if fid in g.files then g.files[fid] else FileMeta("", 0, "");
      g.(uploading := g.uploading[req := Upload(Ticket(sid, fid, token, meta, g.fromAlias, body), Ready)])
    else GoAnswer(g, req, Status(404))
  }

  function GoTarget(folder: map<string, Bytes>, t: Ticket): string {
    Collision.GoResolve(folder.Keys, Collision.GoBase(t.meta.name))
  }

  function GoCreate(g: GoWorld, req: Req): GoWorld
    requires req in g.uploading
  {
    var path := GoTarget(g.folder, g.uploading[req].ticket);
    GoSetPhase(g.(folder := g.folder[path := []]), req, Writing(path, 0))
  }

  function GoChunk(g: GoWorld, req: Req, count: nat): GoWorld
    requires GoInPhase(g, req, IsWriting)
    requires g.uploading[req].phase.written + count <= |g.uploading[req].ticket.body|
  {
    var u := g.uploading[req];
    var upto := u.phase.written + count;
    GoSetPhase(g.(folder := g.folder[u.phase.path := Contents(g.folder, u.phase.path) + u.ticket.body[u.phase.written..upto]]),
               req, Writing(u.phase.path, upto))
  }

  function GoBreak(g: GoWorld, req: Req): GoWorld
    requires GoInPhase(g, req, IsWriting)
  {
    GoSetPhase(g.(folder := g.folder - {g.uploading[req].phase.path}), req, Broken)
  }

  /** The last file takes the receiver to idle, whatever it was doing. */
  function GoFinish(g: GoWorld, req: Req): GoWorld
    requires GoInPhase(g, req, IsStored)
  {
    var remaining := g.remaining - {g.uploading[req].ticket.fileId};
    var h := g.(remaining := remaining);
    GoAnswer(if remaining == {} then SetIdle(h) else h, req, Status(200))
  }

  function GoCancel(g: GoWorld, req: Req, sid: string): GoWorld {
    GoAnswer(if g.state.StateSending? && sid == g.sessionId then SetIdle(g) else g, req, Status(200))
  }

  function GoStep(g: GoWorld, a: Action): GoWorld
    requires GoEnabled(g, a)
  {
    match a
    case BeginPrepare(req, prepare) => GoBeginPrepare(g, req, prepare)
    case TimeOut(req) => GoAnswer(SetIdle(g), req, Status(408))
    case Reject(req) => GoAnswer(SetIdle(g), req, Status(403))
    case Approve(req, now) => GoApprove(g, req, now)
    case Open(req, sid, tokens) => GoOpen(g, req, sid, tokens)
    case BeginUpload(req, sid, fid, token, body) => GoBeginUpload(g, req, sid, fid, token, body)
    case Create(req) => GoCreate(g, req)
    case CreateFails(req) => GoSetPhase(g, req, Broken)
    case Chunk(req, count) => GoChunk(g, req, count)
    case BodyFails(req) => GoBreak(g, req)
    case EndBody(req) => GoSetPhase(g, req, Stored(g.uploading[req].phase.path))
    case Finish(req) => GoFinish(g, req)
    case Abandon(req) => GoAnswer(SetIdle(g), req, Status(500))
    case Cancel(req, sid) => GoCancel(g, req, sid)
  }

  predicate GoBoot(g: GoWorld) {
    g.state.StateIdle? && g.asking == map[] && g.uploading == map[] && g.replies == map[] && g.issued == {}
  }
}
