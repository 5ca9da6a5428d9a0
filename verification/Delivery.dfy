/** A sender's job (`send_files` with `Sender`) running against the receiver, message by
    message: requests and replies may be late or lost, the job may be aborted at any point,
    and other clients' requests interleave. */
module Delivery {
  import opened Text
  import opened Protocol
  import opened Receiving
  import opened ReceiverInvariant
  import opened Folder

  /** What the user sends: file names and contents, which do not change during the job. */
  datatype Plan = Plan(self: PeerInfo, names: seq<string>, contents: seq<Bytes>)

  predicate ValidPlan(plan: Plan) {
    |plan.names| == |plan.contents|
  }

  function FileId(i: nat): string {
    "f" + Decimal(i + 1)
  }

  function Meta(plan: Plan, i: nat): FileMeta
    requires ValidPlan(plan) && i < |plan.names|
  {
    FileMeta(plan.names[i], |plan.contents[i]|, "application/octet-stream")
  }

  /** The `metas` map after the first `n` files. */
  function Metas(plan: Plan, n: nat): map<string, FileMeta>
    requires ValidPlan(plan) && n <= |plan.names|
  {
    if n == 0 then map[] else Metas(plan, n - 1)[FileId(n - 1) := Meta(plan, n - 1)]
  }

  function Request(plan: Plan): Prepare
    requires ValidPlan(plan)
  {
    Prepare(plan.self, Metas(plan, |plan.names|))
  }

  /** A file's id looks its own entry up. */
  lemma {:induction false} MetaOfFile(plan: Plan, n: nat, i: nat)
    requires ValidPlan(plan) && i < n <= |plan.names|
    ensures FileId(i) in Metas(plan, n) && Metas(plan, n)[FileId(i)] == Meta(plan, i)
  {
    if i < n - 1 {
      MetaOfFile(plan, n - 1, i);
      if FileId(i) == FileId(n - 1) {
        assert Decimal(i + 1) == FileId(i)[1..] && Decimal(n) == FileId(n - 1)[1..];
        DecimalInjective(i + 1, n);
      }
    }
  }

  // ---- the sender -------------------------------------------------------------------

  datatype Outcome = Done | Failed | Canceled

  /** The program points of the job; `acked` counts the files answered 200. */
  datatype Client =
    | Start
    | Waiting(req: Req)
    | Looping(sessionId: string, tokens: map<string, string>, acked: nat)
    | Uploading(sessionId: string, tokens: map<string, string>, acked: nat, req: Req)
    | Stopping(sessionId: string, acked: nat, outcome: Outcome)
    | Over(acked: nat, outcome: Outcome)

  datatype Message =
    | PrepareMsg
    | UploadMsg(sessionId: string, fileId: string, token: string, index: nat)
    | CancelMsg(sessionId: string)

  /** `wire` holds the requests that were sent and have neither arrived nor been lost; `asked`
      is the prepare request, `uploads` the upload requests in order, `mine` all of them. */
  datatype System = System(
    world: World,
    client: Client,
    wire: map<Req, Message>,
    mine: set<Req>,
    asked: seq<Req>,
    uploads: seq<Req>)

  datatype Move =
    | Other(a: Action)
    | Arrive(req: Req)
    | Lose(req: Req)
    | SendPrepare(req: Req)
    | PrepareAnswered
    | PrepareLost
    | SendUpload(req: Req)
    | OpenFails
    | UploadAnswered
    | UploadLost
    | AllSent
    | Abort
    | SendCancel(req: Req)
    | CancelLost

  predicate Begins(a: Action) {
    a.BeginPrepare? || a.BeginUpload? || a.Cancel?
  }

  function ArrivalOf(plan: Plan, req: Req, m: Message): Action
    requires ValidPlan(plan) && (m.UploadMsg? ==> m.index < |plan.contents|)
  {
    match m
    case PrepareMsg => BeginPrepare(req, Request(plan))
    case UploadMsg(sid, fid, token, i) => BeginUpload(req, sid, fid, token, plan.contents[i])
    case CancelMsg(sid) => Cancel(req, sid)
  }

  predicate Unused(s: System, req: Req) {
    req !in s.mine && Fresh(s.world, req)
  }

  predicate Can(plan: Plan, s: System, m: Move)
    requires ValidPlan(plan)
  {
    match m
    case Other(a) => Enabled(s.world, a) && (Begins(a) ==> a.req !in s.mine)
    case Arrive(req) =>
      req in s.wire && Fresh(s.world, req) && (s.wire[req].UploadMsg? ==> s.wire[req].index < |plan.contents|)
    case Lose(req) => req in s.wire
    case SendPrepare(req) => s.client.Start? && Unused(s, req)
    case PrepareAnswered => s.client.Waiting? && s.client.req in s.world.replies
    case PrepareLost => s.client.Waiting?
    case SendUpload(req) =>
      s.client.Looping? && s.client.acked < |plan.names| && FileId(s.client.acked) in s.client.tokens && Unused(s, req)
    case OpenFails => s.client.Looping? && s.client.acked < |plan.names|
    case UploadAnswered => s.client.Uploading? && s.client.req in s.world.replies
    case UploadLost => s.client.Uploading?
    case AllSent => s.client.Looping? && s.client.acked == |plan.names|
    case Abort => !s.client.Over? && !(s.client.Stopping? && s.client.outcome.Canceled?)
    case SendCancel(req) => s.client.Stopping? && Unused(s, req)
    case CancelLost => s.client.Stopping?
  }

  function Next(plan: Plan, s: System, m: Move): System
    requires ValidPlan(plan) && Can(plan, s, m)
  {
    match m
    case Other(a) => s.(world := Step(s.world, a))
    case Arrive(req) => s.(world := Step(s.world, ArrivalOf(plan, req, s.wire[req])), wire := s.wire - {req})
    case Lose(req) => s.(wire := s.wire - {req})
    case SendPrepare(req) =>
      s.(client := Waiting(req), wire := s.wire[req := PrepareMsg], mine := s.mine + {req}, asked := s.asked + [req])
    case PrepareAnswered =>
      (match s.world.replies[s.client.req]
       case Granted(sid, tokens) => s.(client := Looping(sid, tokens, 0))
       case Status(_) => s.(client := Over(0, Failed)))
    case PrepareLost => s.(client := Over(0, Failed))
    case SendUpload(req) =>
      var c := s.client;
      s.(client := Uploading(c.sessionId, c.tokens, c.acked, req),
         wire := s.wire[req := UploadMsg(c.sessionId, FileId(c.acked), c.tokens[FileId(c.acked)], c.acked)],
         mine := s.mine + {req}, uploads := s.uploads + [req])
    case OpenFails => s.(client := Stopping(s.client.sessionId, s.client.acked, Failed))
    case UploadAnswered =>
      var c := s.client;
      if s.world.replies[c.req] == Status(200) then s.(client := Looping(c.sessionId, c.tokens, c.acked + 1))
      else s.(client := Stopping(c.sessionId, c.acked, Failed))
    case UploadLost => s.(client := Stopping(s.client.sessionId, s.client.acked, Failed))
    case AllSent => s.(client := Over(s.client.acked, Done))
    case Abort =>
      if s.client.Start? || s.client.Waiting? then s.(client := Over(0, Canceled))
      else s.(client := Stopping(s.client.sessionId, s.client.acked, Canceled))
    case SendCancel(req) =>
      s.(client := Over(s.client.acked, s.client.outcome),
         wire := s.wire[req := CancelMsg(s.client.sessionId)], mine := s.mine + {req})
    case CancelLost => s.(client := Over(s.client.acked, s.client.outcome))
  }

  predicate Initial(s: System) {
    Boot(s.world) && s.client.Start? && s.wire == map[] && s.mine == {} && s.asked == [] && s.uploads == []
  }

  ghost predicate Execution(plan: Plan, trace: seq<System>, moves: seq<Move>)
    requires ValidPlan(plan)
  {
    && |trace| == |moves| + 1
    && Initial(trace[0])
    && forall k | 0 <= k < |moves| :: Can(plan, trace[k], moves[k]) && trace[k + 1] == Next(plan, trace[k], moves[k])
  }

  // ---- what the job knows -----------------------------------------------------------

  /** Session `sid` was opened for this plan. */
  ghost predicate Ours(plan: Plan, log: seq<Event>, sid: string)
    requires ValidPlan(plan)
  {
    exists e :: e in log && e.Opened? && e.sessionId == sid && e.prepare == Request(plan)
  }

  predicate CarriesFile(plan: Plan, t: Ticket, i: nat)
    requires ValidPlan(plan) && i < |plan.names|
  {
    t.body == plan.contents[i] && t.meta == Meta(plan, i)
  }

  /** The request that sends file `i`, wherever it is. */
  ghost predicate UploadOk(plan: Plan, w: World, wire: map<Req, Message>, req: Req, i: nat)
    requires ValidPlan(plan) && i < |plan.names|
  {
    if req in wire then
      && wire[req].UploadMsg? && wire[req].index == i && wire[req].fileId == FileId(i)
      && Ours(plan, w.log, wire[req].sessionId)
      && Fresh(w, req)
    else if Fresh(w, req) then true
    else
      || (exists t :: Accepted(req, t) in w.log && CarriesFile(plan, t, i))
      || (req in w.replies && w.replies[req] == Status(404))
  }

  /** File `i` is stored, as the upload `req`. */
  ghost predicate FileStored(plan: Plan, log: seq<Event>, req: Req, i: nat)
    requires ValidPlan(plan) && i < |plan.names|
  {
    exists e :: e in log && e.Saved? && e.req == req && CarriesFile(plan, e.ticket, i)
  }

  ghost predicate UploadsOk(plan: Plan, w: World, wire: map<Req, Message>, uploads: seq<Req>)
    requires ValidPlan(plan)
  {
    && |uploads| <= |plan.names|
    && forall i | 0 <= i < |uploads| :: UploadOk(plan, w, wire, uploads[i], i)
  }

  ghost predicate AckedOk(plan: Plan, log: seq<Event>, uploads: seq<Req>, acked: nat)
    requires ValidPlan(plan)
  {
    && acked <= |uploads| <= |plan.names|
    && forall i | 0 <= i < acked :: FileStored(plan, log, uploads[i], i)
  }

  /** The prepare request asked for this plan, if it was asked at all. */
  ghost predicate AskedOk(plan: Plan, w: World, wire: map<Req, Message>, asked: seq<Req>)
    requires ValidPlan(plan)
  {
    && |asked| <= 1
    && (asked != [] ==>
          && (asked[0] in wire ==> wire[asked[0]].PrepareMsg? && Fresh(w, asked[0]))
          && forall p | Asked(asked[0], p) in w.log :: p == Request(plan))
  }

  /** Requests are told apart. */
  ghost predicate MineOk(s: System) {
    && s.wire.Keys <= s.mine
    && (forall r | r in s.asked :: r in s.mine && r !in s.uploads)
    && (forall r | r in s.uploads :: r in s.mine)
    && (forall i, j | 0 <= i < j < |s.uploads| :: s.uploads[i] != s.uploads[j])
    && (forall r | r in s.wire :: (s.wire[r].PrepareMsg? ==> r in s.asked) && (s.wire[r].UploadMsg? ==> r in s.uploads))
  }

  /** Where the job stands agrees with what it has sent and heard. */
  ghost predicate PointOk(plan: Plan, s: System)
    requires ValidPlan(plan)
  {
    match s.client
    case Start => s.asked == [] && s.uploads == []
    case Waiting(req) => s.asked == [req] && s.uploads == []
    case Looping(sid, tokens, acked) =>
      && |s.uploads| == acked && Ours(plan, s.world.log, sid) && tokens.Keys == Request(plan).files.Keys
      && plan.names != []
    case Uploading(sid, tokens, acked, req) =>
      && |s.uploads| == acked + 1 && s.uploads[acked] == req && Ours(plan, s.world.log, sid)
      && tokens.Keys == Request(plan).files.Keys && plan.names != []
    case Stopping(_, acked, outcome) => acked <= |s.uploads| <= acked + 1 && !outcome.Done?
    case Over(acked, outcome) =>
      && acked <= |s.uploads| <= acked + 1
      && (outcome.Done? ==> acked == |s.uploads| == |plan.names| && plan.names != [])
  }

  function Acked(c: Client): nat {
    match c
    case Start => 0
    case Waiting(_) => 0
    case Looping(_, _, acked) => acked
    case Uploading(_, _, acked, _) => acked
    case Stopping(_, acked, _) => acked
    case Over(acked, _) => acked
  }

  ghost predicate SysInv(plan: Plan, s: System, base: map<string, Bytes>)
    requires ValidPlan(plan)
  {
    && Inv(s.world) && Accounted(s.world, base)
    && UploadsOk(plan, s.world, s.wire, s.uploads)
    && AckedOk(plan, s.world.log, s.uploads, Acked(s.client))
    && AskedOk(plan, s.world, s.wire, s.asked)
    && MineOk(s)
    && PointOk(plan, s)
  }

  // ---- the receiver's steps keep it -------------------------------------------------

  lemma OursGrows(plan: Plan, log: seq<Event>, log': seq<Event>, sid: string)
    requires ValidPlan(plan) && log <= log' && Ours(plan, log, sid)
    ensures Ours(plan, log', sid)
  {
    var e :| e in log && e.Opened? && e.sessionId == sid && e.prepare == Request(plan);
    assert e in log';
  }

  lemma AckedGrows(plan: Plan, log: seq<Event>, log': seq<Event>, uploads: seq<Req>, acked: nat)
    requires ValidPlan(plan) && log <= log' && AckedOk(plan, log, uploads, acked)
    ensures AckedOk(plan, log', uploads, acked)
  {
    forall i | 0 <= i < acked ensures FileStored(plan, log', uploads[i], i) {
      assert FileStored(plan, log, uploads[i], i);
      var e :| e in log && e.Saved? && e.req == uploads[i] && CarriesFile(plan, e.ticket, i);
      assert e in log';
    }
  }

  /** An action of another request, or of this one's handler. */
  lemma UploadStays(plan: Plan, w: World, wire: map<Req, Message>, req: Req, i: nat, a: Action)
    requires ValidPlan(plan) && i < |plan.names| && UploadOk(plan, w, wire, req, i)
    requires Enabled(w, a) && Apart(w.asking, w.uploading, w.replies) && (Begins(a) ==> a.req != req)
    ensures UploadOk(plan, Step(w, a), wire, req, i)
  {
    hide Step, Enabled, Begins, Apart, Fresh, FileStored, CarriesFile;
    LogGrows(w, a);
    if a.req != req {
      OtherRequests(w, a, req);
    } else {
      HandledBefore(w, a);
      HandledStaysKnown(w, a);
    }
    var v := Step(w, a);
    if req in wire {
      OursGrows(plan, w.log, v.log, wire[req].sessionId);
    } else if !Fresh(w, req) && exists t :: Accepted(req, t) in w.log && CarriesFile(plan, t, i) {
      var t :| Accepted(req, t) in w.log && CarriesFile(plan, t, i);
      assert Accepted(req, t) in v.log;
    }
  }

  lemma HandledBefore(w: World, a: Action)
    requires Enabled(w, a) && Apart(w.asking, w.uploading, w.replies) && !Begins(a)
    ensures !Fresh(w, a.req) && a.req !in w.replies
  {
    assert a.req in w.asking || a.req in w.uploading;
  }

  lemma HandledStaysKnown(w: World, a: Action)
    requires Enabled(w, a)
    ensures !Fresh(Step(w, a), a.req)
  {
    hide FreshNames, Target, Contents, ValidUpload, AfterReceived;
  }

  lemma AskedStays(plan: Plan, w: World, wire: map<Req, Message>, asked: seq<Req>, a: Action)
    requires ValidPlan(plan) && AskedOk(plan, w, wire, asked) && Enabled(w, a)
    requires Begins(a) ==> a.req !in asked
    ensures AskedOk(plan, Step(w, a), wire, asked)
  {
    if asked != [] {
      if a.req != asked[0] {
        OtherRequests(w, a, asked[0]);
        OtherEvents(w, a, asked[0]);
      } else {
        OnlyPrepareAsks(w, a);
      }
    }
  }

  lemma OnlyPrepareAsks(w: World, a: Action)
    requires Enabled(w, a) && !Begins(a)
    ensures forall r, p | Asked(r, p) in Step(w, a).log :: Asked(r, p) in w.log
    ensures !Fresh(w, a.req)
  {
    hide FreshNames, Target, Contents, ValidUpload, AfterReceived;
  }

  lemma PointStays(plan: Plan, s: System, s': System)
    requires ValidPlan(plan) && PointOk(plan, s) && s.world.log <= s'.world.log
    requires s'.client == s.client && s'.asked == s.asked && s'.uploads == s.uploads
    ensures PointOk(plan, s')
  {
    if s.client.Looping? || s.client.Uploading? {
      OursGrows(plan, s.world.log, s'.world.log, s.client.sessionId);
    }
  }

  /** What a step of the receiver keeps, whoever caused it. */
  lemma ReceiverKeeps(plan: Plan, s: System, s': System, a: Action, base: map<string, Bytes>)
    requires ValidPlan(plan) && SysInv(plan, s, base) && Enabled(s.world, a) && s'.world == Step(s.world, a)
    requires s'.client == s.client && s'.asked == s.asked && s'.uploads == s.uploads
    ensures Inv(s'.world) && Accounted(s'.world, base)
    ensures AckedOk(plan, s'.world.log, s'.uploads, Acked(s'.client))
    ensures PointOk(plan, s')
  {
    assert Apart(s.world.asking, s.world.uploading, s.world.replies);
    hide Inv, Apart, Accounted, AckedOk, PointOk, UploadsOk, AskedOk, MineOk, Step, Enabled;
    StepKeeps(s.world, a);
    AccountedStep(s.world, a, base);
    LogGrows(s.world, a);
    AckedGrows(plan, s.world.log, s'.world.log, s.uploads, Acked(s.client));
    PointStays(plan, s, s');
  }

  lemma InvHasApart(w: World)
    requires Inv(w)
    ensures Apart(w.asking, w.uploading, w.replies)
  {
  }

  lemma OtherKeeps(plan: Plan, s: System, a: Action, base: map<string, Bytes>)
    requires ValidPlan(plan) && SysInv(plan, s, base) && Can(plan, s, Other(a))
    ensures SysInv(plan, s.(world := Step(s.world, a)), base)
  {
    hide Inv, Accounted, AckedOk, PointOk, AskedOk, UploadOk, Step, Enabled, Fresh;
    var s' := s.(world := Step(s.world, a));
    ReceiverKeeps(plan, s, s', a, base);
    InvHasApart(s.world);
    forall i | 0 <= i < |s.uploads| ensures UploadOk(plan, s'.world, s.wire, s.uploads[i], i) {
      UploadStays(plan, s.world, s.wire, s.uploads[i], i, a);
    }
    AskedStays(plan, s.world, s.wire, s.asked, a);
  }

  /** The request for file `i` reaches the receiver. */
  lemma UploadArrives(plan: Plan, w: World, req: Req, sid: string, token: string, i: nat)
    requires ValidPlan(plan) && i < |plan.names| && Inv(w) && Fresh(w, req) && Ours(plan, w.log, sid)
    ensures var v := DoBeginUpload(w, req, sid, FileId(i), token, plan.contents[i]);
            || (exists t :: Accepted(req, t) in v.log && CarriesFile(plan, t, i))
            || (req in v.replies && v.replies[req] == Status(404))
  {
    hide FilesOk, RequestsOk, Grounded;
    if ValidUpload(w.state, sid, FileId(i), token) && FileId(i) in w.state.session.files {
      var s := w.state.session;
      var o :| o in w.log && Opens(o, s);
      var e :| e in w.log && e.Opened? && e.sessionId == sid && e.prepare == Request(plan);
      assert o == e;
      MetaOfFile(plan, |plan.names|, i);
      var t := Ticket(sid, FileId(i), token, s.files[FileId(i)], s.fromAlias, plan.contents[i]);
      assert CarriesFile(plan, t, i);
      assert Accepted(req, t) in DoBeginUpload(w, req, sid, FileId(i), token, plan.contents[i]).log;
    }
  }

  lemma WireApart(plan: Plan, w: World, wire: map<Req, Message>, wire': map<Req, Message>, req: Req, i: nat)
    requires ValidPlan(plan) && i < |plan.names| && UploadOk(plan, w, wire, req, i)
    requires (req in wire' <==> req in wire) && (req in wire ==> wire'[req] == wire[req])
    ensures UploadOk(plan, w, wire', req, i)
  {
  }

  lemma ArriveUploads(plan: Plan, s: System, req: Req, base: map<string, Bytes>)
    requires ValidPlan(plan) && SysInv(plan, s, base) && Can(plan, s, Arrive(req))
    ensures UploadsOk(plan, Next(plan, s, Arrive(req)).world, s.wire - {req}, s.uploads)
  {
    hide Accounted, AckedOk, PointOk, AskedOk, Inv, Step, Enabled, Accounted, Fresh;
    var a := ArrivalOf(plan, req, s.wire[req]);
    ArrivalEnabled(plan, s, req);
    var w, v := s.world, Step(s.world, a);
    InvHasApart(w);
    forall i | 0 <= i < |s.uploads| ensures UploadOk(plan, v, s.wire - {req}, s.uploads[i], i) {
      if s.uploads[i] == req {
        var m := s.wire[req];
        UploadArrives(plan, w, req, m.sessionId, m.token, i);
        assert v == DoBeginUpload(w, req, m.sessionId, FileId(i), m.token, plan.contents[i]) by { StepIsUpload(w, a); }
      } else {
        UploadStays(plan, w, s.wire, s.uploads[i], i, a);
        WireApart(plan, v, s.wire, s.wire - {req}, s.uploads[i], i);
      }
    }
  }

  lemma StepIsUpload(w: World, a: Action)
    requires Enabled(w, a) && a.BeginUpload?
    ensures Step(w, a) == DoBeginUpload(w, a.req, a.sessionId, a.fileId, a.token, a.body)
  {
  }

  lemma ArrivalEnabled(plan: Plan, s: System, req: Req)
    requires ValidPlan(plan) && Can(plan, s, Arrive(req))
    ensures Enabled(s.world, ArrivalOf(plan, req, s.wire[req]))
    ensures ArrivalOf(plan, req, s.wire[req]).req == req
  {
  }

  lemma ArriveAsked(plan: Plan, s: System, req: Req)
    requires ValidPlan(plan) && AskedOk(plan, s.world, s.wire, s.asked) && MineOk(s) && Can(plan, s, Arrive(req))
    ensures AskedOk(plan, Next(plan, s, Arrive(req)).world, s.wire - {req}, s.asked)
  {
    var a := ArrivalOf(plan, req, s.wire[req]);
    ArrivalEnabled(plan, s, req);
    if req in s.asked {
      assert a == BeginPrepare(req, Request(plan));
      assert forall p | Asked(req, p) in DoBeginPrepare(s.world, req, Request(plan)).log :: p == Request(plan);
    } else {
      AskedStays(plan, s.world, s.wire, s.asked, a);
    }
  }

  lemma ArriveKeeps(plan: Plan, s: System, req: Req, base: map<string, Bytes>)
    requires ValidPlan(plan) && SysInv(plan, s, base) && Can(plan, s, Arrive(req))
    ensures SysInv(plan, Next(plan, s, Arrive(req)), base)
  {
    hide Inv, Accounted, AckedOk, PointOk, AskedOk, UploadsOk, Step, Enabled, Fresh, ArrivalOf;
    var s' := Next(plan, s, Arrive(req));
    ArrivalEnabled(plan, s, req);
    ReceiverKeeps(plan, s, s', ArrivalOf(plan, req, s.wire[req]), base);
    ArriveUploads(plan, s, req, base);
    ArriveAsked(plan, s, req);
  }

  // ---- the sender's steps keep it ---------------------------------------------------

  lemma EventIndex(log: seq<Event>, e: Event) returns (k: nat)
    requires e in log
    ensures k < |log| && log[k] == e
  {
    k :| 0 <= k < |log| && log[k] == e;
  }

  /** An opened session was asked for by the same request, with at least one file. */
  lemma OpenedWasAsked(log: seq<Event>, e: Event)
    requires Grounded(log) && e in log && e.Opened?
    ensures Asked(e.req, e.prepare) in log && e.prepare.files != map[] && e.tokens.Keys == e.prepare.files.Keys
  {
    var k := EventIndex(log, e);
    var h, i := OpenedGoesBack(log, k);
    JustifiedAt(log, h);
    JustifiedAt(log, k);
  }

  /** A granted prepare request opened a session for this plan, with a token for every file:
      the job's unguarded `session.tokens[file_id]` never misses. */
  lemma {:induction false} GrantIsOurs(plan: Plan, w: World, wire: map<Req, Message>, req: Req)
    requires ValidPlan(plan) && Inv(w) && AskedOk(plan, w, wire, [req])
    requires req in w.replies && w.replies[req].Granted?
    ensures Ours(plan, w.log, w.replies[req].sessionId)
    ensures w.replies[req].tokens.Keys == Request(plan).files.Keys
    ensures plan.names != []
  {
    hide SessionOk, IdsOk, FilesOk, AskingOk, AcceptedOk, Grounded;
    var reply := w.replies[req];
    var e :| e in w.log && Grants(e, req, reply.sessionId, reply.tokens);
    OpenedWasAsked(w.log, e);
    assert e.prepare == Request(plan);
  }

  /** An upload answered 200 is stored. */
  lemma {:induction false} AnswerMeansStored(plan: Plan, w: World, wire: map<Req, Message>, req: Req, i: nat)
    requires ValidPlan(plan) && i < |plan.names| && Inv(w) && UploadOk(plan, w, wire, req, i)
    requires req in w.replies && w.replies[req] == Status(200)
    ensures FileStored(plan, w.log, req, i)
  {
    hide SessionOk, IdsOk, FilesOk, AskingOk, GrantedOk, Grounded, Ours;
    var t :| Accepted(req, t) in w.log && CarriesFile(plan, t, i);
    var e :| e in w.log && SavedReq(e, req, t);
  }

  lemma SendPrepareKeeps(plan: Plan, s: System, req: Req, base: map<string, Bytes>)
    requires ValidPlan(plan) && SysInv(plan, s, base) && Can(plan, s, SendPrepare(req))
    ensures SysInv(plan, Next(plan, s, SendPrepare(req)), base)
  {
    hide Accounted, SessionOk, IdsOk, FilesOk, AcceptedOk, Grounded, AskingOk;
    var s' := Next(plan, s, SendPrepare(req));
    assert forall p :: Asked(req, p) !in s.world.log;
    assert AskedOk(plan, s'.world, s'.wire, s'.asked);
    assert s'.uploads == [];
  }

  lemma SendUploadKeeps(plan: Plan, s: System, req: Req, base: map<string, Bytes>)
    requires ValidPlan(plan) && SysInv(plan, s, base) && Can(plan, s, SendUpload(req))
    ensures SysInv(plan, Next(plan, s, SendUpload(req)), base)
  {
    hide Accounted, Inv, Ours, Fresh, FileStored, UploadOk;
    var s' := Next(plan, s, SendUpload(req));
    var n := |s.uploads|;
    forall i | 0 <= i < |s'.uploads| ensures UploadOk(plan, s'.world, s'.wire, s'.uploads[i], i) {
      if i < n {
        assert s'.uploads[i] == s.uploads[i] && s.uploads[i] in s.mine;
        WireApart(plan, s.world, s.wire, s'.wire, s.uploads[i], i);
      } else {
        NewUploadOk(plan, s, req, s.client.sessionId, s.client.tokens[FileId(n)], n);
      }
    }
    forall i | 0 <= i < n ensures FileStored(plan, s'.world.log, s'.uploads[i], i) {
      assert s'.uploads[i] == s.uploads[i];
    }
  }

  lemma NewUploadOk(plan: Plan, s: System, req: Req, sid: string, token: string, i: nat)
    requires ValidPlan(plan) && i < |plan.names| && Ours(plan, s.world.log, sid) && Fresh(s.world, req)
    ensures UploadOk(plan, s.world, s.wire[req := UploadMsg(sid, FileId(i), token, i)], req, i)
  {
  }

  lemma LoseKeeps(plan: Plan, s: System, req: Req, base: map<string, Bytes>)
    requires ValidPlan(plan) && SysInv(plan, s, base) && Can(plan, s, Lose(req))
    ensures SysInv(plan, Next(plan, s, Lose(req)), base)
  {
    hide Accounted, Inv, Ours, FileStored, PointOk, Fresh;
    var s' := Next(plan, s, Lose(req));
    forall i | 0 <= i < |s.uploads| ensures UploadOk(plan, s.world, s'.wire, s.uploads[i], i) {
      assert UploadOk(plan, s.world, s.wire, s.uploads[i], i);
    }
    assert PointOk(plan, s') by { PointStays(plan, s, s'); }
  }

  lemma SendCancelKeeps(plan: Plan, s: System, req: Req, base: map<string, Bytes>)
    requires ValidPlan(plan) && SysInv(plan, s, base) && Can(plan, s, SendCancel(req))
    ensures SysInv(plan, Next(plan, s, SendCancel(req)), base)
  {
    hide Accounted, Inv, Ours, FileStored, Fresh, UploadOk;
    var s' := Next(plan, s, SendCancel(req));
    forall i | 0 <= i < |s.uploads| ensures UploadOk(plan, s.world, s'.wire, s.uploads[i], i) {
      assert s.uploads[i] in s.mine;
      WireApart(plan, s.world, s.wire, s'.wire, s.uploads[i], i);
    }
  }

  lemma PrepareAnsweredKeeps(plan: Plan, s: System, base: map<string, Bytes>)
    requires ValidPlan(plan) && SysInv(plan, s, base) && Can(plan, s, PrepareAnswered)
    ensures SysInv(plan, Next(plan, s, PrepareAnswered), base)
  {
    hide Accounted, Inv, Ours, FileStored, Fresh, UploadOk;
    var req := s.client.req;
    if s.world.replies[req].Granted? {
      GrantIsOurs(plan, s.world, s.wire, req);
    }
  }

  lemma UploadAnsweredKeeps(plan: Plan, s: System, base: map<string, Bytes>)
    requires ValidPlan(plan) && SysInv(plan, s, base) && Can(plan, s, UploadAnswered)
    ensures SysInv(plan, Next(plan, s, UploadAnswered), base)
  {
    hide Accounted, Inv, Ours, FileStored, Fresh, UploadOk;
    var c := s.client;
    if s.world.replies[c.req] == Status(200) {
      AnswerMeansStored(plan, s.world, s.wire, c.req, c.acked);
    }
  }

  lemma QuietKeeps(plan: Plan, s: System, m: Move, base: map<string, Bytes>)
    requires ValidPlan(plan) && SysInv(plan, s, base) && Can(plan, s, m)
    requires m.PrepareLost? || m.OpenFails? || m.UploadLost? || m.AllSent? || m.Abort? || m.CancelLost?
    ensures SysInv(plan, Next(plan, s, m), base)
  {
    hide Accounted, Inv, Ours, FileStored, Fresh, UploadOk;
  }

  lemma {:induction false} MoveKeeps(plan: Plan, s: System, m: Move, base: map<string, Bytes>)
    requires ValidPlan(plan) && SysInv(plan, s, base) && Can(plan, s, m)
    ensures SysInv(plan, Next(plan, s, m), base)
  {
    match m
    case Other(a) => OtherKeeps(plan, s, a, base);
    case Arrive(req) => ArriveKeeps(plan, s, req, base);
    case Lose(req) => LoseKeeps(plan, s, req, base);
    case SendPrepare(req) => SendPrepareKeeps(plan, s, req, base);
    case PrepareAnswered => PrepareAnsweredKeeps(plan, s, base);
    case SendUpload(req) => SendUploadKeeps(plan, s, req, base);
    case UploadAnswered => UploadAnsweredKeeps(plan, s, base);
    case SendCancel(req) => SendCancelKeeps(plan, s, req, base);
    case _ => QuietKeeps(plan, s, m, base);
  }

  lemma {:induction false} SysInvAlways(plan: Plan, trace: seq<System>, moves: seq<Move>, k: nat)
    requires ValidPlan(plan) && Execution(plan, trace, moves) && k <= |moves|
    ensures SysInv(plan, trace[k], trace[0].world.folder)
  {
    hide Can, Next;
    if k == 0 {
      BootHolds(trace[0].world);
      assert Accounted(trace[0].world, trace[0].world.folder);
    } else {
      SysInvAlways(plan, trace, moves, k - 1);
      hide SysInv;
      MoveKeeps(plan, trace[k - 1], moves[k - 1], trace[0].world.folder);
    }
  }

  // ---- end-to-end delivery ----------------------------------------------------------

  /** The file that upload `req` was saved as. */
  lemma SavedPath(plan: Plan, log: seq<Event>, req: Req, i: nat) returns (e: Event)
    requires ValidPlan(plan) && i < |plan.names| && FileStored(plan, log, req, i)
    ensures e in log && e.Saved? && e.req == req && CarriesFile(plan, e.ticket, i)
  {
    e :| e in log && e.Saved? && e.req == req && CarriesFile(plan, e.ticket, i);
  }

  /** `e` is the save of file `i`: its bytes are in the folder, under its own name or a number
      of it, at a path that was free when the receiver started. */
  ghost predicate Holds(plan: Plan, w: World, base: map<string, Bytes>, path: string, i: nat)
    requires ValidPlan(plan) && i < |plan.names|
  {
    && path in w.folder && w.folder[path] == plan.contents[i]
    && NamedAfter(path, plan.names[i])
    && path !in base
  }

  lemma SaveHolds(plan: Plan, w: World, base: map<string, Bytes>, e: Event, i: nat)
    requires ValidPlan(plan) && i < |plan.names| && Inv(w) && Accounted(w, base)
    requires e in w.log && e.Saved? && CarriesFile(plan, e.ticket, i)
    ensures Holds(plan, w, base, e.path, i)
  {
    hide SessionOk, IdsOk, RequestsOk, ContentsOk, PathsDistinct, SavedApart, SavedUnique;
    var k := EventIndex(w.log, e);
    JustifiedAt(w.log, k);
    assert SavedAt(w.log, e.path);
  }

  /** `saves` are the saves of the first uploads, each holding its file of the plan. */
  ghost predicate SavesOf(plan: Plan, w: World, base: map<string, Bytes>, uploads: seq<Req>, saves: seq<Event>)
    requires ValidPlan(plan) && |saves| <= |uploads| && |saves| <= |plan.names|
  {
    && (forall i | 0 <= i < |saves| :: saves[i] in w.log && saves[i].Saved? && saves[i].req == uploads[i])
    && (forall i | 0 <= i < |saves| :: saves[i].Saved? && Holds(plan, w, base, saves[i].path, i))
  }

  /** The paths of the first `n` uploads, all stored. */
  lemma {:induction false} Paths(plan: Plan, s: System, base: map<string, Bytes>, n: nat) returns (saves: seq<Event>)
    requires ValidPlan(plan) && Inv(s.world) && Accounted(s.world, base) && n <= |s.uploads| && n <= |plan.names|
    requires forall i | 0 <= i < n :: FileStored(plan, s.world.log, s.uploads[i], i)
    ensures |saves| == n && SavesOf(plan, s.world, base, s.uploads, saves)
  {
    hide Inv, Accounted, Holds, FileStored, CarriesFile;
    if n == 0 {
      saves := [];
    } else {
      saves := Paths(plan, s, base, n - 1);
      var e := SavedPath(plan, s.world.log, s.uploads[n - 1], n - 1);
      SaveHolds(plan, s.world, base, e, n - 1);
      saves := saves + [e];
    }
  }

  lemma SavesApart(w: World, e: Event, f: Event)
    requires Inv(w) && e in w.log && f in w.log && e.Saved? && f.Saved? && e.req != f.req
    ensures e.path != f.path
  {
  }

  lemma PathsApart(s: System, saves: seq<Event>)
    requires Inv(s.world) && MineOk(s) && |saves| <= |s.uploads|
    requires forall i | 0 <= i < |saves| :: saves[i] in s.world.log && saves[i].Saved? && saves[i].req == s.uploads[i]
    ensures forall i, j | 0 <= i < j < |saves| :: saves[i].path != saves[j].path
  {
    forall i, j | 0 <= i < j < |saves| ensures saves[i].path != saves[j].path {
      SavesApart(s.world, saves[i], saves[j]);
    }
  }

  /** The folder holds files `0 .. |paths|` of the plan at `paths`, which are all different. */
  ghost predicate HoldsAll(plan: Plan, w: World, base: map<string, Bytes>, paths: seq<string>)
    requires ValidPlan(plan)
  {
    && |paths| <= |plan.names|
    && (forall i | 0 <= i < |paths| :: Holds(plan, w, base, paths[i], i))
    && (forall i, j | 0 <= i < j < |paths| :: paths[i] != paths[j])
  }

  function PathsOf(saves: seq<Event>): (paths: seq<string>)
    requires forall i | 0 <= i < |saves| :: saves[i].Saved?
    ensures |paths| == |saves| && forall i | 0 <= i < |paths| :: paths[i] == saves[i].path
  {
    seq(|saves|, i requires 0 <= i < |saves| => saves[i].path)
  }

  /** End-to-end delivery: whatever other clients do, whatever is lost and whenever, a job that
      ends in Done had at least one file, and each of its files is in the receiver's folder,
      byte for byte, at its own path: unused when the receiver started, and saved to by no other
      upload since. */
  lemma {:induction false} EndToEnd(plan: Plan, trace: seq<System>, moves: seq<Move>, k: nat) returns (paths: seq<string>)
    requires ValidPlan(plan) && Execution(plan, trace, moves) && k <= |moves|
    requires trace[k].client.Over? && trace[k].client.outcome.Done?
    ensures 1 <= |plan.names| == |paths|
    ensures HoldsAll(plan, trace[k].world, trace[0].world.folder, paths)
    ensures OnlyOwnSaves(trace[k], paths)
  {
    var s, base := trace[k], trace[0].world.folder;
    SysInvAlways(plan, trace, moves, k);
    var saves := Paths(plan, s, base, |plan.names|);
    PathsApart(s, saves);
    paths := PathsOf(saves);
    OwnSaves(s, saves);
  }

  /** Nobody else, before or after, saved anything at the path of one of the job's files. */
  ghost predicate OnlyOwnSaves(s: System, paths: seq<string>) {
    forall i, e | 0 <= i < |paths| && e in s.world.log && e.Saved? && e.path == paths[i] ::
      i < |s.uploads| && e.req == s.uploads[i]
  }

  lemma OwnSaves(s: System, saves: seq<Event>)
    requires Inv(s.world) && |saves| <= |s.uploads|
    requires forall i | 0 <= i < |saves| :: saves[i] in s.world.log && saves[i].Saved? && saves[i].req == s.uploads[i]
    ensures OnlyOwnSaves(s, PathsOf(saves))
  {
  }

  // ---- the prefix, when there is only this sender -----------------------------------

  /** No other client sends anything. */
  ghost predicate Alone(moves: seq<Move>) {
    forall m | m in moves :: m.Other? ==> !Begins(m.a)
  }

  ghost predicate OnlyMine(s: System) {
    forall r, t | Accepted(r, t) in s.world.log :: r in s.uploads
  }

  lemma NothingAccepted(w: World, a: Action)
    requires Enabled(w, a) && !a.BeginUpload?
    ensures forall r, t | Accepted(r, t) in Step(w, a).log :: Accepted(r, t) in w.log
  {
    hide FreshNames, Target, Contents, ValidUpload, AfterReceived;
  }

  lemma OnlyMineStep(plan: Plan, s: System, m: Move)
    requires ValidPlan(plan) && Can(plan, s, m) && MineOk(s) && OnlyMine(s)
    requires m.Other? ==> !Begins(m.a)
    ensures OnlyMine(Next(plan, s, m))
  {
    if m.Other? {
      NothingAccepted(s.world, m.a);
    } else if m.Arrive? {
      ArrivalEnabled(plan, s, m.req);
      var a := ArrivalOf(plan, m.req, s.wire[m.req]);
      if a.BeginUpload? {
        StepIsUpload(s.world, a);
      } else {
        NothingAccepted(s.world, a);
      }
    }
  }

  lemma {:induction false} OnlyMineAlways(plan: Plan, trace: seq<System>, moves: seq<Move>, k: nat)
    requires ValidPlan(plan) && Execution(plan, trace, moves) && k <= |moves| && Alone(moves)
    ensures OnlyMine(trace[k])
  {
    hide Can, Next;
    if k > 0 {
      OnlyMineAlways(plan, trace, moves, k - 1);
      SysInvAlways(plan, trace, moves, k - 1);
      assert moves[k - 1] in moves;
      OnlyMineStep(plan, trace[k - 1], moves[k - 1]);
    }
  }

  /** Every save is of one of the job's files. */
  lemma SavedIsMine(plan: Plan, s: System, base: map<string, Bytes>, e: Event) returns (i: nat)
    requires ValidPlan(plan) && SysInv(plan, s, base) && OnlyMine(s) && e in s.world.log && e.Saved?
    ensures i < |s.uploads| && s.uploads[i] == e.req && FileStored(plan, s.world.log, e.req, i)
  {
    hide Accounted, SessionOk, IdsOk, FilesOk, GrantedOk, AskingOk, AskedOk, PointOk, MineOk, Ours;
    var w := s.world;
    var k := EventIndex(w.log, e);
    JustifiedAt(w.log, k);
    assert Accepted(e.req, e.ticket) in w.log;
    assert e.req in s.uploads;
    i :| 0 <= i < |s.uploads| && s.uploads[i] == e.req;
    assert UploadOk(plan, w, s.wire, s.uploads[i], i);
    AnswerMeansStored(plan, w, s.wire, e.req, i);
  }

  lemma SaveUnique(w: World, e: Event, f: Event)
    requires Inv(w) && e in w.log && f in w.log && e.Saved? && f.Saved? && e.req == f.req
    ensures e == f
  {
  }

  lemma UploadCount(plan: Plan, s: System)
    requires ValidPlan(plan) && PointOk(plan, s)
    ensures Acked(s.client) <= |s.uploads| <= Acked(s.client) + 1
  {
  }

  /** Prefix on failure: with one sender, however the run ends or was aborted and whatever was
      lost, as soon as no upload is in flight the folder is what it was at the start plus
      exactly the first `j` files, complete and byte for byte, where `j` is the number of
      acknowledged files or one more; in particular no partial file is left. */
  lemma {:induction false} PrefixOnDisk(plan: Plan, trace: seq<System>, moves: seq<Move>, k: nat) returns (paths: seq<string>)
    requires ValidPlan(plan) && Execution(plan, trace, moves) && k <= |moves| && Alone(moves)
    requires trace[k].world.uploading == map[]
    ensures Acked(trace[k].client) <= |paths| <= Acked(trace[k].client) + 1
    ensures HoldsAll(plan, trace[k].world, trace[0].world.folder, paths)
    ensures forall p | p in trace[0].world.folder ::
              p in trace[k].world.folder && trace[k].world.folder[p] == trace[0].world.folder[p]
    ensures forall p | p in trace[k].world.folder :: p in trace[0].world.folder || p in paths
  {
    var s, base := trace[k], trace[0].world.folder;
    SysInvAlways(plan, trace, moves, k);
    OnlyMineAlways(plan, trace, moves, k);
    hide Execution, Alone;
    paths := QuietFolder(plan, s, base);
  }

  lemma FirstFiles(plan: Plan, s: System, base: map<string, Bytes>) returns (saves: seq<Event>)
    requires ValidPlan(plan) && SysInv(plan, s, base)
    ensures Acked(s.client) <= |saves| <= Acked(s.client) + 1 && |saves| <= |s.uploads|
    ensures forall i | 0 <= i < |saves| :: saves[i] in s.world.log && saves[i].Saved? && saves[i].req == s.uploads[i]
    ensures HoldsAll(plan, s.world, base, PathsOf(saves))
    ensures forall i | |saves| <= i < |s.uploads| :: !FileStored(plan, s.world.log, s.uploads[i], i)
  {
    hide Inv, Accounted, UploadsOk, AskedOk, Holds, FileStored;
    UploadCount(plan, s);
    var j := Acked(s.client);
    if j < |s.uploads| && FileStored(plan, s.world.log, s.uploads[j], j) {
      j := j + 1;
    }
    saves := Paths(plan, s, base, j);
    PathsApart(s, saves);
  }

  lemma QuietFolder(plan: Plan, s: System, base: map<string, Bytes>) returns (paths: seq<string>)
    requires ValidPlan(plan) && SysInv(plan, s, base) && OnlyMine(s) && s.world.uploading == map[]
    ensures Acked(s.client) <= |paths| <= Acked(s.client) + 1
    ensures HoldsAll(plan, s.world, base, paths)
    ensures forall p | p in base :: p in s.world.folder && s.world.folder[p] == base[p]
    ensures forall p | p in s.world.folder :: p in base || p in paths
  {
    var saves := FirstFiles(plan, s, base);
    paths := PathsOf(saves);
    assert forall p :: !InFlight(s.world, p);
    hide Inv, HoldsAll, UploadsOk, AskedOk, MineOk, PointOk, FileStored, AckedOk, InFlight, Settled;
    forall p | p in base ensures p in s.world.folder && s.world.folder[p] == base[p] {
      SettledHere(s.world, base, p);
    }
    forall p | p in s.world.folder && p !in base ensures p in paths {
      var e :| e in s.world.log && e.Saved? && e.path == p;
      var i := SavedIsMine(plan, s, base, e);
      SaveUnique(s.world, e, saves[i]);
      assert paths[i] == p;
    }
  }

  lemma SettledHere(w: World, base: map<string, Bytes>, p: string)
    requires Accounted(w, base) && p in base
    ensures p in w.folder && w.folder[p] == base[p]
  {
  }
}
