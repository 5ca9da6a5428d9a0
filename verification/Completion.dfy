/** The other half of `Delivery`: a job can end in Done, whatever the files are and whatever the
    receiver's folder and trust list hold, exactly when there is a file to send. */
module Completion {
  import opened Text
  import opened Protocol
  import opened Receiving
  import opened Delivery

  /** Continues an execution by one move. */
  lemma Extend(plan: Plan, trace: seq<System>, moves: seq<Move>, m: Move) returns (trace': seq<System>, moves': seq<Move>)
    requires ValidPlan(plan) && Execution(plan, trace, moves) && Can(plan, trace[|moves|], m)
    ensures Execution(plan, trace', moves') && trace'[0] == trace[0]
    ensures trace'[|moves'|] == Next(plan, trace[|moves|], m)
  {
    hide Can, Next, Initial;
    trace', moves' := trace + [Next(plan, trace[|moves|], m)], moves + [m];
    forall k | 0 <= k < |moves'| ensures Can(plan, trace'[k], moves'[k]) && trace'[k + 1] == Next(plan, trace'[k], moves'[k]) {
      if k < |moves| {
        assert Can(plan, trace[k], moves[k]) && trace[k + 1] == Next(plan, trace[k], moves[k]);
      }
    }
  }

  /** A move of the receiver's own. */
  lemma ReceiverMove(plan: Plan, s: System, a: Action)
    requires ValidPlan(plan) && Enabled(s.world, a) && !Begins(a)
    ensures Can(plan, s, Other(a)) && Next(plan, s, Other(a)) == s.(world := Step(s.world, a))
  {
  }

  lemma ReceiverTurn(plan: Plan, trace: seq<System>, moves: seq<Move>, a: Action)
      returns (trace': seq<System>, moves': seq<Move>)
    requires ValidPlan(plan) && Execution(plan, trace, moves) && Enabled(trace[|moves|].world, a) && !Begins(a)
    ensures Execution(plan, trace', moves') && trace'[0] == trace[0]
    ensures trace'[|moves'|] == trace[|moves|].(world := Step(trace[|moves|].world, a))
  {
    hide Can, Next, Enabled, Step;
    ReceiverMove(plan, trace[|moves|], a);
    trace', moves' := Extend(plan, trace, moves, Other(a));
  }

  // ---- ids and tokens -------------------------------------------------------------------

  function Ids(n: nat): set<string> {
    if n == 0 then {} else Ids(n - 1) + {FileId(n - 1)}
  }

  lemma FileIdInjective(i: nat, j: nat)
    requires FileId(i) == FileId(j)
    ensures i == j
  {
    assert Decimal(i + 1) == FileId(i)[1..] && Decimal(j + 1) == FileId(j)[1..];
    DecimalInjective(i + 1, j + 1);
  }

  lemma {:induction false} IdInIds(n: nat, i: nat)
    ensures FileId(i) in Ids(n) <==> i < n
  {
    if n > 0 {
      IdInIds(n - 1, i);
      if FileId(i) == FileId(n - 1) { FileIdInjective(i, n - 1); }
    }
  }

  lemma {:induction false} IdsCount(n: nat)
    ensures |Ids(n)| == n
  {
    if n > 0 {
      IdsCount(n - 1);
      IdInIds(n - 1, n - 1);
    }
  }

  lemma {:induction false} MetasKeys(plan: Plan, n: nat)
    requires ValidPlan(plan) && n <= |plan.names|
    ensures Metas(plan, n).Keys == Ids(n)
  {
    if n > 0 {
      MetasKeys(plan, n - 1);
    }
  }

  /** The request of a job: its files as "f1", "f2", and so on, each with its name and its length. */
  lemma {:induction false} RequestExactly(plan: Plan, id: string)
    requires ValidPlan(plan)
    ensures Request(plan).info == plan.self
    ensures id in Request(plan).files <==> exists k :: 1 <= k <= |plan.names| && id == "f" + Decimal(k)
    ensures forall k | 1 <= k <= |plan.names| && id == "f" + Decimal(k) ::
              id in Request(plan).files
              && Request(plan).files[id] == FileMeta(plan.names[k - 1], |plan.contents[k - 1]|, "application/octet-stream")
  {
    var n := |plan.names|;
    MetasKeys(plan, n);
    if id in Request(plan).files {
      var i := IdOf(n, id);
      assert 1 <= i + 1 <= n && id == "f" + Decimal(i + 1);
    }
    forall k | 1 <= k <= n && id == "f" + Decimal(k)
      ensures id in Request(plan).files
      ensures Request(plan).files[id] == FileMeta(plan.names[k - 1], |plan.contents[k - 1]|, "application/octet-stream")
    {
      MetaOfFile(plan, n, k - 1);
    }
  }

  lemma {:induction false} IdOf(n: nat, id: string) returns (i: nat)
    requires id in Ids(n)
    ensures i < n && id == FileId(i)
  {
    if id == FileId(n - 1) { i := n - 1; } else { i := IdOf(n - 1, id); }
  }

  function Token(i: nat): string {
    "t" + Decimal(i + 1)
  }

  /** Names the random supply may give. */
  function Tokens(n: nat): map<string, string> {
    if n == 0 then map[] else Tokens(n - 1)[FileId(n - 1) := Token(n - 1)]
  }

  lemma {:induction false} TokensKeys(n: nat)
    ensures Tokens(n).Keys == Ids(n)
    ensures forall id | id in Tokens(n) :: exists i: nat :: i < n && id == FileId(i) && Tokens(n)[id] == Token(i)
  {
    if n > 0 {
      TokensKeys(n - 1);
    }
  }

  lemma TokensAreFresh(plan: Plan, w: World)
    requires ValidPlan(plan) && w.issued == {}
    ensures FreshNames(w, Request(plan).files, "s", Tokens(|plan.names|))
  {
    var n := |plan.names|;
    var tokens := Tokens(n);
    TokensKeys(n);
    MetasKeys(plan, n);
    forall id | id in tokens ensures tokens[id] != "s" && tokens[id] != "" {
      var i: nat :| i < n && id == FileId(i) && tokens[id] == Token(i);
      assert tokens[id][0] == 't';
    }
    forall a, b | a in tokens && b in tokens && tokens[a] == tokens[b] ensures a == b {
      var i: nat :| i < n && a == FileId(i) && tokens[a] == Token(i);
      var j: nat :| j < n && b == FileId(j) && tokens[b] == Token(j);
      assert Decimal(i + 1) == Token(i)[1..] && Decimal(j + 1) == Token(j)[1..];
      DecimalInjective(i + 1, j + 1);
    }
  }

  // ---- one file -------------------------------------------------------------------------

  /** The four actions by which an accepted upload runs to its end. */
  lemma {:induction false} UploadRuns(w: World, r: Req, t: Ticket)
    requires w.uploading == map[r := Upload(t, Ready)] && w.asking == map[] && |t.body| == t.meta.size
    ensures Enabled(w, Create(r))
    ensures var w1 := Step(w, Create(r));
      Enabled(w1, Chunk(r, |t.body|)) &&
      var w2 := Step(w1, Chunk(r, |t.body|));
      Enabled(w2, EndBody(r)) &&
      var w3 := Step(w2, EndBody(r));
      Enabled(w3, Finish(r)) &&
      var w4 := Step(w3, Finish(r));
      && w4.state == AfterReceived(w.state, t.fileId)
      && w4.asking == map[] && w4.uploading == map[]
      && w4.replies == w.replies[r := Status(200)]
  {
    hide Target, AfterReceived;
    var w1 := Step(w, Create(r));
    assert w1.uploading == map[r := Upload(t, Writing(Target(w, t), 0))];
    var w2 := Step(w1, Chunk(r, |t.body|));
    assert w2.uploading == map[r := Upload(t, Writing(Target(w, t), |t.body|))];
    var w3 := Step(w2, EndBody(r));
    assert w3.uploading == map[r := Upload(t, Stored(Target(w, t)))];
    assert Step(w3, Finish(r)).uploading == map[];
  }

  /** The session after `i` of the plan's files; it closes with the last one. */
  function SessionAt(plan: Plan, i: nat): State
    requires ValidPlan(plan)
  {
    if i == |plan.names| then Idle
    else Sending(Session("s", plan.self.alias, Request(plan).files, Tokens(|plan.names|), Ids(i)))
  }

  /** The job is between two files, `i` of which are stored. Request 0 was the prepare request,
      request `k + 1` sent file `k`. */
  ghost predicate Between(plan: Plan, s: System, i: nat)
    requires ValidPlan(plan)
  {
    && s.client == Looping("s", Tokens(|plan.names|), i)
    && s.world.state == SessionAt(plan, i)
    && s.world.asking == map[] && s.world.uploading == map[]
    && s.wire == map[]
    && (forall r | r in s.mine :: r <= i)
    && (forall r | r in s.world.replies :: r <= i)
  }

  lemma SessionAdvances(plan: Plan, i: nat)
    requires ValidPlan(plan) && i < |plan.names|
    ensures AfterReceived(SessionAt(plan, i), FileId(i)) == SessionAt(plan, i + 1)
  {
    IdsCount(i + 1);
    IdsCount(|plan.names|);
    MetasKeys(plan, |plan.names|);
    assert |Request(plan).files| == |Request(plan).files.Keys|;
  }

  lemma UploadIsValid(plan: Plan, i: nat)
    requires ValidPlan(plan) && i < |plan.names|
    ensures FileId(i) in Tokens(|plan.names|)
    ensures ValidUpload(SessionAt(plan, i), "s", FileId(i), Tokens(|plan.names|)[FileId(i)])
    ensures FileId(i) in Request(plan).files && Request(plan).files[FileId(i)] == Meta(plan, i)
  {
    var n := |plan.names|;
    TokensKeys(n);
    IdInIds(n, i);
    IdInIds(i, i);
    MetaOfFile(plan, n, i);
    assert FileId(i) in Ids(n);
    var k: nat :| k < n && FileId(i) == FileId(k) && Tokens(n)[FileId(i)] == Token(k);
  }

  /** File `i` as the session describes it. */
  function TicketOf(plan: Plan, i: nat): Ticket
    requires ValidPlan(plan) && i < |plan.names|
  {
    var id := FileId(i);
    Ticket("s", id, if id in Tokens(|plan.names|) then Tokens(|plan.names|)[id] else "", Meta(plan, i), plan.self.alias, plan.contents[i])
  }

  /** Sending file `i` and its arrival. */
  lemma FileArrives(plan: Plan, s: System, i: nat)
    requires ValidPlan(plan) && i < |plan.names| && Between(plan, s, i)
    ensures Can(plan, s, SendUpload(i + 1))
    ensures var s1 := Next(plan, s, SendUpload(i + 1));
      Can(plan, s1, Arrive(i + 1)) &&
      var s2 := Next(plan, s1, Arrive(i + 1));
      && s2.client == Uploading("s", Tokens(|plan.names|), i, i + 1)
      && s2.wire == map[] && s2.mine == s.mine + {i + 1}
      && s2.world.state == s.world.state && s2.world.asking == map[]
      && s2.world.replies == s.world.replies
      && s2.world.uploading == map[i + 1 := Upload(TicketOf(plan, i), Ready)]
  {
    UploadIsValid(plan, i);
    hide Tokens, Request, FileId, Meta;
    var s1 := Next(plan, s, SendUpload(i + 1));
    assert s1.wire - {i + 1} == map[];
  }

  /** The answer to file `i`. */
  lemma FileAnswered(plan: Plan, before: System, s: System, i: nat)
    requires ValidPlan(plan) && i < |plan.names| && Between(plan, before, i)
    requires s.client == Uploading("s", Tokens(|plan.names|), i, i + 1)
    requires s.wire == map[] && s.mine == before.mine + {i + 1}
    requires s.world.state == AfterReceived(before.world.state, FileId(i))
    requires s.world.asking == map[] && s.world.uploading == map[]
    requires s.world.replies == before.world.replies[i + 1 := Status(200)]
    ensures Can(plan, s, UploadAnswered) && Between(plan, Next(plan, s, UploadAnswered), i + 1)
  {
    SessionAdvances(plan, i);
    hide AfterReceived, SessionAt, Tokens;
  }

  /** An accepted upload runs to its end. */
  lemma UploadTurns(plan: Plan, trace: seq<System>, moves: seq<Move>, r: Req, t: Ticket)
      returns (trace': seq<System>, moves': seq<Move>, w: World)
    requires ValidPlan(plan) && Execution(plan, trace, moves) && |t.body| == t.meta.size
    requires trace[|moves|].world.uploading == map[r := Upload(t, Ready)] && trace[|moves|].world.asking == map[]
    ensures Execution(plan, trace', moves') && trace'[0] == trace[0]
    ensures trace'[|moves'|] == trace[|moves|].(world := w)
    ensures w.state == AfterReceived(trace[|moves|].world.state, t.fileId) && w.asking == map[] && w.uploading == map[]
    ensures w.replies == trace[|moves|].world.replies[r := Status(200)]
  {
    var s := trace[|moves|];
    UploadRuns(s.world, r, t);
    hide Execution, AfterReceived, Enabled, Step;
    trace', moves' := ReceiverTurn(plan, trace, moves, Create(r));
    trace', moves' := ReceiverTurn(plan, trace', moves', Chunk(r, |t.body|));
    trace', moves' := ReceiverTurn(plan, trace', moves', EndBody(r));
    trace', moves' := ReceiverTurn(plan, trace', moves', Finish(r));
    w := trace'[|moves'|].world;
  }

  /** A file's seven moves. */
  lemma OneFile(plan: Plan, trace: seq<System>, moves: seq<Move>, i: nat) returns (trace': seq<System>, moves': seq<Move>)
    requires ValidPlan(plan) && i < |plan.names| && Execution(plan, trace, moves) && Between(plan, trace[|moves|], i)
    ensures Execution(plan, trace', moves') && trace'[0] == trace[0] && Between(plan, trace'[|moves'|], i + 1)
  {
    var s, r := trace[|moves|], i + 1;
    FileArrives(plan, s, i);
    hide Execution, AfterReceived, SessionAt, Tokens, Can, Next, Between;
    trace', moves' := Extend(plan, trace, moves, SendUpload(r));
    trace', moves' := Extend(plan, trace', moves', Arrive(r));
    var w;
    trace', moves', w := UploadTurns(plan, trace', moves', r, TicketOf(plan, i));
    FileAnswered(plan, s, trace'[|moves'|], i);
    trace', moves' := Extend(plan, trace', moves', UploadAnswered);
  }

  lemma {:induction false} ManyFiles(plan: Plan, trace: seq<System>, moves: seq<Move>, i: nat)
      returns (trace': seq<System>, moves': seq<Move>)
    requires ValidPlan(plan) && i <= |plan.names| && Execution(plan, trace, moves) && Between(plan, trace[|moves|], 0)
    ensures Execution(plan, trace', moves') && trace'[0] == trace[0] && Between(plan, trace'[|moves'|], i)
  {
    hide Execution, Between;
    if i == 0 {
      trace', moves' := trace, moves;
    } else {
      trace', moves' := ManyFiles(plan, trace, moves, i - 1);
      trace', moves' := OneFile(plan, trace', moves', i - 1);
    }
  }

  // ---- the whole job --------------------------------------------------------------------

  /** The prepare request at an idle receiver, and the user's approval. */
  lemma Asked(plan: Plan, w: World)
    requires ValidPlan(plan) && plan.names != [] && Boot(w)
    ensures Enabled(w, BeginPrepare(0, Request(plan)))
    ensures var w1 := Step(w, BeginPrepare(0, Request(plan)));
      Enabled(w1, Approve(0, "")) &&
      var w2 := Step(w1, Approve(0, ""));
      && w2.asking == map[0 := Asking(Request(plan), true)]
      && w2.uploading == map[] && w2.replies == map[] && w2.issued == {}
  {
    MetaOfFile(plan, |plan.names|, 0);
    assert Request(plan).files != map[];
    hide Request;
  }

  lemma Opens(plan: Plan, w: World)
    requires ValidPlan(plan) && plan.names != []
    requires w.asking == map[0 := Asking(Request(plan), true)] && w.uploading == map[] && w.replies == map[] && w.issued == {}
    ensures Enabled(w, Open(0, "s", Tokens(|plan.names|)))
    ensures var v := Step(w, Open(0, "s", Tokens(|plan.names|)));
      && v.state == SessionAt(plan, 0) && v.asking == map[] && v.uploading == map[]
      && v.replies == map[0 := Granted("s", Tokens(|plan.names|))]
  {
    assert Request(plan).info == plan.self;
    TokensAreFresh(plan, w);
    hide FreshNames, Tokens, Request;
  }

  lemma PrepareArrives(plan: Plan, s: System)
    requires ValidPlan(plan) && Initial(s)
    ensures Can(plan, s, SendPrepare(0))
    ensures var s1 := Next(plan, s, SendPrepare(0));
      Can(plan, s1, Arrive(0)) &&
      var s2 := Next(plan, s1, Arrive(0));
      && s2 == System(Step(s.world, BeginPrepare(0, Request(plan))), Waiting(0), map[], {0}, [0], [])
  {
    hide Step, Request;
    var s1 := Next(plan, s, SendPrepare(0));
    assert s1.wire == map[0 := PrepareMsg];
    assert Enabled(s.world, BeginPrepare(0, Request(plan)));
  }

  lemma GrantAnswered(plan: Plan, s: System)
    requires ValidPlan(plan) && s.client == Waiting(0) && s.wire == map[] && s.mine == {0}
    requires s.world.state == SessionAt(plan, 0) && s.world.asking == map[] && s.world.uploading == map[]
    requires s.world.replies == map[0 := Granted("s", Tokens(|plan.names|))]
    ensures Can(plan, s, PrepareAnswered) && Between(plan, Next(plan, s, PrepareAnswered), 0)
  {
    hide SessionAt, Tokens;
  }

  lemma LastAnswered(plan: Plan, s: System)
    requires ValidPlan(plan) && Between(plan, s, |plan.names|)
    ensures Can(plan, s, AllSent) && Next(plan, s, AllSent).client == Over(|plan.names|, Done)
  {
  }

  /** Every plan with a file can be delivered to every receiver. */
  lemma {:induction false} EveryPlanCanFinish(plan: Plan, s: System) returns (trace: seq<System>, moves: seq<Move>)
    requires ValidPlan(plan) && plan.names != [] && Initial(s)
    ensures Execution(plan, trace, moves) && trace[0] == s
    ensures trace[|moves|].client == Over(|plan.names|, Done)
  {
    var empty: seq<Move> := [];
    assert Execution(plan, [s], empty) && Boot(s.world);
    PrepareArrives(plan, s);
    hide Initial, Boot, Execution, Can, Next, Enabled, Step, SessionAt, Tokens, Request, Between;
    Asked(plan, s.world);
    trace, moves := Extend(plan, [s], empty, SendPrepare(0));
    trace, moves := Extend(plan, trace, moves, Arrive(0));
    trace, moves := ReceiverTurn(plan, trace, moves, Approve(0, ""));
    Opens(plan, trace[|moves|].world);
    trace, moves := ReceiverTurn(plan, trace, moves, Open(0, "s", Tokens(|plan.names|)));
    GrantAnswered(plan, trace[|moves|]);
    trace, moves := Extend(plan, trace, moves, PrepareAnswered);
    trace, moves := ManyFiles(plan, trace, moves, |plan.names|);
    LastAnswered(plan, trace[|moves|]);
    trace, moves := Extend(plan, trace, moves, AllSent);
  }

  ghost predicate EndsInDone(plan: Plan, s: System, trace: seq<System>, moves: seq<Move>)
    requires ValidPlan(plan)
  {
    && Execution(plan, trace, moves) && trace[0] == s
    && trace[|moves|].client.Over? && trace[|moves|].client.outcome.Done?
  }

  /** Against any receiver a job can end in Done exactly when it has a file to send. */
  lemma {:induction false} DoneExactly(plan: Plan, s: System)
    requires ValidPlan(plan) && Initial(s)
    ensures (exists trace, moves :: EndsInDone(plan, s, trace, moves)) <==> plan.names != []
  {
    if plan.names != [] {
      var trace, moves := EveryPlanCanFinish(plan, s);
      assert EndsInDone(plan, s, trace, moves);
    }
    if trace, moves :| EndsInDone(plan, s, trace, moves) {
      var paths := EndToEnd(plan, trace, moves, |moves|);
    }
  }
}
