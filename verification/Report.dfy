/** What the app is told and what happened: the event stream of `SendJob` for a job that ran as an
    execution of `Delivery`. */
module Report {
  import opened Protocol
  import opened Receiving
  import opened Delivery
  import opened Api
  import SendJob

  /** How a job went, as `send_files` sees it: the prepare request, then the uploads begun. */
  datatype Story = Story(prepared: SendJob.Prepared, endings: seq<SendJob.Ending>)

  const ERROR := SendJob.Ending.Error([])

  /** An abort hits the upload under way, or the next one to begin, or the cancel after one that
      failed; after the last upload was answered the job has nothing left to wait for, and an
      abort is told as one that hit that upload. */
  function Aborts(story: Story, c: Client, count: nat): Story {
    if c.Start? || c.Waiting? then story
    else if !c.Stopping? && |story.endings| < count then story.(endings := story.endings + [SendJob.Aborted])
    else if story.endings == [] then story
    else story.(endings := story.endings[..|story.endings| - 1] + [SendJob.Aborted])
  }

  function Told(story: Story, s: System, m: Move, count: nat): Story {
    match m
    case SendPrepare(_) => story.(prepared := SendJob.Interrupted)
    case PrepareAnswered =>
      if s.client.Waiting? && s.client.req in s.world.replies && s.world.replies[s.client.req].Granted?
      then story.(prepared := SendJob.Ready)
      else story.(prepared := SendJob.Refused([]))
    case PrepareLost => story.(prepared := SendJob.Refused([]))
    case UploadAnswered =>
      if s.client.Uploading? && s.client.req in s.world.replies && s.world.replies[s.client.req] == Status(200)
      then story.(endings := story.endings + [SendJob.Sent])
      else story.(endings := story.endings + [ERROR])
    case UploadLost => story.(endings := story.endings + [ERROR])
    case OpenFails => story.(endings := story.endings + [ERROR])
    case Abort => Aborts(story, s.client, count)
    case _ => story
  }

  /** The story of a job with `count` files. */
  function StoryOf(trace: seq<System>, moves: seq<Move>, count: nat): Story
    requires |trace| > |moves|
  {
    if moves == [] then Story(SendJob.Never, [])
    else
      var k := |moves| - 1;
      Told(StoryOf(trace, moves[..k], count), trace[k], moves[k], count)
  }

  predicate AllSent(endings: seq<SendJob.Ending>) {
    forall e | e in endings :: e.Sent?
  }

  /** Every upload begun succeeded but the last one, which ended like this. */
  predicate EndsIn(endings: seq<SendJob.Ending>, e: SendJob.Ending) {
    endings != [] && endings[|endings| - 1] == e && AllSent(endings[..|endings| - 1])
  }

  function EndingOf(outcome: Outcome): SendJob.Ending {
    match outcome
    case Done => SendJob.Sent
    case Failed => ERROR
    case Canceled => SendJob.Aborted
  }

  /** The story fits where the job stands. */
  ghost predicate Fitting(plan: Plan, c: Client, story: Story) {
    && |story.endings| <= |plan.names|
    && match c
       case Start => story == Story(SendJob.Never, [])
       case Waiting(_) => story == Story(SendJob.Interrupted, [])
       case Looping(_, _, acked) => story.prepared.Ready? && |story.endings| == acked && AllSent(story.endings)
       case Uploading(_, _, acked, _) =>
         story.prepared.Ready? && |story.endings| == acked < |plan.names| && AllSent(story.endings)
       case Stopping(_, _, outcome) =>
         !outcome.Done? && story.prepared.Ready? && EndsIn(story.endings, EndingOf(outcome))
       case Over(_, outcome) => FittingEnd(plan, outcome, story)
  }

  ghost predicate FittingEnd(plan: Plan, outcome: Outcome, story: Story) {
    match outcome
    case Done => story.prepared.Ready? && |story.endings| == |plan.names| && AllSent(story.endings)
    case Failed => story.prepared.Refused? || (story.prepared.Ready? && EndsIn(story.endings, ERROR))
    case Canceled =>
      || story.prepared.Never? || story.prepared.Interrupted?
      || (story.prepared.Ready? && EndsIn(story.endings, SendJob.Aborted))
  }

  lemma Appended(endings: seq<SendJob.Ending>, e: SendJob.Ending)
    requires AllSent(endings)
    ensures EndsIn(endings + [e], e)
    ensures e.Sent? ==> AllSent(endings + [e])
    ensures endings != [] ==> EndsIn(endings[..|endings| - 1] + [e], e)
  {
    assert (endings + [e])[..|endings|] == endings;
    if endings != [] {
      var init := endings[..|endings| - 1];
      assert (init + [e])[..|init|] == init;
    }
  }

  lemma AbortFits(plan: Plan, s: System, story: Story)
    requires ValidPlan(plan) && PointOk(plan, s) && Fitting(plan, s.client, story) && Can(plan, s, Abort)
    ensures Fitting(plan, Next(plan, s, Abort).client, Aborts(story, s.client, |plan.names|))
  {
    var endings := story.endings;
    if s.client.Looping? || s.client.Uploading? {
      Appended(endings, SendJob.Aborted);
    } else if s.client.Stopping? {
      var init := endings[..|endings| - 1];
      Appended(init, SendJob.Aborted);
    }
  }

  lemma ToldFits(plan: Plan, s: System, m: Move, story: Story)
    requires ValidPlan(plan) && PointOk(plan, s) && Fitting(plan, s.client, story) && Can(plan, s, m)
    ensures Fitting(plan, Next(plan, s, m).client, Told(story, s, m, |plan.names|))
  {
    hide Enabled, Step, PointOk;
    if AllSent(story.endings) {
      Appended(story.endings, ERROR);
      Appended(story.endings, SendJob.Sent);
    }
    if m.Abort? {
      AbortFits(plan, s, story);
    }
  }

  lemma {:induction false} StoryFits(plan: Plan, trace: seq<System>, moves: seq<Move>)
    requires ValidPlan(plan) && Execution(plan, trace, moves)
    ensures Fitting(plan, trace[|moves|].client, StoryOf(trace, moves, |plan.names|))
  {
    if moves != [] {
      var k := |moves| - 1;
      StoryFits(plan, trace[..k + 1], moves[..k]);
      StoryOfPrefix(trace, trace[..k + 1], moves[..k], |plan.names|);
      SysInvAlways(plan, trace, moves, k);
      hide Can, Next, Fitting, Execution;
      ToldFits(plan, trace[k], moves[k], StoryOf(trace, moves[..k], |plan.names|));
    }
  }

  lemma {:induction false} StoryOfPrefix(long: seq<System>, short: seq<System>, moves: seq<Move>, count: nat)
    requires |moves| < |short| <= |long| && long[..|short|] == short
    ensures StoryOf(long, moves, count) == StoryOf(short, moves, count)
  {
    if moves != [] {
      StoryOfPrefix(long, short, moves[..|moves| - 1], count);
      assert long[|moves| - 1] == short[|moves| - 1];
    }
  }

  // ---- the events of that job -------------------------------------------------------------

  function Sizes(plan: Plan): seq<Option<nat>> {
    seq(|plan.contents|, i requires 0 <= i < |plan.contents| => Some(|plan.contents[i]|))
  }

  /** The uploads, with the chunks each file was read in; those not begun do not matter. */
  function RunsOf(story: Story, chunks: seq<seq<nat>>): (runs: seq<SendJob.FileRun>)
    ensures |runs| == |chunks|
  {
    seq(|chunks|, i requires 0 <= i < |chunks| =>
      SendJob.FileRun(chunks[i], if i < |story.endings| then story.endings[i] else SendJob.Aborted))
  }

  /** Runs `send_files` for a job that went as the execution did. The stream ends as the job did,
      in Done, Failed or Canceled; and when the app is told Done, every file is stored at the
      receiver, byte for byte, under a path of its own. */
  method Send(plan: Plan, names: seq<Str>, chunks: seq<seq<nat>>, ghost trace: seq<System>, ghost moves: seq<Move>, story: Story)
      returns (events: seq<SendEvent>, ghost paths: seq<string>)
    requires ValidPlan(plan) && Execution(plan, trace, moves) && trace[|moves|].client.Over?
    requires story == StoryOf(trace, moves, |plan.names|)
    requires |names| == |plan.names| == |chunks|
    requires SendJob.Fits(SendJob.ItemsOf(names, Sizes(plan), |names|))
    requires SendJob.Faithful(SendJob.ItemsOf(names, Sizes(plan), |names|), RunsOf(story, chunks))
    ensures SendJob.Stream(events, SendJob.ItemsOf(names, Sizes(plan), |names|))
    ensures events[|events| - 1].phase == match trace[|moves|].client.outcome
                                          case Done => SendPhase.Done
                                          case Failed => SendPhase.Failed
                                          case Canceled => SendPhase.Canceled
    ensures events[|events| - 1].phase.Done? ==>
              && 1 <= |plan.names| == |paths|
              && HoldsAll(plan, trace[|moves|].world, trace[0].world.folder, paths)
              && OnlyOwnSaves(trace[|moves|], paths)
  {
    StoryFits(plan, trace, moves);
    RunsSent(plan, trace[|moves|].client.outcome, story, chunks);
    var items;
    events, items := SendJob.SendFiles(false, None, names, Sizes(plan), story.prepared, RunsOf(story, chunks));
    if trace[|moves|].client.outcome.Done? {
      paths := EndToEnd(plan, trace, moves, |moves|);
    } else {
      paths := [];
    }
  }

  lemma RunsSent(plan: Plan, outcome: Outcome, story: Story, chunks: seq<seq<nat>>)
    requires |chunks| == |plan.names| && |story.endings| <= |plan.names| && FittingEnd(plan, outcome, story)
    ensures var runs := RunsOf(story, chunks);
      match outcome
      case Done => story.prepared.Ready? && forall k | 0 <= k < |runs| :: runs[k].ending.Sent?
      case Failed => exists message :: SendJob.Breaks(story.prepared, runs, message)
      case Canceled => SendJob.Stopped(story.prepared, runs)
  {
    var runs := RunsOf(story, chunks);
    if story.prepared.Ready? && !outcome.Done? {
      var n := |story.endings| - 1;
      assert forall j | 0 <= j < n :: story.endings[j] in story.endings[..n];
      assert SendJob.StopsAt(runs, n);
      if outcome.Failed? {
        assert runs[n].ending == SendJob.Ending.Error([]);
        assert SendJob.Breaks(story.prepared, runs, []);
      }
    } else if outcome.Failed? {
      assert SendJob.Breaks(story.prepared, runs, story.prepared.message);
    }
  }
}
