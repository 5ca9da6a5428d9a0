/** The app's view of one send (app/lib/src/send_controller.dart): a fold of the event stream
    into what the screen shows. */
module Controller {
  import opened Protocol
  import opened Api
  import opened SendJob

  datatype SendProgress = SendProgress(
    targetAlias: Str,
    fileCount: int,
    fileIndex: int,
    currentFileName: Str,
    sentBytes: int,
    totalBytes: int,
    phase: SendPhase,
    message: Option<Str>)
  {
    predicate InFlight() {
      phase.WaitingApproval? || phase.Uploading?
    }
  }

  /** The app's own texts, for a failure without one and for a cancel. */
  const SEND_FAILED: Str := [0xEC, 0xA0, 0x84, 0xEC, 0x86, 0xA1, 0x20, 0xEC, 0x8B, 0xA4, 0xED, 0x8C, 0xA8]
  const SEND_CANCELED: Str :=
    [0xEC, 0xA0, 0x84, 0xEC, 0x86, 0xA1, 0xEC, 0x9D, 0x84, 0x20, 0xEC, 0xB7, 0xA8,
     0xEC, 0x86, 0x8C, 0xED, 0x96, 0x88, 0xEC, 0x8A, 0xB5, 0xEB, 0x8B, 0x88, 0xEB, 0x8B, 0xA4]

  /** `_onEvent` on a shown progress. */
  function Shown(current: SendProgress, event: SendEvent): SendProgress {
    match event.phase
    case WaitingApproval => current
    case Uploading =>
      SendProgress(current.targetAlias, event.fileCount as int, event.fileIndex as int, event.fileName,
                   event.sentBytes as int, event.totalBytes as int, Uploading, None)
    case Done => current.(phase := Done, sentBytes := current.totalBytes)
    case Failed => current.(phase := Failed, message := Some(if event.message.Some? then event.message.value else SEND_FAILED))
    case Canceled => current.(phase := Canceled, message := Some(SEND_CANCELED))
  }

  function ShownAll(current: SendProgress, events: seq<SendEvent>): SendProgress {
    if events == [] then current
    else Shown(ShownAll(current, events[..|events| - 1]), events[|events| - 1])
  }

  /** What `send` shows first. */
  function Opening(alias: Str, fileCount: nat, firstName: Str): SendProgress {
    SendProgress(alias, fileCount, 0, firstName, 0, 0, WaitingApproval, None)
  }

  class SendController {
    var state: Option<SendProgress>

    constructor ()
      ensures state == None
    {
      state := None;
    }

    /** A second `send` while one is in flight changes nothing. */
    method Send(alias: Str, names: seq<Str>) returns (started: bool)
      requires names != []
      modifies this
      ensures started <==> !(old(state).Some? && old(state).value.InFlight())
      ensures state == if started then Some(Opening(alias, |names|, names[0])) else old(state)
      ensures started ==>
                && state.value.targetAlias == alias && state.value.fileCount == |names| && state.value.currentFileName == names[0]
                && state.value.fileIndex == state.value.sentBytes == state.value.totalBytes == 0
                && state.value.phase.WaitingApproval? && state.value.message.None?
    {
      if state.Some? && state.value.InFlight() {
        return false;
      }
      state := Some(SendProgress(alias, |names|, 0, names[0], 0, 0, WaitingApproval, None));
      started := true;
    }

    method OnEvent(event: SendEvent)
      modifies this
      ensures state == if old(state).None? then None else Some(Shown(old(state).value, event))
    {
      if state.None? {
        return;
      }
      var current := state.value;
      match event.phase {
        case WaitingApproval =>
        case Uploading =>
          state := Some(SendProgress(current.targetAlias, event.fileCount as int, event.fileIndex as int, event.fileName,
                                     event.sentBytes as int, event.totalBytes as int, Uploading, None));
        case Done =>
          state := Some(current.(phase := Done, sentBytes := current.totalBytes));
        case Failed =>
          var message := if event.message.Some? then event.message.value else SEND_FAILED;
          state := Some(current.(phase := Failed, message := Some(message)));
        case Canceled =>
          state := Some(current.(phase := Canceled, message := Some(SEND_CANCELED)));
      }
    }

    method Dismiss()
      modifies this
      ensures state == if old(state).Some? && old(state).value.InFlight() then old(state) else None
    {
      if state.Some? && state.value.InFlight() {
        return;
      }
      state := None;
    }

    /** The subscription: every event in turn. */
    method Listen(events: seq<SendEvent>)
      requires state.Some?
      modifies this
      ensures state == Some(ShownAll(old(state).value, events))
    {
      assert events[..0] == [];
      for i := 0 to |events|
        invariant state == Some(ShownAll(old(state).value, events[..i]))
      {
        OnEvent(events[i]);
        assert events[..i + 1][..i] == events[..i];
      }
      assert events[..|events|] == events;
    }
  }

  // ---- the fold over a whole stream -------------------------------------------------

  /** The progress shows what the event says of its file. */
  predicate ShowsFile(shown: SendProgress, e: SendEvent, items: seq<Item>) {
    && shown.fileCount == |items|
    && 0 <= shown.fileIndex < |items| && shown.fileIndex == e.fileIndex as int
    && shown.currentFileName == items[shown.fileIndex].name
    && shown.totalBytes == SizeOf(items)
  }

  /** While only progress came, the send is in flight and shows the last progress event. */
  lemma {:induction false} ProgressShown(start: SendProgress, events: seq<SendEvent>, items: seq<Item>)
    requires start.InFlight() && ProgressOf(events, items)
    ensures ShownAll(start, events).InFlight()
    ensures events != [] ==>
              && ShownAll(start, events).phase.Uploading?
              && ShowsFile(ShownAll(start, events), events[|events| - 1], items)
              && ShownAll(start, events).sentBytes == events[|events| - 1].sentBytes as int
    ensures events == [] ==> ShownAll(start, events) == start
    ensures ShownAll(start, events).targetAlias == start.targetAlias
    ensures start.message.None? ==> ShownAll(start, events).message.None?
  {
    if events != [] {
      var init, last := events[..|events| - 1], events[|events| - 1];
      assert forall e | e in init :: e in events;
      ProgressShown(start, init, items);
      assert last in events;
      var index: nat :| IsProgress(last, items, index);
    }
  }

  lemma {:induction false} ShownAppend(start: SendProgress, e: SendEvent, events: seq<SendEvent>)
    ensures ShownAll(start, [e] + events) == ShownAll(Shown(start, e), events)
  {
    var all := [e] + events;
    if events == [] {
      assert all == [e] && all[..0] == [];
    } else {
      assert all[..|all| - 1] == [e] + events[..|events| - 1];
      ShownAppend(start, e, events[..|events| - 1]);
    }
  }

  /** Whatever happened, at the end of the stream the send is no longer in flight, shows how it
      ended, and after Done shows every byte of the files as sent. */
  lemma {:induction false} StreamShown(alias: Str, items: seq<Item>, firstName: Str, events: seq<SendEvent>)
    requires Stream(events, items)
    ensures var shown := ShownAll(Opening(alias, |items|, firstName), events);
            && !shown.InFlight()
            && shown.phase == events[|events| - 1].phase
            && shown.targetAlias == alias
            && (shown.phase.Done? ==> shown.sentBytes == shown.totalBytes == SizeOf(items))
            && (shown.phase.Done? <==> shown.message.None?)
            && (shown.phase.Failed? ==> shown.message == events[|events| - 1].message)
            && (shown.phase.Canceled? ==> shown.message == Some(SEND_CANCELED))
            && shown.fileCount == |items|
            && if |events| <= 2 then shown.fileIndex == 0 && shown.currentFileName == firstName
               else ShowsFile(shown, events[|events| - 2], items)
                    && (!shown.phase.Done? ==> shown.sentBytes == events[|events| - 2].sentBytes as int)
  {
    var start := Opening(alias, |items|, firstName);
    var last, before := events[|events| - 1], events[..|events| - 1];
    if before != [] {
      var progress := before[1..];
      assert before == [before[0]] + progress;
      ShownAppend(start, before[0], progress);
      ProgressShown(start, progress, items);
    }
  }

  /** A whole send, from the button to the end of the stream. */
  method RunSend(controller: SendController, alias: Str, names: seq<Str>, sizes: seq<Option<nat>>, busy: bool,
                 node: Option<Str>, prepared: Prepared, runs: seq<FileRun>) returns (started: bool)
    requires |names| == |sizes| && names != []
    requires Fits(ItemsOf(names, sizes, |names|)) && Faithful(ItemsOf(names, sizes, |names|), runs)
    modifies controller
    ensures started <==> !(old(controller.state).Some? && old(controller.state).value.InFlight())
    ensures !started ==> controller.state == old(controller.state)
    ensures started ==>
              && controller.state.Some? && !controller.state.value.InFlight()
              && (controller.state.value.phase.Done? ==>
                    controller.state.value.sentBytes == SizeOf(ItemsOf(names, sizes, |names|)))
    ensures started && Starts(busy, node, sizes) ==>
              && (controller.state.value.phase.Canceled? <==> Stopped(prepared, runs))
              && forall message ::
                   controller.state.value.phase.Failed? && controller.state.value.message == Some(message)
                   <==> Breaks(prepared, runs, message)
  {
    started := controller.Send(alias, names);
    if started {
      var events, items := SendFiles(busy, node, names, sizes, prepared, runs);
      StreamShown(alias, items, names[0], events);
      controller.Listen(events);
    }
  }
}
