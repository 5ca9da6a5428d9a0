/** `send_files`: the upload loop, its progress events throttled to one per MiB, and the one
    event that ends the stream. */
module SendJob {
  import opened Protocol
  import opened Api

  const MIB: nat := 0x10_0000

  datatype Item = Item(name: Str, size: nat)

  /** How one upload goes: the chunks read from the file, then success, an error (the session
      is cancelled), or an abort, which can also hit that cancel. */
  datatype Ending = Sent | Error(message: Str) | Aborted
  datatype FileRun = FileRun(chunks: seq<nat>, ending: Ending)

  /** What `prepare_upload` gives; `Never` is an abort before the job ran at all. */
  datatype Prepared = Ready | Refused(message: Str) | Interrupted | Never

  datatype JobResult = Completed | Errored(message: Str) | Cancelled

  function SizeOf(items: seq<Item>): nat {
    if items == [] then 0 else SizeOf(items[..|items| - 1]) + items[|items| - 1].size
  }

  lemma {:induction false} SizeMonotone(items: seq<Item>, i: nat)
    requires i <= |items|
    ensures SizeOf(items[..i]) <= SizeOf(items)
  {
    if i < |items| {
      assert items[..|items| - 1][..i] == items[..i];
      SizeMonotone(items[..|items| - 1], i);
    } else {
      assert items[..i] == items;
    }
  }

  lemma SizeStep(items: seq<Item>, i: nat)
    requires i < |items|
    ensures SizeOf(items[..i + 1]) == SizeOf(items[..i]) + items[i].size <= SizeOf(items)
  {
    assert items[..i + 1][..i] == items[..i];
    SizeMonotone(items, i + 1);
  }

  // ---- the event stream -------------------------------------------------------------

  function Of(phase: SendPhase): SendEvent {
    SendEvent(phase, 0, 0, [], 0, 0, None)
  }

  function FailedWith(message: Str): SendEvent {
    Of(Failed).(message := Some(message))
  }

  /** A progress event of file `index`, with numbers that fit. */
  predicate IsProgress(e: SendEvent, items: seq<Item>, index: nat) {
    && index < |items|
    && e.phase.Uploading? && e.message.None?
    && e.fileIndex as int == index && e.fileCount as int == |items| && e.fileName == items[index].name
    && e.totalBytes as int == SizeOf(items)
    && SizeOf(items[..index]) <= e.sentBytes as int <= SizeOf(items[..index + 1])
  }

  /** Progress never goes back: neither the file nor the bytes. */
  ghost predicate Monotone(events: seq<SendEvent>) {
    forall i, j | 0 <= i < j < |events| ::
      events[i].fileIndex <= events[j].fileIndex && events[i].sentBytes <= events[j].sentBytes
  }

  ghost predicate ProgressOf(events: seq<SendEvent>, items: seq<Item>) {
    && (forall e | e in events :: exists index: nat :: IsProgress(e, items, index))
    && Monotone(events)
  }

  /** The counts of a `nat` fit the fields of an event. */
  predicate Fits(items: seq<Item>) {
    |items| < 0x1_0000_0000 && SizeOf(items) < 0x8000_0000_0000_0000
  }

  function Progress(items: seq<Item>, index: nat, sent: nat): (e: SendEvent)
    requires Fits(items) && index < |items|
    requires SizeOf(items[..index]) <= sent <= SizeOf(items[..index + 1])
    ensures IsProgress(e, items, index) && e.fileIndex as int == index && e.sentBytes as int == sent
  {
    SizeMonotone(items, index + 1);
    SendEvent(Uploading, index as u32, |items| as u32, items[index].name, sent as i64, SizeOf(items) as i64, None)
  }

  lemma AppendKeepsMonotone(events: seq<SendEvent>, e: SendEvent)
    requires Monotone(events)
    requires events != [] ==> events[|events| - 1].fileIndex <= e.fileIndex && events[|events| - 1].sentBytes <= e.sentBytes
    ensures Monotone(events + [e])
  {
    var all := events + [e];
    forall i, j | 0 <= i < j < |all|
      ensures all[i].fileIndex <= all[j].fileIndex && all[i].sentBytes <= all[j].sentBytes
    {
      if j == |events| && i < |events| - 1 {
        assert events[i].sentBytes <= events[|events| - 1].sentBytes;
      }
    }
  }

  lemma AppendKeepsProgress(events: seq<SendEvent>, e: SendEvent, items: seq<Item>, index: nat)
    requires ProgressOf(events, items) && IsProgress(e, items, index)
    requires events != [] ==> events[|events| - 1].fileIndex <= e.fileIndex && events[|events| - 1].sentBytes <= e.sentBytes
    ensures ProgressOf(events + [e], items)
  {
    AppendKeepsMonotone(events, e);
    hide Monotone, IsProgress;
  }

  lemma NoProgress(items: seq<Item>)
    ensures ProgressOf([], items)
  {
  }

  // ---- the callback's arithmetic ----------------------------------------------------

  /** What was last reported after the chunks of one file, `base` being the sizes of the files
      before it; `None` when `overall - emitted` underflows. */
  function Reported(base: nat, size: nat, emitted: nat, chunks: seq<nat>): Option<nat> {
    if chunks == [] then Some(emitted)
    else
      var before := Reported(base, size, emitted, chunks[..|chunks| - 1]);
      var overall := base + Sum(chunks);
      if before.None? || overall < before.value then None
      else Some(if overall - before.value >= MIB || Sum(chunks) == size then overall else before.value)
  }

  /** Whatever a file has become since it was measured: the subtraction underflows in it if and
      only if its first chunk does not get past what was reported for the files before. */
  lemma {:induction false} UnderflowsExactly(base: nat, size: nat, emitted: nat, chunks: seq<nat>)
    ensures Reported(base, size, emitted, chunks).None? <==> chunks != [] && base + chunks[0] < emitted
    ensures chunks != [] && Reported(base, size, emitted, chunks).Some? ==>
              Reported(base, size, emitted, chunks).value <= base + Sum(chunks)
  {
    if chunks != [] {
      var init := chunks[..|chunks| - 1];
      UnderflowsExactly(base, size, emitted, init);
      if init == [] {
        assert Sum(chunks) == chunks[0];
      } else {
        assert init[0] == chunks[0];
      }
    }
  }

  /** A file that does not outgrow its size reports no more than that, so the next one starts
      from at most its own base and cannot underflow. */
  lemma {:induction false} UngrownReports(base: nat, size: nat, emitted: nat, chunks: seq<nat>)
    requires emitted <= base && Sum(chunks) <= size
    ensures var r := Reported(base, size, emitted, chunks); r.Some? && r.value <= base + size
  {
    UnderflowsExactly(base, size, emitted, chunks);
  }

  /** A file measured at 10 bytes has grown past a MiB when it is read; the next one underflows. */
  lemma {:induction false} GrowthUnderflows()
    ensures var first := Reported(0, 10, 0, [MIB + 10]);
            first.Some? && Reported(10, 5, first.value, [5]).None?
  {
    assert [MIB + 10][..0] == [] && Sum([MIB + 10]) == MIB + 10;
    UnderflowsExactly(10, 5, MIB + 10, [5]);
  }

  // ---- one file ---------------------------------------------------------------------

  /** `base` is what the files before this one come to, `emitted` what the last progress event
      reported. The subtraction `overall - emitted` is on naturals: it never underflows. */
  method StreamFile(items: seq<Item>, index: nat, chunks: seq<nat>, emitted: nat, events: seq<SendEvent>)
      returns (emitted': nat, events': seq<SendEvent>)
    requires Fits(items) && index < |items|
    requires (forall c | c in chunks :: c > 0) && Sum(chunks) <= items[index].size
    requires emitted == SizeOf(items[..index])
    requires ProgressOf(events, items) && events != []
    requires events[|events| - 1].fileIndex as int == index && events[|events| - 1].sentBytes as int == emitted
    ensures events <= events' && ProgressOf(events', items)
    ensures events'[|events'| - 1].fileIndex as int == index && events'[|events'| - 1].sentBytes as int == emitted'
    ensures emitted <= emitted' <= SizeOf(items[..index]) + Sum(chunks) < emitted' + 1_048_576
    ensures Sum(chunks) == items[index].size ==> emitted' == SizeOf(items[..index + 1])
    ensures 1_048_576 * (|events'| - |events| - 1) <= emitted' - emitted
    ensures Reported(SizeOf(items[..index]), items[index].size, emitted, chunks) == Some(emitted')
  {
    hide ProgressOf, IsProgress, Monotone;
    var base, size := SizeOf(items[..index]), items[index].size;
    SizeStep(items, index);
    emitted', events' := emitted, events;
    var sentInFile, i := 0, 0;
    assert chunks[..0] == [];
    while i < |chunks|
      invariant i <= |chunks| && sentInFile == Sum(chunks[..i]) <= Sum(chunks)
      invariant events <= events' && ProgressOf(events', items)
      invariant events'[|events'| - 1].fileIndex as int == index && events'[|events'| - 1].sentBytes as int == emitted'
      invariant emitted <= emitted' <= base + sentInFile < emitted' + MIB
      invariant sentInFile == size ==> emitted' == base + size
      invariant Reported(base, size, emitted, chunks[..i]) == Some(emitted')
      invariant MIB * (|events'| - |events| - (if 0 < sentInFile == size then 1 else 0)) <= emitted' - emitted
    {
      assert chunks[..i + 1][..i] == chunks[..i];
      SumMonotone(chunks, i + 1);
      assert chunks[i] in chunks;
      sentInFile := sentInFile + chunks[i];
      var overall := base + sentInFile;
      if overall - emitted' >= MIB || sentInFile == size {
        var e := Progress(items, index, overall);
        AppendKeepsProgress(events', e, items, index);
        events' := events' + [e];
        emitted' := overall;
      }
      i := i + 1;
    }
    assert chunks[..i] == chunks;
  }

  lemma {:induction false} SumMonotone(chunks: seq<nat>, i: nat)
    requires i <= |chunks|
    ensures Sum(chunks[..i]) <= Sum(chunks)
  {
    if i < |chunks| {
      assert chunks[..|chunks| - 1][..i] == chunks[..i];
      SumMonotone(chunks[..|chunks| - 1], i);
    } else {
      assert chunks[..i] == chunks;
    }
  }

  // ---- the job ----------------------------------------------------------------------

  /** Files do not change while they are read: chunks are not empty, do not exceed the size
      measured before, and come to that size when the upload succeeded. */
  predicate Faithful(items: seq<Item>, runs: seq<FileRun>) {
    && |runs| == |items|
    && forall i | 0 <= i < |runs| ::
         && (forall c | c in runs[i].chunks :: c > 0)
         && Sum(runs[i].chunks) <= items[i].size
         && (runs[i].ending.Sent? ==> Sum(runs[i].chunks) == items[i].size)
  }

  /** The first upload that does not succeed is the `k`-th. */
  ghost predicate StopsAt(runs: seq<FileRun>, k: nat) {
    k < |runs| && !runs[k].ending.Sent? && forall j | 0 <= j < k :: runs[j].ending.Sent?
  }

  lemma OnlyStop(runs: seq<FileRun>, k: nat)
    requires k < |runs| && !runs[k].ending.Sent? && forall j | 0 <= j < k :: runs[j].ending.Sent?
    ensures forall j: nat :: StopsAt(runs, j) <==> j == k
  {
  }

  lemma NeverStops(runs: seq<FileRun>)
    requires forall k | 0 <= k < |runs| :: runs[k].ending.Sent?
    ensures forall k: nat :: !StopsAt(runs, k)
  {
  }

  lemma UpToLast(events: seq<SendEvent>, items: seq<Item>)
    requires ProgressOf(events, items) && events != []
    ensures forall e | e in events :: e.fileIndex <= events[|events| - 1].fileIndex
  {
    hide IsProgress;
  }

  /** The event that opens file `index`. */
  method StartFile(items: seq<Item>, index: nat, completed: nat, events: seq<SendEvent>) returns (events': seq<SendEvent>)
    requires Fits(items) && index < |items| && completed == SizeOf(items[..index])
    requires ProgressOf(events, items)
    requires events != [] ==>
               events[|events| - 1].fileIndex as int <= index && events[|events| - 1].sentBytes as int <= completed
    ensures |events'| == |events| + 1 && events <= events' && ProgressOf(events', items)
    ensures events'[|events|].fileIndex as int == index && events'[|events|].sentBytes as int == completed
  {
    SizeStep(items, index);
    var start := Progress(items, index, completed);
    AppendKeepsProgress(events, start, items, index);
    events' := events + [start];
  }

  /** The spawned job: the upload loop. Each file starts with one event; the counts of events
      and bytes are tied throughout. */
  method UploadAll(items: seq<Item>, runs: seq<FileRun>) returns (progress: seq<SendEvent>, result: JobResult)
    requires Fits(items) && Faithful(items, runs)
    ensures ProgressOf(progress, items)
    ensures 1_048_576 * (|progress| - 2 * |items|) <= SizeOf(items)
    ensures result.Completed? <==> forall k | 0 <= k < |runs| :: runs[k].ending.Sent?
    ensures result.Cancelled? <==> exists k: nat :: StopsAt(runs, k) && runs[k].ending.Aborted?
    ensures forall message :: result == Errored(message) <==> exists k: nat :: StopsAt(runs, k) && runs[k].ending == Error(message)
    ensures forall k: nat, e | StopsAt(runs, k) && e in progress :: e.fileIndex as int <= k
    ensures result.Completed? && items != [] ==>
              progress != [] && progress[|progress| - 1].sentBytes as int == SizeOf(items)
  {
    NoProgress(items);
    hide ProgressOf, IsProgress, Monotone, StopsAt;
    progress := [];
    var emitted, completed := 0, 0;
    assert items[..0] == [];
    for i := 0 to |items|
      invariant completed == emitted == SizeOf(items[..i])
      invariant ProgressOf(progress, items)
      invariant i > 0 ==> progress != [] && progress[|progress| - 1].fileIndex as int == i - 1
                          && progress[|progress| - 1].sentBytes as int == completed
      invariant i == 0 ==> progress == []
      invariant MIB * (|progress| - 2 * i) <= emitted
      invariant forall k | 0 <= k < i :: runs[k].ending.Sent?
    {
      progress := StartFile(items, i, completed, progress);
      emitted, progress := StreamFile(items, i, runs[i].chunks, emitted, progress);
      SizeStep(items, i);
      if !runs[i].ending.Sent? {
        OnlyStop(runs, i);
        UpToLast(progress, items);
      }
      match runs[i].ending {
        case Sent =>
        case Error(message) => return progress, Errored(message);
        case Aborted => return progress, Cancelled;
      }
      completed := completed + items[i].size;
    }
    assert items[..|items|] == items;
    NeverStops(runs);
    result := Completed;
  }

  predicate Terminal(e: SendEvent) {
    e.phase.Done? || e.phase.Failed? || e.phase.Canceled?
  }

  predicate FailsWith(e: SendEvent, message: Str) {
    e.phase.Failed? && e.message == Some(message)
  }

  /** The language of the stream: one terminal event, at the end; before it nothing, or
      WaitingApproval and then progress. Done comes only after every byte was reported. */
  ghost predicate Stream(events: seq<SendEvent>, items: seq<Item>) {
    && events != []
    && var last, before := events[|events| - 1], events[..|events| - 1];
    && Terminal(last) && (last.message.Some? <==> last.phase.Failed?)
    && (before != [] ==> before[0] == Of(WaitingApproval) && ProgressOf(before[1..], items))
    && (last.phase.Done? ==>
          before != [] && (items != [] ==> |before| >= 2 && before[|before| - 1].sentBytes as int == SizeOf(items)))
  }

  /** The user's abort came first: before the job ran, while it waited, or in the first upload
      that did not succeed. */
  ghost predicate Stopped(prepared: Prepared, runs: seq<FileRun>) {
    match prepared
    case Never => true
    case Interrupted => true
    case Refused(_) => false
    case Ready => exists k: nat :: StopsAt(runs, k) && runs[k].ending.Aborted?
  }

  /** An error came first, with this message: of the prepare request, or of the first upload that
      did not succeed. */
  ghost predicate Breaks(prepared: Prepared, runs: seq<FileRun>, message: Str) {
    match prepared
    case Never => false
    case Interrupted => false
    case Refused(m) => m == message
    case Ready => exists k: nat :: StopsAt(runs, k) && runs[k].ending == Error(message)
  }

  /** The spawned job, up to where it is joined. */
  method RunJob(items: seq<Item>, prepared: Prepared, runs: seq<FileRun>) returns (sink: seq<SendEvent>, result: JobResult)
    requires Fits(items) && Faithful(items, runs)
    ensures sink == [] <==> prepared.Never?
    ensures sink != [] ==> sink[0] == Of(WaitingApproval) && ProgressOf(sink[1..], items)
    ensures 1_048_576 * (|sink| - 1 - 2 * |items|) <= SizeOf(items)
    ensures result.Completed? <==> prepared.Ready? && forall k | 0 <= k < |runs| :: runs[k].ending.Sent?
    ensures result.Cancelled? <==> Stopped(prepared, runs)
    ensures forall message :: result == Errored(message) <==> Breaks(prepared, runs, message)
    ensures result.Completed? && items != [] ==> |sink| >= 2 && sink[|sink| - 1].sentBytes as int == SizeOf(items)
  {
    NoProgress(items);
    hide ProgressOf, SizeOf, Fits, Faithful;
    match prepared {
      case Never =>
        sink, result := [], Cancelled;
      case Refused(message) =>
        sink, result := [Of(WaitingApproval)], Errored(message);
        assert sink[1..] == [];
      case Interrupted =>
        sink, result := [Of(WaitingApproval)], Cancelled;
        assert sink[1..] == [];
      case Ready =>
        var progress;
        progress, result := UploadAll(items, runs);
        sink := [Of(WaitingApproval)] + progress;
        assert sink[1..] == progress;
    }
  }

  /** The metadata loop: the name of the first path that cannot be read. */
  method FirstUnreadable(names: seq<Str>, sizes: seq<Option<nat>>) returns (name: Option<Str>)
    requires |names| == |sizes|
    ensures name.None? <==> forall s | s in sizes :: s.Some?
    ensures name.Some? ==> exists i :: 0 <= i < |sizes| && sizes[i].None? && names[i] == name.value && forall s | s in sizes[..i] :: s.Some?
  {
    for i := 0 to |sizes|
      invariant forall s | s in sizes[..i] :: s.Some?
    {
      if sizes[i].None? {
        assert sizes[i] in sizes;
        return Some(names[i]);
      }
      assert sizes[..i + 1] == sizes[..i] + [sizes[i]];
    }
    assert sizes[..|sizes|] == sizes;
    name := None;
  }

  /** The slot is free, there is a node, and every path can be read. */
  predicate Starts(busy: bool, node: Option<Str>, sizes: seq<Option<nat>>) {
    !busy && node.None? && forall s | s in sizes :: s.Some?
  }

  /** The event that ends a job that went like this: Done when every upload succeeded, Canceled
      when the abort came first, Failed with the message of the error that came first. */
  ghost predicate EndsAs(e: SendEvent, prepared: Prepared, runs: seq<FileRun>) {
    && (e.phase.Done? <==> prepared.Ready? && forall k | 0 <= k < |runs| :: runs[k].ending.Sent?)
    && (e.phase.Canceled? <==> Stopped(prepared, runs))
    && forall message :: FailsWith(e, message) <==> Breaks(prepared, runs, message)
  }

  lemma LastEvent(result: JobResult, e: SendEvent, prepared: Prepared, runs: seq<FileRun>)
    requires result.Completed? <==> prepared.Ready? && forall k | 0 <= k < |runs| :: runs[k].ending.Sent?
    requires result.Cancelled? <==> Stopped(prepared, runs)
    requires forall message :: result == Errored(message) <==> Breaks(prepared, runs, message)
    requires match result
             case Completed => e.phase.Done?
             case Errored(message) => FailsWith(e, message)
             case Cancelled => e.phase.Canceled?
    ensures EndsAs(e, prepared, runs)
  {
    hide Stopped, Breaks;
  }

  /** `send_files`. `busy`: another job holds the slot; `node`: why there is no node, if so;
      `sizes[i]`: what the file system says of path `i`, if it can be read. */
  method SendFiles(busy: bool, node: Option<Str>, names: seq<Str>, sizes: seq<Option<nat>>, prepared: Prepared, runs: seq<FileRun>)
      returns (events: seq<SendEvent>, items: seq<Item>)
    requires |names| == |sizes|
    requires Fits(ItemsOf(names, sizes, |names|)) && Faithful(ItemsOf(names, sizes, |names|), runs)
    ensures items == ItemsOf(names, sizes, |names|) && Stream(events, items)
    ensures 1_048_576 * (|events| - 2 - 2 * |items|) <= SizeOf(items)
    ensures Starts(busy, node, sizes) ==> EndsAs(events[|events| - 1], prepared, runs) && (|events| == 1 <==> prepared.Never?)
    ensures !Starts(busy, node, sizes) ==> |events| == 1 && events[0].phase.Failed?
    ensures !busy && node.Some? ==> FailsWith(events[0], node.value)
  {
    items := ItemsOf(names, sizes, |names|);
    hide SizeOf, Fits, Faithful, ItemsOf, EndsAs, Stream, ProgressOf, Stopped, Breaks;
    if busy {
      ClosedStream([], FailedWith([]), items);
      return [FailedWith([])], items;
    }
    if node.Some? {
      ClosedStream([], FailedWith(node.value), items);
      return [FailedWith(node.value)], items;
    }
    var unreadable := FirstUnreadable(names, sizes);
    if unreadable.Some? {
      ClosedStream([], FailedWith(unreadable.value), items);
      return [FailedWith(unreadable.value)], items;
    }
    var sink, result := RunJob(items, prepared, runs);
    var last := match result
      case Completed => Of(Done)
      case Errored(message) => FailedWith(message)
      case Cancelled => Of(Canceled);
    LastEvent(result, last, prepared, runs);
    ClosedStream(sink, last, items);
    events := sink + [last];
  }

  lemma ClosedStream(sink: seq<SendEvent>, last: SendEvent, items: seq<Item>)
    requires Terminal(last) && (last.message.Some? <==> last.phase.Failed?)
    requires sink != [] ==> sink[0] == Of(WaitingApproval) && ProgressOf(sink[1..], items)
    requires last.phase.Done? ==>
               sink != [] && (items != [] ==> |sink| >= 2 && sink[|sink| - 1].sentBytes as int == SizeOf(items))
    ensures Stream(sink + [last], items)
  {
    hide ProgressOf, SizeOf;
    assert (sink + [last])[..|sink|] == sink;
  }

  /** The items the metadata loop collects; an unreadable file counts as empty. */
  function ItemsOf(names: seq<Str>, sizes: seq<Option<nat>>, n: nat): (items: seq<Item>)
    requires n <= |names| == |sizes|
    ensures |items| == n
  {
    if n == 0 then []
    else ItemsOf(names, sizes, n - 1) + [Item(names[n - 1], if sizes[n - 1].Some? then sizes[n - 1].value else 0)]
  }
}
