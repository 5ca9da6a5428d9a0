/** `save_body` looks for a free name and creates the file in two steps. `Receiving` takes them
    as one; here they are apart, to say exactly when that matters. */
module CreateRace {
  import opened Protocol
  import Collision

  type Task = nat

  datatype Op = Choose(task: Task, name: string) | Create(task: Task) | Write(task: Task, data: Bytes) | Remove(task: Task)

  datatype Disk = Disk(folder: map<string, Bytes>, target: map<Task, string>)

  predicate Enabled(d: Disk, op: Op) {
    op.Choose? || op.task in d.target
  }

  /** `File::create` truncates a file that is there. */
  function Step(d: Disk, op: Op): Disk
    requires Enabled(d, op)
  {
    match op
    case Choose(t, name) => d.(target := d.target[t := Collision.Resolve(d.folder.Keys, name)])
    case Create(t) => d.(folder := d.folder[d.target[t] := []])
    case Write(t, data) =>
      var path := d.target[t];
      if path in d.folder then d.(folder := d.folder[path := d.folder[path] + data]) else d
    case Remove(t) => d.(folder := d.folder - {d.target[t]})
  }

  ghost predicate Run(trace: seq<Disk>, ops: seq<Op>) {
    && |trace| == |ops| + 1
    && forall k | 0 <= k < |ops| :: Enabled(trace[k], ops[k]) && trace[k + 1] == Step(trace[k], ops[k])
  }

  /** At step `k` a file is created at `path`. */
  predicate Creates(trace: seq<Disk>, ops: seq<Op>, k: nat, path: string)
    requires k < |ops| < |trace|
  {
    ops[k].Create? && ops[k].task in trace[k].target && trace[k].target[ops[k].task] == path
  }

  predicate Removes(trace: seq<Disk>, ops: seq<Op>, k: nat, path: string)
    requires k < |ops| < |trace|
  {
    ops[k].Remove? && ops[k].task in trace[k].target && trace[k].target[ops[k].task] == path
  }

  /** Step `k` created `path`, and it was not removed before `j`. */
  ghost predicate Holds(trace: seq<Disk>, ops: seq<Op>, k: nat, j: nat, path: string)
    requires k < j <= |ops| < |trace|
  {
    Creates(trace, ops, k, path) && forall m | k < m < j :: !Removes(trace, ops, m, path)
  }

  lemma HoldsExtends(trace: seq<Disk>, ops: seq<Op>, k: nat, j: nat, path: string)
    requires k < j < |ops| < |trace|
    ensures Holds(trace, ops, k, j + 1, path) <==> Holds(trace, ops, k, j, path) && !Removes(trace, ops, j, path)
  {
  }

  lemma StepTakes(d: Disk, op: Op, path: string)
    requires Enabled(d, op)
    ensures path in Step(d, op).folder <==>
            (op.Create? && d.target[op.task] == path) || (path in d.folder && !(op.Remove? && d.target[op.task] == path))
  {
  }

  /** `path`, free at `i`, is taken at `j` exactly when some step in between created it and
      none removed it after that. */
  lemma {:induction false} TakenExactly(trace: seq<Disk>, ops: seq<Op>, i: nat, j: nat, path: string)
    requires Run(trace, ops) && i <= j <= |ops| && path !in trace[i].folder
    ensures path in trace[j].folder <==> exists k | i <= k < j :: Holds(trace, ops, k, j, path)
    decreases j - i
  {
    hide Step, Holds;
    if i < j {
      var last := j - 1;
      TakenExactly(trace, ops, i, last, path);
      StepTakes(trace[last], ops[last], path);
      if Creates(trace, ops, last, path) {
        LastHolds(trace, ops, last, path);
      } else {
        forall k | i <= k < last
          ensures Holds(trace, ops, k, j, path) <==> Holds(trace, ops, k, last, path) && !Removes(trace, ops, last, path)
        {
          HoldsExtends(trace, ops, k, last, path);
        }
        assert !Holds(trace, ops, last, j, path) by { LastHolds(trace, ops, last, path); }
      }
    }
  }

  lemma LastHolds(trace: seq<Disk>, ops: seq<Op>, k: nat, path: string)
    requires k < |ops| < |trace|
    ensures Holds(trace, ops, k, k + 1, path) <==> Creates(trace, ops, k, path)
  {
  }

  /** The creation that follows a choice truncates somebody's file if and only if the chosen
      path was created in between and is still there. */
  lemma {:induction false} OverwritesExactly(trace: seq<Disk>, ops: seq<Op>, i: nat, j: nat)
    requires Run(trace, ops) && i < j < |ops|
    requires ops[i].Choose? && ops[j] == Create(ops[i].task)
    requires ops[i].task in trace[j].target && trace[j].target[ops[i].task] == trace[i + 1].target[ops[i].task]
    ensures var path := trace[i + 1].target[ops[i].task];
            path in trace[j].folder <==> exists k | i < k < j :: Holds(trace, ops, k, j, path)
  {
    hide Holds;
    var path := trace[i + 1].target[ops[i].task];
    assert trace[i + 1] == Step(trace[i], ops[i]);
    Collision.ResolveIsFirstFree(trace[i].folder.Keys, ops[i].name);
    assert path !in trace[i + 1].folder;
    TakenExactly(trace, ops, i + 1, j, path);
  }

  /** The file at `path` before step `j` is the one step `k` created. */
  ghost predicate CreatedBy(trace: seq<Disk>, ops: seq<Op>, k: nat, j: nat, path: string)
    requires k < j <= |ops| < |trace|
  {
    Holds(trace, ops, k, j, path) && forall m | k < m < j :: !Creates(trace, ops, m, path)
  }

  lemma {:induction false} LatestCreation(trace: seq<Disk>, ops: seq<Op>, k: nat, j: nat, path: string) returns (m: nat)
    requires k < j <= |ops| < |trace| && Holds(trace, ops, k, j, path)
    ensures k <= m < j && CreatedBy(trace, ops, m, j, path)
    decreases j - k
  {
    m := k;
    if n: nat :| k < n < j && Creates(trace, ops, n, path) {
      m := LatestCreation(trace, ops, n, j, path);
    }
  }

  /** A failed upload removes its path, once it created it at `m`. What it removes is another
      upload's file if and only if that was created over its own in between and is still there. */
  lemma {:induction false} RemovesOthersExactly(trace: seq<Disk>, ops: seq<Op>, m: nat, j: nat, path: string)
    requires Run(trace, ops) && m < j < |ops|
    requires Creates(trace, ops, m, path) && ops[j] == Remove(ops[m].task) && Removes(trace, ops, j, path)
    requires forall k | m < k < j :: ops[k] != Create(ops[m].task)
    ensures (exists k: nat :: k < j && CreatedBy(trace, ops, k, j, path) && ops[k].task != ops[m].task)
            <==> exists k | m < k < j :: Holds(trace, ops, k, j, path)
  {
    if k: nat :| k < j && CreatedBy(trace, ops, k, j, path) && ops[k].task != ops[m].task {
      assert k > m && Holds(trace, ops, k, j, path);
    }
    if k :| m < k < j && Holds(trace, ops, k, j, path) {
      var n := LatestCreation(trace, ops, k, j, path);
      assert ops[n].task != ops[m].task;
    }
  }

  /** Two uploads of one name choose before either creates; the one that fails removes the file
      the other completed. */
  lemma {:induction false} FailedUploadRemovesOther() returns (trace: seq<Disk>, ops: seq<Op>)
    ensures Run(trace, ops) && |ops| == 6 && ops[5] == Remove(2)
    ensures trace[5].folder == map["a" := [7]] && CreatedBy(trace, ops, 3, 5, "a") && ops[3] == Create(1)
    ensures trace[6].folder == map[]
  {
    var d0 := Disk(map[], map[]);
    ops := [Choose(1, "a"), Choose(2, "a"), Create(2), Create(1), Write(1, [7]), Remove(2)];
    FirstName();
    assert d0.folder.Keys == {};
    var d1 := Step(d0, ops[0]);
    assert d1.folder.Keys == {};
    var d2 := Step(d1, ops[1]);
    var d3 := Step(d2, ops[2]);
    var d4 := Step(d3, ops[3]);
    var d5 := Step(d4, ops[4]);
    assert d4.folder["a"] + [7] == [7];
    trace := [d0, d1, d2, d3, d4, d5, Step(d5, ops[5])];
  }

  lemma FirstName()
    ensures Collision.Resolve({}, "a") == "a"
  {
    Collision.ResolveIsFirstFree({}, "a");
    Collision.StemAndExt("a");
    assert Collision.Candidate(Collision.Stem("a"), Collision.Ext("a"), 0) == "a";
  }

  /** Two uploads of one name choose before either creates: the second empties the file that
      the first had completed. */
  lemma {:induction false} TwoUploadsOneName() returns (trace: seq<Disk>, ops: seq<Op>)
    ensures Run(trace, ops) && |ops| == 5
    ensures trace[4].folder == map["a" := [7]] && trace[5].folder == map["a" := []]
  {
    var d0 := Disk(map[], map[]);
    ops := [Choose(1, "a"), Choose(2, "a"), Create(1), Write(1, [7]), Create(2)];
    FirstName();
    assert d0.folder.Keys == {};
    var d1 := Step(d0, ops[0]);
    assert d1.folder.Keys == {};
    var d2 := Step(d1, ops[1]);
    var d3 := Step(d2, ops[2]);
    var d4 := Step(d3, ops[3]);
    assert d3.folder["a"] + [7] == [7];
    trace := [d0, d1, d2, d3, d4, Step(d4, ops[4])];
  }
}
