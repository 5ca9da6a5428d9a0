/** The save folder over whole runs: nothing is overwritten, nothing is left behind, and
    every saved file goes back to an approval. */
module Folder {
  import opened Protocol
  import opened Receiving
  import opened ReceiverInvariant

  // ---- no overwriting ---------------------------------------------------------------

  ghost predicate InFlight(w: World, path: string) {
    exists r :: r in w.uploading && HasPath(w.uploading[r].phase) && w.uploading[r].phase.path == path
  }

  /** A file that no upload is still writing. */
  ghost predicate Settled(w: World, path: string) {
    path in w.folder && !InFlight(w, path)
  }

  /** The path an action's own upload has afterwards. */
  lemma OwnPath(w: World, a: Action)
    requires Enabled(w, a)
    requires a.req in Step(w, a).uploading && HasPath(Step(w, a).uploading[a.req].phase)
    ensures a.req in w.uploading
    ensures Step(w, a).uploading[a.req].phase.path ==
      if HasPath(w.uploading[a.req].phase) then w.uploading[a.req].phase.path else Target(w, w.uploading[a.req].ticket)
    ensures HasPath(w.uploading[a.req].phase) || a.Create?
  {
    hide FreshNames, AfterReceived, ValidUpload, Contents, Target, InPhase;
    match a
    case Create(_) => InPhaseIs(w, a.req);
    case _ =>
      Unanswered(w, a);
      InPhaseIs(w, a.req);
  }

  /** An action that answers its request drops the request's upload. */
  lemma Unanswered(w: World, a: Action)
    requires Enabled(w, a)
    requires a.req in Step(w, a).uploading && HasPath(Step(w, a).uploading[a.req].phase)
    ensures a.Create? || a.Chunk? || a.EndBody? || a.Approve?
  {
    hide FreshNames, AfterReceived, ValidUpload, Contents, Target;
  }

  lemma InPhaseIs(w: World, req: Req)
    ensures InPhase(w, req, IsReady) ==> req in w.uploading && w.uploading[req].phase.Ready?
    ensures InPhase(w, req, IsWriting) ==> req in w.uploading && w.uploading[req].phase.Writing?
  {
  }

  /** An action touches no file but its own upload's. */
  lemma {:induction false} FilesElsewhere(w: World, a: Action, path: string)
    requires Enabled(w, a) && path in w.folder
    requires a.Create? ==> Target(w, w.uploading[a.req].ticket) != path
    requires a.req in w.uploading && HasPath(w.uploading[a.req].phase) ==> w.uploading[a.req].phase.path != path
    ensures path in Step(w, a).folder && Step(w, a).folder[path] == w.folder[path]
  {
    hide FreshNames, AfterReceived, ValidUpload, Target;
  }

  /** No action changes, removes or takes over a settled file. */
  lemma {:induction false} SettledStays(w: World, a: Action, path: string)
    requires Enabled(w, a) && Settled(w, path)
    ensures Settled(Step(w, a), path) && Step(w, a).folder[path] == w.folder[path]
  {
    hide Step, Target;
    var v := Step(w, a);
    if a.Create? {
      TargetIsFree(w, w.uploading[a.req].ticket);
    }
    FilesElsewhere(w, a, path);
    forall r | r in v.uploading && HasPath(v.uploading[r].phase) ensures v.uploading[r].phase.path != path {
      if r == a.req {
        OwnPath(w, a);
      } else {
        Elsewhere(w, a, r);
      }
    }
  }

  /** Once settled at some moment of a run, a file keeps its bytes for the rest of it. */
  lemma {:induction false} SettledForever(trace: seq<World>, acts: seq<Action>, i: nat, j: nat, path: string)
    requires Run(trace, acts) && i <= j <= |acts| && Settled(trace[i], path)
    ensures Settled(trace[j], path) && trace[j].folder[path] == trace[i].folder[path]
    decreases j - i
  {
    hide Step, Enabled, InFlight, Boot;
    if i < j {
      SettledForever(trace, acts, i, j - 1, path);
      SettledStays(trace[j - 1], acts[j - 1], path);
    }
  }

  /** Uploads in flight write to pairwise distinct files, none of them a saved one. */
  lemma {:induction false} TargetsApart(trace: seq<World>, acts: seq<Action>, k: nat, r: Req, s: Req)
    requires Run(trace, acts) && k <= |acts|
    requires r in trace[k].uploading && s in trace[k].uploading && r != s
    requires HasPath(trace[k].uploading[r].phase) && HasPath(trace[k].uploading[s].phase)
    ensures trace[k].uploading[r].phase.path != trace[k].uploading[s].phase.path
    ensures forall e | e in trace[k].log && e.Saved? :: e.path != trace[k].uploading[r].phase.path
  {
    InvAlways(trace, acts, k);
  }

  // ---- conservation -----------------------------------------------------------------

  ghost predicate SavedAt(log: seq<Event>, path: string) {
    exists e :: e in log && e.Saved? && e.path == path
  }

  /** The folder is what it was at the start, plus the saved files, plus the files in flight. */
  ghost predicate Accounted(w: World, base: map<string, Bytes>) {
    && (forall p | p in base :: Settled(w, p) && w.folder[p] == base[p] && !SavedAt(w.log, p))
    && (forall p | p in w.folder :: p in base || SavedAt(w.log, p) || InFlight(w, p))
  }

  /** Where a file of the next state comes from. */
  lemma NewFilesAreInFlight(w: World, a: Action, path: string)
    requires Enabled(w, a) && path in Step(w, a).folder
    ensures path in w.folder || InFlight(Step(w, a), path)
  {
    hide FreshNames, AfterReceived;
    var v := Step(w, a);
    if a.Create? || a.Chunk? {
      assert a.req in v.uploading && HasPath(v.uploading[a.req].phase);
    }
  }

  /** An action of one task leaves the other tasks alone. */
  lemma OthersUntouched(w: World, a: Action, r: Req)
    requires Enabled(w, a) && r != a.req && r in w.uploading
    ensures r in Step(w, a).uploading && Step(w, a).uploading[r] == w.uploading[r]
  {
    hide Step, Enabled;
    Elsewhere(w, a, r);
  }

  /** An upload keeps its file, is finished, or loses the file. */
  lemma UploadContinues(w: World, a: Action, r: Req)
    requires Apart(w.asking, w.uploading, w.replies)
    requires Enabled(w, a) && r in w.uploading && HasPath(w.uploading[r].phase)
    ensures var v, path := Step(w, a), w.uploading[r].phase.path;
            || (r in v.uploading && HasPath(v.uploading[r].phase) && v.uploading[r].phase.path == path)
            || a == Finish(r)
            || path !in v.folder
  {
    if a.req == r {
      assert r !in w.asking && r !in w.replies;
      assert a.Chunk? || a.BodyFails? || a.EndBody? || a.Finish?;
    } else {
      hide Step;
      OthersUntouched(w, a, r);
    }
  }

  lemma FlightsContinue(w: World, a: Action, path: string)
    requires Apart(w.asking, w.uploading, w.replies)
    requires Enabled(w, a) && path in Step(w, a).folder && InFlight(w, path)
    ensures InFlight(Step(w, a), path) || SavedAt(Step(w, a).log, path)
  {
    hide Apart;
    var r :| r in w.uploading && HasPath(w.uploading[r].phase) && w.uploading[r].phase.path == path;
    UploadContinues(w, a, r);
    if a == Finish(r) {
      var e := Saved(r, w.uploading[r].ticket, path);
      assert e in Step(w, a).log && e.path == path;
    }
  }

  lemma SavedAtStep(w: World, a: Action, path: string)
    requires Enabled(w, a)
    ensures SavedAt(w.log, path) ==> SavedAt(Step(w, a).log, path)
    ensures SavedAt(Step(w, a).log, path) ==> SavedAt(w.log, path) || InFlight(w, path)
  {
    hide FreshNames, AfterReceived;
    var v := Step(w, a);
    if SavedAt(w.log, path) {
      var s :| s in w.log && s.Saved? && s.path == path;
      assert s in v.log;
    }
    if SavedAt(v.log, path) {
      var s :| s in v.log && s.Saved? && s.path == path;
      if s !in w.log {
        assert a.Finish? && s.req == a.req;
        assert a.req in w.uploading && HasPath(w.uploading[a.req].phase);
      }
    }
  }

  lemma BaseStays(w: World, a: Action, base: map<string, Bytes>, p: string)
    requires Enabled(w, a) && Accounted(w, base) && p in base
    ensures Settled(Step(w, a), p) && Step(w, a).folder[p] == base[p] && !SavedAt(Step(w, a).log, p)
  {
    hide Step, Enabled, SavedAt;
    SettledStays(w, a, p);
    SavedAtStep(w, a, p);
  }

  lemma RestAccounted(w: World, a: Action, base: map<string, Bytes>, p: string)
    requires Apart(w.asking, w.uploading, w.replies) && Enabled(w, a) && Accounted(w, base)
    requires p in Step(w, a).folder
    ensures p in base || SavedAt(Step(w, a).log, p) || InFlight(Step(w, a), p)
  {
    hide Step, Enabled, SavedAt, InFlight, Apart;
    NewFilesAreInFlight(w, a, p);
    if InFlight(w, p) { FlightsContinue(w, a, p); }
    SavedAtStep(w, a, p);
  }

  lemma {:induction false} AccountedStep(w: World, a: Action, base: map<string, Bytes>)
    requires Apart(w.asking, w.uploading, w.replies) && Enabled(w, a) && Accounted(w, base)
    ensures Accounted(Step(w, a), base)
  {
    hide Step, Enabled, SavedAt, InFlight, Apart;
    var v := Step(w, a);
    forall p | p in base ensures Settled(v, p) && v.folder[p] == base[p] && !SavedAt(v.log, p) {
      BaseStays(w, a, base, p);
    }
    forall p | p in v.folder ensures p in base || SavedAt(v.log, p) || InFlight(v, p) {
      RestAccounted(w, a, base, p);
    }
  }

  /** In every state of every run: the files from before the start are untouched, and every
      other file was saved or is in flight. So when nothing is in flight, no partial file is
      left anywhere. */
  lemma {:induction false} FolderConserved(trace: seq<World>, acts: seq<Action>, k: nat)
    requires Run(trace, acts) && k <= |acts|
    ensures Accounted(trace[k], trace[0].folder)
  {
    if k > 0 {
      FolderConserved(trace, acts, k - 1);
      InvAlways(trace, acts, k - 1);
      AccountedStep(trace[k - 1], acts[k - 1], trace[0].folder);
    }
  }

  // ---- provenance -------------------------------------------------------------------

  /** In order: the request was asked, the user approved it, its session was opened, an
      upload was accepted on the token issued for this file in that session. */
  ghost predicate Chain(log: seq<Event>, m: nat, t: Ticket, h: nat, i: nat, j: nat, l: nat) {
    && h < i < j < l < m < |log|
    && log[l] == Accepted(log[m].req, t)
    && Issues(log[j], t)
    && log[i] == Approved(log[j].req, log[j].prepare)
    && log[h] == Asked(log[j].req, log[j].prepare)
  }

  /** The `m`-th event of `log` is a save of exactly the announced number of bytes, under the
      announced name, that goes back to an approval naming this file and this sender. */
  ghost predicate Authorized(log: seq<Event>, m: nat) {
    && m < |log| && log[m].Saved?
    && |log[m].ticket.body| == log[m].ticket.meta.size
    && NamedAfter(log[m].path, log[m].ticket.meta.name)
    && exists h: nat, i: nat, j: nat, l: nat :: Chain(log, m, log[m].ticket, h, i, j, l)
  }

  lemma IndexOf(log: seq<Event>, k: nat, e: Event) returns (i: nat)
    requires k <= |log| && e in log[..k]
    ensures i < k && log[i] == e
  {
    i :| i < k && log[..k][i] == e;
  }

  lemma JustifiedAt(log: seq<Event>, k: nat)
    requires Grounded(log) && k < |log|
    ensures Justified(log[..k], log[k])
  {
  }

  lemma OpenedGoesBack(log: seq<Event>, j: nat) returns (h: nat, i: nat)
    requires Grounded(log) && j < |log| && log[j].Opened?
    ensures h < i < j && log[i] == Approved(log[j].req, log[j].prepare) && log[h] == Asked(log[j].req, log[j].prepare)
  {
    hide Grounded;
    JustifiedAt(log, j);
    i := IndexOf(log, j, Approved(log[j].req, log[j].prepare));
    JustifiedAt(log, i);
    h := IndexOf(log, i, Asked(log[j].req, log[j].prepare));
  }

  lemma AcceptedGoesBack(log: seq<Event>, l: nat) returns (j: nat)
    requires Grounded(log) && l < |log| && log[l].Accepted?
    ensures j < l && Issues(log[j], log[l].ticket)
  {
    hide Grounded;
    JustifiedAt(log, l);
    var o :| o in log[..l] && Issues(o, log[l].ticket);
    j := IndexOf(log, l, o);
  }

  lemma {:induction false} SavesAreAuthorized(log: seq<Event>, m: nat)
    requires Grounded(log) && m < |log| && log[m].Saved?
    ensures Authorized(log, m)
  {
    hide Grounded;
    JustifiedAt(log, m);
    var l := IndexOf(log, m, Accepted(log[m].req, log[m].ticket));
    var j := AcceptedGoesBack(log, l);
    var h, i := OpenedGoesBack(log, j);
    assert Chain(log, m, log[m].ticket, h, i, j, l);
  }

  lemma SessionOfTicketUnique(w: World, t: Ticket)
    requires IdsOk(w.issued, w.log)
    ensures forall e, f | e in w.log && f in w.log && Issues(e, t) && Issues(f, t) :: e == f
  {
  }

  /** Provenance over whole runs, under any interleaving: every save is authorized, by the
      only session of its id, and from then on its file holds exactly the uploaded bytes. */
  lemma {:induction false} Provenance(trace: seq<World>, acts: seq<Action>, k: nat, m: nat)
    requires Run(trace, acts) && k <= |acts|
    requires m < |trace[k].log| && trace[k].log[m].Saved?
    ensures Authorized(trace[k].log, m)
    ensures forall e, f | e in trace[k].log && f in trace[k].log && Issues(e, trace[k].log[m].ticket)
                          && Issues(f, trace[k].log[m].ticket) :: e == f
    ensures trace[k].log[m].path in trace[k].folder
    ensures trace[k].folder[trace[k].log[m].path] == trace[k].log[m].ticket.body
  {
    hide SessionOk, IdsOk, RequestsOk, Grounded, Authorized, ContentsOk, PathsDistinct, SavedApart, SavedUnique;
    InvAlways(trace, acts, k);
    SavesAreAuthorized(trace[k].log, m);
    SessionOfTicketUnique(trace[k], trace[k].log[m].ticket);
    assert trace[k].log[m] in trace[k].log;
  }

  // ---- counting ---------------------------------------------------------------------

  /** In every state of every run, also when late uploads complete into another session: a
      live session has a token per file and at least one file to go. */
  lemma {:induction false} Counting(trace: seq<World>, acts: seq<Action>, k: nat)
    requires Run(trace, acts) && k <= |acts| && trace[k].state.Sending?
    ensures var s := trace[k].state.session; s.tokens.Keys == s.files.Keys && |s.received| < |s.files|
  {
    InvAlways(trace, acts, k);
  }

  /** The unguarded `session.files[&file_id]` of a valid upload always finds its entry. */
  lemma {:induction false} LookupNeverMisses(trace: seq<World>, acts: seq<Action>, k: nat, sid: string, fid: string, token: string)
    requires Run(trace, acts) && k <= |acts|
    requires ValidUpload(trace[k].state, sid, fid, token)
    ensures fid in trace[k].state.session.files
  {
    Counting(trace, acts, k);
  }
}
