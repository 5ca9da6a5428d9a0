/** The receiver object: the fields its handlers share, and the lock-held regions and file
    operations of the handlers as methods that update them. Each is one action of
    `Receiving`; `SaveBody` is the whole of `save_body` when nothing interleaves. */
module Receiver {
  import opened Protocol
  import opened Receiving
  import Collision
  import Trust

  /** One frame of a request body; `Fault` stands for a read, write or flush that fails. */
  datatype Frame = Data(data: Bytes) | Trailers | Fault

  /** The bytes before the first fault. */
  function Delivered(frames: seq<Frame>): Bytes {
    if frames == [] then []
    else match frames[0]
      case Data(data) => data + Delivered(frames[1..])
      case Trailers => Delivered(frames[1..])
      case Fault => []
  }

  predicate Intact(frames: seq<Frame>) {
    forall f | f in frames :: !f.Fault?
  }

  lemma {:induction false} DeliveredUpTo(frames: seq<Frame>, i: nat)
    requires i < |frames| && Intact(frames[..i])
    ensures Delivered(frames[..i + 1]) == Delivered(frames[..i]) + (if frames[i].Data? then frames[i].data else [])
  {
    if i == 0 {
      assert frames[..1] == [frames[0]] && frames[..1][1..] == [];
    } else {
      assert frames[..i + 1][1..] == frames[1..][..i] && frames[..i][1..] == frames[1..][..i - 1];
      assert Intact(frames[1..][..i - 1]) by {
        forall f | f in frames[1..][..i - 1] ensures !f.Fault? {
          assert f in frames[..i][1..];
          assert f in frames[..i];
        }
      }
      DeliveredUpTo(frames[1..], i - 1);
      assert frames[0] in frames[..i];
    }
  }

  class Receiver {
    var state: State
    var trust: Trust.Devices
    var folder: map<string, Bytes>
    var asking: map<Req, Asking>
    var uploading: map<Req, Upload>
    var replies: map<Req, Reply>
    var issued: set<string>
    var log: seq<Event>

    function Snapshot(): World
      reads this
    {
      World(state, trust, folder, asking, uploading, replies, issued, log)
    }

    constructor (trust: Trust.Devices, folder: map<string, Bytes>)
      ensures Boot(Snapshot()) && this.trust == trust && this.folder == folder
    {
      state := Idle;
      this.trust, this.folder := trust, folder;
      asking, uploading, replies, issued, log := map[], map[], map[], {}, [];
    }

    method Respond(req: Req, reply: Reply)
      modifies this`asking, this`uploading, this`replies
      ensures Snapshot() == Answer(old(Snapshot()), req, reply)
    {
      asking := asking - {req};
      uploading := uploading - {req};
      replies := replies[req := reply];
    }

    /** `handle_prepare` up to where it waits for the user. */
    method BeginPrepare(req: Req, prepare: Prepare)
      requires Fresh(Snapshot(), req)
      modifies this
      ensures Snapshot() == Step(old(Snapshot()), Action.BeginPrepare(req, prepare))
    {
      if prepare.files == map[] {
        Respond(req, Status(400));
        return;
      }
      match state {
        case Idle =>
          state := Pending;
        case _ =>
          Respond(req, Status(409));
          return;
      }
      asking := asking[req := Asking(prepare, false)];
      log := log + [Asked(req, prepare)];
    }

    /** The user's answer, or none in time. */
    method Decide(req: Req, answer: Option<bool>, now: string)
      requires req in asking && !asking[req].approved
      modifies this
      ensures Snapshot() == Step(old(Snapshot()), match answer
                                                  case None => TimeOut(req)
                                                  case Some(yes) => if yes then Approve(req, now) else Reject(req))
    {
      var prepare := asking[req].prepare;
      match answer {
        case None =>
          state := Idle;
          Respond(req, Status(408));
        case Some(yes) =>
          if !yes {
            state := Idle;
            Respond(req, Status(403));
            return;
          }
          if prepare.info.fingerprint !in trust {
            trust := trust[prepare.info.fingerprint := Trust.TrustedDevice(prepare.info.alias, now)];
          }
          asking := asking[req := Asking(prepare, true)];
          log := log + [Approved(req, prepare)];
      }
    }

    /** The rest of `handle_prepare`; the random names are inputs. */
    method OpenSession(req: Req, sessionId: string, tokens: map<string, string>)
      requires Enabled(Snapshot(), Open(req, sessionId, tokens))
      modifies this
      ensures Snapshot() == Step(old(Snapshot()), Open(req, sessionId, tokens))
    {
      var prepare := asking[req].prepare;
      state := Sending(Session(sessionId, prepare.info.alias, prepare.files, tokens, {}));
      issued := issued + {sessionId} + tokens.Values;
      Respond(req, Granted(sessionId, tokens));
      log := log + [Opened(req, prepare, sessionId, tokens)];
    }

    /** `handle_upload` up to `save_body`. */
    method BeginUpload(req: Req, sessionId: string, fileId: string, token: string, body: Bytes)
      requires Fresh(Snapshot(), req)
      requires ValidUpload(state, sessionId, fileId, token) ==> fileId in state.session.files
      modifies this
      ensures Snapshot() == Step(old(Snapshot()), Action.BeginUpload(req, sessionId, fileId, token, body))
    {
      match state {
        case Sending(session) =>
          var valid := session.id == sessionId && token != "" &&
          fileId in session.tokens && session.tokens[fileId] == token &&
          fileId !in session.received;
          if !valid {
            Respond(req, Status(404));
            return;
          }
          var ticket := Ticket(sessionId, fileId, token, session.files[fileId], session.fromAlias, body);
          uploading := uploading[req := Upload(ticket, Ready)];
          log := log + [Accepted(req, ticket)];
        case _ =>
          Respond(req, Status(404));
      }
    }

    /** The end of `handle_upload`, after `save_body` returned `Ok` or `Err`. */
    method EndUpload(req: Req)
      requires InPhase(Snapshot(), req, IsStored) || InPhase(Snapshot(), req, IsBroken)
      modifies this
      ensures Snapshot() == Step(old(Snapshot()), if old(uploading)[req].phase.Stored? then Finish(req) else Abandon(req))
    {
      var u := uploading[req];
      if u.phase.Stored? {
        if state.Sending? {
          var session := state.session.(received := state.session.received + {u.ticket.fileId});
          if |session.received| == |session.files| {
            state := Idle;
          } else {
            state := Sending(session);
          }
        }
        Respond(req, Status(200));
        log := log + [Saved(req, u.ticket, u.phase.path)];
      } else {
        state := Idle;
        Respond(req, Status(500));
      }
    }

    /** `handle_cancel`. */
    method Cancel(req: Req, sessionId: string)
      requires Fresh(Snapshot(), req)
      modifies this
      ensures Snapshot() == Step(old(Snapshot()), Action.Cancel(req, sessionId))
    {
      if state.Sending? {
        if state.session.id == sessionId {
          state := Idle;
          Respond(req, Status(200));
          return;
        }
      }
      Respond(req, Status(404));
    }

    /** The loop of `save_body`: appends the frames to the created file. */
    method WriteFrames(target: string, frames: seq<Frame>) returns (ok: bool, written: nat)
      requires target in folder && folder[target] == []
      modifies this`folder
      ensures ok <==> Intact(frames)
      ensures folder - {target} == old(folder) - {target}
      ensures ok ==> folder == old(folder)[target := Delivered(frames)] && written == |Delivered(frames)|
    {
      written, ok := 0, true;
      ghost var content: Bytes := [];
      var i := 0;
      assert frames[..0] == [];
      while i < |frames|
        invariant i <= |frames| && ok
        invariant folder == old(folder)[target := content] && written == |content|
        invariant Intact(frames[..i]) && content == Delivered(frames[..i])
      {
        if frames[i].Fault? {
          assert frames[i] in frames;
          return false, written;
        }
        DeliveredUpTo(frames, i);
        assert frames[..i + 1] == frames[..i] + [frames[i]];
        if frames[i].Data? {
          folder := folder[target := folder[target] + frames[i].data];
          written := written + |frames[i].data|;
          content := content + frames[i].data;
        }
        i := i + 1;
      }
      assert frames[..i] == frames;
    }

    /** `save_body` run without interruption. It succeeds exactly when the body arrives whole
        and has the announced size; then the folder gains one new file with exactly those
        bytes, and otherwise the folder is as it was. */
    method SaveBody(meta: FileMeta, frames: seq<Frame>, creates: bool) returns (saved: Option<string>)
      modifies this`folder
      ensures saved.Some? <==> creates && Intact(frames) && |Delivered(frames)| == meta.size
      ensures saved.Some? ==> saved.value !in old(folder) && folder == old(folder)[saved.value := Delivered(frames)]
      ensures saved.Some? ==> saved.value == Collision.Resolve(old(folder).Keys, Collision.FileName(meta.name))
      ensures saved.None? ==> folder == old(folder)
    {
      hide Delivered, Intact, Collision.FirstFree, Collision.FileName, Collision.Resolve;
      hide Collision.IsSplit, Collision.IsNumbered;
      var name := Collision.FileName(meta.name);
      var target, _ := Collision.ResolveCollision(folder.Keys, name);
      if !creates {
        return None;
      }
      folder := folder[target := []];
      var ok, written := WriteFrames(target, frames);
      if !ok || written != meta.size {
        folder := folder - {target};
        assert folder == old(folder);
        return None;
      }
      return Some(target);
    }
  }

  // ---- the same, as actions ---------------------------------------------------------

  /** The chunks of one upload, one after the other. */
  function AfterChunks(w: World, req: Req, sizes: seq<nat>): (v: World)
    requires InPhase(w, req, IsWriting)
    requires w.uploading[req].phase.written + Sum(sizes) <= |w.uploading[req].ticket.body|
    ensures InPhase(v, req, IsWriting) && v.uploading[req].ticket == w.uploading[req].ticket
    ensures v.uploading[req].phase.written == w.uploading[req].phase.written + Sum(sizes)
    decreases |sizes|
  {
    if sizes == [] then w
    else
      SumFromFront(sizes);
      AfterChunks(Step(w, Chunk(req, sizes[0])), req, sizes[1..])
  }

  lemma ChunkAppends(w: World, req: Req, count: nat)
    requires InPhase(w, req, IsWriting) && w.uploading[req].phase.path in w.folder
    requires w.uploading[req].phase.written + count <= |w.uploading[req].ticket.body|
    ensures var u, v := w.uploading[req], Step(w, Chunk(req, count));
            var upto := u.phase.written + count;
            && v.folder == w.folder[u.phase.path := w.folder[u.phase.path] + u.ticket.body[u.phase.written..upto]]
            && v.uploading == w.uploading[req := u.(phase := Writing(u.phase.path, upto))]
  {
  }

  lemma UpdatedTwice<K, V>(m: map<K, V>, k: K, a: V, b: V)
    ensures m[k := a][k := b] == m[k := b]
  {
  }

  lemma NextSlice(file: Bytes, body: Bytes, from: nat, mid: nat, upto: nat)
    requires from <= mid <= upto <= |body|
    ensures (file + body[from..mid]) + body[mid..upto] == file + body[from..upto]
  {
    assert body[from..mid] + body[mid..upto] == body[from..upto];
  }

  lemma {:induction false} ChunksAppend(w: World, req: Req, sizes: seq<nat>)
    requires InPhase(w, req, IsWriting) && w.uploading[req].phase.path in w.folder
    requires w.uploading[req].phase.written + Sum(sizes) <= |w.uploading[req].ticket.body|
    ensures var u, v := w.uploading[req], AfterChunks(w, req, sizes);
            var upto := u.phase.written + Sum(sizes);
            && v.folder == w.folder[u.phase.path := w.folder[u.phase.path] + u.ticket.body[u.phase.written..upto]]
            && v.uploading == w.uploading[req := u.(phase := Writing(u.phase.path, upto))]
    decreases |sizes|
  {
    var u := w.uploading[req];
    var body, from, path := u.ticket.body, u.phase.written, u.phase.path;
    if sizes == [] {
      assert w.folder[path] + body[from..from] == w.folder[path];
    } else {
      hide Step;
      SumFromFront(sizes);
      var mid, upto := from + sizes[0], from + Sum(sizes);
      var w1 := Step(w, Chunk(req, sizes[0]));
      ChunkAppends(w, req, sizes[0]);
      ChunksAppend(w1, req, sizes[1..]);
      NextSlice(w.folder[path], body, from, mid, upto);
      UpdatedTwice(w.folder, path, w1.folder[path], w.folder[path] + body[from..upto]);
      UpdatedTwice(w.uploading, req, w1.uploading[req], u.(phase := Writing(path, upto)));
    }
  }

  /** However the body is cut into chunks, an uninterrupted upload has the effect of
      `SaveBody` on the folder. */
  lemma {:induction false} UninterruptedSave(w: World, req: Req, sizes: seq<nat>)
    requires InPhase(w, req, IsReady) && Sum(sizes) == |w.uploading[req].ticket.body|
    ensures var t, created := w.uploading[req].ticket, Step(w, Create(req));
            var path := Target(w, t);
            var v := DoEndBody(AfterChunks(created, req, sizes), req);
            if |t.body| == t.meta.size then
              v.folder == w.folder[path := t.body] && v.uploading[req].phase == Stored(path)
            else
              v.folder == w.folder && v.uploading[req].phase == Broken
  {
    var t, created := w.uploading[req].ticket, Step(w, Create(req));
    var path := Target(w, t);
    TargetFree(w, t);
    hide Target, AfterChunks;
    CreateWrites(w, req);
    hide Step, DoEndBody;
    ChunksAppend(created, req, sizes);
    assert [] + t.body[0..|t.body|] == t.body;
    UpdatedTwice(w.folder, path, [], t.body);
    EndOfBody(AfterChunks(created, req, sizes), req, w.folder, path);
  }

  lemma CreateWrites(w: World, req: Req)
    requires InPhase(w, req, IsReady)
    ensures var u, v, path := w.uploading[req], Step(w, Create(req)), Target(w, w.uploading[req].ticket);
            v.folder == w.folder[path := []] && v.uploading == w.uploading[req := u.(phase := Writing(path, 0))]
  {
    hide Target;
  }

  lemma EndOfBody(v: World, req: Req, before: map<string, Bytes>, path: string)
    requires InPhase(v, req, IsWriting) && v.uploading[req].phase == Writing(path, |v.uploading[req].ticket.body|)
    requires path !in before && v.folder == before[path := v.uploading[req].ticket.body]
    ensures var t, after := v.uploading[req].ticket, DoEndBody(v, req);
            if |t.body| == t.meta.size then
              after.folder == v.folder && after.uploading[req].phase == Stored(path)
            else
              after.folder == before && after.uploading[req].phase == Broken
  {
    assert before[path := v.uploading[req].ticket.body] - {path} == before;
  }

  lemma TargetFree(w: World, t: Ticket)
    ensures Target(w, t) !in w.folder
  {
    Collision.ResolveIsFirstFree(w.folder.Keys, Collision.FileName(t.meta.name));
  }
}
