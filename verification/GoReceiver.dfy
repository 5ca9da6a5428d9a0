/** The receiver object of go-cli: its fields and, as methods, the regions of its handlers that
    hold the lock. Each is one action of `GoReceiving`. */
module GoReceiver {
  import opened Protocol
  import opened Receiving
  import opened GoReceiving
  import Collision
  import Text
  import Trust

  class Receiver {
    var state: GoState
    var sessionId: string
    var tokens: map<string, string>
    var files: map<string, FileMeta>
    var remaining: set<string>
    var fromAlias: string
    var trust: Trust.Devices
    var folder: map<string, Bytes>
    var asking: map<Req, Asking>
    var uploading: map<Req, Upload>
    var replies: map<Req, Reply>
    var issued: set<string>

    function Snapshot(): GoWorld
      reads this
    {
      GoWorld(state, sessionId, tokens, files, remaining, fromAlias, trust, folder, asking, uploading, replies, issued)
    }

    constructor (trust: Trust.Devices, folder: map<string, Bytes>)
      ensures GoBoot(Snapshot()) && this.trust == trust && this.folder == folder
    {
      state, sessionId, fromAlias := StateIdle, "", "";
      tokens, files, remaining := map[], map[], {};
      this.trust, this.folder := trust, folder;
      asking, uploading, replies, issued := map[], map[], map[], {};
    }

    method Respond(req: Req, reply: Reply)
      modifies this`asking, this`uploading, this`replies
      ensures Snapshot() == GoAnswer(old(Snapshot()), req, reply)
    {
      asking := asking - {req};
      uploading := uploading - {req};
      replies := replies[req := reply];
    }

    /** `setIdle`. */
    method GoIdle()
      modifies this`state, this`sessionId
      ensures Snapshot() == SetIdle(old(Snapshot()))
    {
      state := StateIdle;
      sessionId := "";
    }

    method BeginPrepare(req: Req, prepare: Prepare)
      requires GoFresh(Snapshot(), req)
      modifies this
      ensures Snapshot() == GoStep(old(Snapshot()), Action.BeginPrepare(req, prepare))
    {
      if !state.StateIdle? {
        Respond(req, Status(409));
        return;
      }
      state := StatePending;
      asking := asking[req := Asking(prepare, false)];
    }

    method Decide(req: Req, answer: Option<bool>, now: string)
      requires req in asking && !asking[req].approved
      modifies this
      ensures Snapshot() == GoStep(old(Snapshot()), match answer
                                                    case None => TimeOut(req)
                                                    case Some(yes) => if yes then Approve(req, now) else Reject(req))
    {
      var prepare := asking[req].prepare;
      match answer {
        case None =>
          GoIdle();
          Respond(req, Status(408));
        case Some(yes) =>
          if !yes {
            GoIdle();
            Respond(req, Status(403));
            return;
          }
          if prepare.info.fingerprint !in trust {
            trust := trust[prepare.info.fingerprint := Trust.TrustedDevice(prepare.info.alias, now)];
          }
          asking := asking[req := Asking(prepare, true)];
      }
    }

    /** The loop that gives every file a token; `names` are the random tokens it draws. */
    method IssueTokens(wanted: map<string, FileMeta>, names: map<string, string>) returns (respTokens: map<string, string>)
      requires names.Keys == wanted.Keys
      modifies this`tokens, this`remaining
      ensures tokens == names && respTokens == names && remaining == wanted.Keys
    {
      respTokens := map[];
      tokens, remaining := map[], {};
      var todo := wanted.Keys;
      while todo != {}
        invariant todo <= wanted.Keys
        invariant tokens.Keys == remaining == wanted.Keys - todo
        invariant forall id | id in tokens :: tokens[id] == names[id]
        invariant respTokens == tokens
        decreases todo
      {
        var fileId :| fileId in todo;
        var token := names[fileId];
        tokens := tokens[fileId := token];
        respTokens := respTokens[fileId := token];
        remaining := remaining + {fileId};
        todo := todo - {fileId};
      }
      assert tokens == names;
    }

    method OpenSession(req: Req, sid: string, names: map<string, string>)
      requires req in asking && asking[req].approved && names.Keys == asking[req].prepare.files.Keys
      modifies this
      ensures Snapshot() == GoOpen(old(Snapshot()), req, sid, names)
    {
      var prepare := asking[req].prepare;
      state := StateSending;
      sessionId := sid;
      files := prepare.files;
      fromAlias := prepare.info.alias;
      var respTokens := IssueTokens(prepare.files, names);
      issued := issued + {sid} + names.Values;
      Respond(req, Granted(sid, respTokens));
    }

    method BeginUpload(req: Req, sid: string, fid: string, token: string, body: Bytes)
      requires GoFresh(Snapshot(), req)
      modifies this
      ensures Snapshot() == GoStep(old(Snapshot()), Action.BeginUpload(req, sid, fid, token, body))
    {
      var valid := state.StateSending? && sid == sessionId && fid in tokens && tokens[fid] == token && token != "";
      var meta := if fid in files then files[fid] else FileMeta("", 0, "");
      if !valid {
        Respond(req, Status(404));
        return;
      }
      uploading := uploading[req := Upload(Ticket(sid, fid, token, meta, fromAlias, body), Ready)];
    }

    /** The search of `saveBody` for a free name. */
    method FreeTarget(name: string) returns (target: string)
      ensures target == Collision.GoResolve(folder.Keys, Collision.GoBase(name))
      ensures var base, present := Collision.Joined(Collision.GoBase(name)), Collision.Present(folder.Keys);
        if base !in present then target == base
        else exists s, e, k: nat ::
               Collision.IsGoSplit(base, s, e) && k <= |present| && Collision.IsNumbered(present, s, e, k, target)
    {
      Collision.GoResolveText(folder.Keys, Collision.GoBase(name));
      hide Collision.IsGoSplit, Collision.IsNumbered, Collision.GoBase, Collision.Joined, Collision.Present;
      target := Search(Collision.Joined(Collision.GoBase(name)));
    }

    /** Its loop. The folder itself and the folder above it are there. */
    method Search(base: string) returns (target: string)
      ensures target == Collision.Probe(Collision.Present(folder.Keys), Collision.GoStem(base), Collision.GoExt(base), 0)
    {
      var ext := Collision.GoExt(base);
      var stem := base[..|base| - |ext|];
      assert stem == Collision.GoStem(base);
      Collision.StemAndExt(base);
      hide Collision.GoStem, Collision.GoExt;
      target := base;
      var n := 1;
      ghost var present := Collision.Present(folder.Keys);
      while target in folder || target == "" || target == "." || target == ".."
        invariant n >= 1
        invariant target == Collision.Candidate(stem, ext, n - 1)
        invariant Collision.Probe(present, stem, ext, n - 1) == Collision.Probe(present, stem, ext, 0)
        decreases present - Collision.Tried(stem, ext, n - 1)
      {
        Collision.ProbeProgress(present, stem, ext, n - 1);
        target := stem + " (" + Text.Decimal(n) + ")" + ext;
        n := n + 1;
      }
    }

    /** `saveBody` failed. */
    method AbandonUpload(req: Req)
      requires GoEnabled(Snapshot(), Abandon(req))
      modifies this
      ensures Snapshot() == GoStep(old(Snapshot()), Abandon(req))
    {
      GoIdle();
      Respond(req, Status(500));
    }

    method FinishUpload(req: Req)
      requires GoEnabled(Snapshot(), Finish(req))
      modifies this
      ensures Snapshot() == GoStep(old(Snapshot()), Finish(req))
    {
      remaining := remaining - {uploading[req].ticket.fileId};
      var done := remaining == {};
      if done {
        state := StateIdle;
        sessionId := "";
      }
      Respond(req, Status(200));
    }

    method Cancel(req: Req, sid: string)
      requires GoFresh(Snapshot(), req)
      modifies this
      ensures Snapshot() == GoStep(old(Snapshot()), Action.Cancel(req, sid))
    {
      if state.StateSending? && sid == sessionId {
        state := StateIdle;
        sessionId := "";
      }
      Respond(req, Status(200));
    }
  }
}
