/** What the receiver answers, over whole runs: the reply of every request, and what an approval
    records. */
module Replies {
  import opened Protocol
  import opened Receiving
  import opened ReceiverInvariant
  import Trust

  /** The session that `sid` names is live. */
  predicate IsLive(w: World, sid: string) {
    w.state.Sending? && w.state.session.id == sid
  }

  /** An upload request that names the live session, one of its files, and the file's token, for a
      file it has not received yet. */
  predicate Welcome(w: World, sid: string, fid: string, token: string) {
    && IsLive(w, sid) && fid in w.state.session.files && fid !in w.state.session.received
    && token != "" && fid in w.state.session.tokens && w.state.session.tokens[fid] == token
  }

  /** The reply that action `a` earns its request in state `w`, if it earns one. */
  predicate Earns(w: World, a: Action, reply: Reply) {
    match a
    case BeginPrepare(_, prepare) =>
      if prepare.files == map[] then reply == Status(400) else !w.state.Idle? && reply == Status(409)
    case TimeOut(_) => reply == Status(408)
    case Reject(_) => reply == Status(403)
    case Open(_, sid, tokens) => reply == Granted(sid, tokens)
    case BeginUpload(_, sid, fid, token, _) => !Welcome(w, sid, fid, token) && reply == Status(404)
    case Finish(_) => reply == Status(200)
    case Abandon(_) => reply == Status(500)
    case Cancel(_, sid) => reply == Status(if IsLive(w, sid) then 200 else 404)
    case _ => false
  }

  lemma {:induction false} OwnReply(w: World, a: Action, reply: Reply)
    requires Enabled(w, a) && Apart(w.asking, w.uploading, w.replies) && SessionOk(w.state, w.log)
    ensures Earns(w, a, reply) <==> a.req in Step(w, a).replies && Step(w, a).replies[a.req] == reply
  {
    UnansweredYet(w, a);
    hide Apart;
    match a
    case BeginPrepare(_, _) => PrepareReply(w, a, reply);
    case BeginUpload(_, _, _, _, _) => UploadReply(w, a, reply);
    case _ => OtherReply(w, a, reply);
  }

  /** A request that acts was not answered before. */
  lemma UnansweredYet(w: World, a: Action)
    requires Enabled(w, a) && Apart(w.asking, w.uploading, w.replies)
    ensures a.req !in w.replies
  {
    hide FreshNames;
  }

  lemma PrepareReply(w: World, a: Action, reply: Reply)
    requires Enabled(w, a) && a.BeginPrepare?
    ensures Earns(w, a, reply) <==> a.req in Step(w, a).replies && Step(w, a).replies[a.req] == reply
  {
  }

  lemma UploadReply(w: World, a: Action, reply: Reply)
    requires Enabled(w, a) && a.BeginUpload? && SessionOk(w.state, w.log)
    ensures Earns(w, a, reply) <==> a.req in Step(w, a).replies && Step(w, a).replies[a.req] == reply
  {
  }

  lemma OtherReply(w: World, a: Action, reply: Reply)
    requires Enabled(w, a) && !a.BeginPrepare? && !a.BeginUpload? && a.req !in w.replies
    ensures Earns(w, a, reply) <==> a.req in Step(w, a).replies && Step(w, a).replies[a.req] == reply
  {
    hide FreshNames, Target, Contents, AfterReceived;
  }

  /** Action `i` of the run earns request `r` this reply. */
  ghost predicate EarnedAt(trace: seq<World>, acts: seq<Action>, i: nat, r: Req, reply: Reply) {
    i < |acts| && i < |trace| && acts[i].req == r && Earns(trace[i], acts[i], reply)
  }

  /** In every run a request has a reply exactly when one of its actions earned it, and that reply;
      it is never changed. */
  lemma {:induction false} RepliesExactly(trace: seq<World>, acts: seq<Action>, k: nat, r: Req, reply: Reply)
    requires Run(trace, acts) && k <= |acts|
    ensures r in trace[k].replies && trace[k].replies[r] == reply
       <==> exists i: nat :: i < k && EarnedAt(trace, acts, i, r, reply)
  {
    hide Step, Enabled, Earns, Apart;
    if k > 0 {
      var w, a := trace[k - 1], acts[k - 1];
      RepliesExactly(trace, acts, k - 1, r, reply);
      InvAlways(trace, acts, k - 1);
      InvParts(w);
      hide Inv;
      UnansweredYet(w, a);
      OwnReply(w, a, reply);
      if r == a.req {
        if Earns(w, a, reply) {
          assert EarnedAt(trace, acts, k - 1, r, reply);
        }
      } else {
        Elsewhere(w, a, r);
      }
    }
  }

  lemma InvParts(w: World)
    requires Inv(w)
    ensures Apart(w.asking, w.uploading, w.replies) && SessionOk(w.state, w.log)
  {
  }

  /** A cancel of the live session is answered 200 and leaves the receiver idle; any other is
      answered 404 and changes nothing about the state. */
  lemma {:induction false} CancelExactly(trace: seq<World>, acts: seq<Action>, k: nat)
    requires Run(trace, acts) && k < |acts| && acts[k].Cancel?
    ensures var w, v, req := trace[k], trace[k + 1], acts[k].req;
      && req in v.replies
      && if IsLive(w, acts[k].sessionId) then v.replies[req] == Status(200) && v.state.Idle?
         else v.replies[req] == Status(404) && v.state == w.state
  {
    assert trace[k + 1] == Step(trace[k], acts[k]);
    CancelStep(trace[k], acts[k]);
  }

  lemma CancelStep(w: World, a: Action)
    requires Enabled(w, a) && a.Cancel?
    ensures var v := Step(w, a);
      && a.req in v.replies
      && (if IsLive(w, a.sessionId) then v.replies[a.req] == Status(200) && v.state.Idle?
          else v.replies[a.req] == Status(404) && v.state == w.state)
      && !IsLive(v, a.sessionId)
  {
  }

  // ---- approvals ------------------------------------------------------------------------

  /** Action `i` approves a request of the device `fp`. */
  ghost predicate Approves(trace: seq<World>, acts: seq<Action>, i: nat, fp: string) {
    && i < |acts| && i < |trace| && acts[i].Approve? && acts[i].req in trace[i].asking
    && trace[i].asking[acts[i].req].prepare.info.fingerprint == fp
  }

  lemma TrustStep(w: World, a: Action)
    requires Enabled(w, a)
    ensures !a.Approve? ==> Step(w, a).trust == w.trust
    ensures a.Approve? ==>
              var info := w.asking[a.req].prepare.info;
              Step(w, a).trust ==
                if info.fingerprint in w.trust then w.trust
                else w.trust[info.fingerprint := Trust.TrustedDevice(info.alias, a.now)]
  {
    hide FreshNames, Target, Contents, AfterReceived, ValidUpload;
  }

  /** What the approval at step `i` enters. */
  ghost function EntryOf(trace: seq<World>, acts: seq<Action>, i: nat, fp: string): Trust.TrustedDevice
    requires Approves(trace, acts, i, fp)
  {
    Trust.TrustedDevice(trace[i].asking[acts[i].req].prepare.info.alias, acts[i].now)
  }

  lemma TrustOfRunStep(trace: seq<World>, acts: seq<Action>, k: nat, fp: string)
    requires Run(trace, acts) && k < |acts|
    ensures Approves(trace, acts, k, fp) && fp !in trace[k].trust ==>
              fp in trace[k + 1].trust && trace[k + 1].trust[fp] == EntryOf(trace, acts, k, fp)
    ensures fp in trace[k].trust ==> fp in trace[k + 1].trust && trace[k + 1].trust[fp] == trace[k].trust[fp]
    ensures !Approves(trace, acts, k, fp) && fp !in trace[k].trust ==> fp !in trace[k + 1].trust
  {
    TrustStep(trace[k], acts[k]);
    assert acts[k].Approve? ==> acts[k].req in trace[k].asking;
    hide Step, Enabled, Boot;
  }

  /** Over a run the trust list gains exactly the devices that were approved, under the alias and
      the date of their first approval; the entries it started with stay as they are. */
  lemma {:induction false} ApprovalsRecorded(trace: seq<World>, acts: seq<Action>, k: nat, fp: string)
    requires Run(trace, acts) && k <= |acts|
    ensures fp in trace[0].trust ==> fp in trace[k].trust && trace[k].trust[fp] == trace[0].trust[fp]
    ensures fp !in trace[0].trust ==> (fp in trace[k].trust <==> exists i: nat :: i < k && Approves(trace, acts, i, fp))
    ensures forall i: nat | i < k && fp !in trace[0].trust && Approves(trace, acts, i, fp)
                            && (forall j: nat | j < i :: !Approves(trace, acts, j, fp)) ::
              fp in trace[k].trust && trace[k].trust[fp] == EntryOf(trace, acts, i, fp)
  {
    hide Step, Enabled, Boot, Approves;
    if k > 0 {
      ApprovalsRecorded(trace, acts, k - 1, fp);
      TrustOfRunStep(trace, acts, k - 1, fp);
    }
  }
}
