/** The synchronous service-to-service call, RpcCall of ms_framework/msf_simple_rpc.go, with the
    response handler of ms_framework/msf_default_rpc_handler.go and the callback manager. */
module SyncCall {
  import opened Options
  import opened MachineInts

  // ---- Resending, for one caller ----

  datatype Content = Content(err: string, reply: Option<seq<int>>)

  /** How one attempt turns out. */
  datatype Outcome = NoGate | SendFails | TimesOut | Replies(c: Content)

  const NOTHING := Content("", None)

  /** What an attempt that is not followed by another makes the call return. */
  function ResultOf(name: string, o: Outcome): Content {
    match o
    case NoGate => NOTHING
    case SendFails => NOTHING
    case TimesOut => Content("s2s rpc call [" + name + "] time out", None)
    case Replies(c) => c
  }

  ghost predicate Mentions(text: string, name: string) {
    exists before, after :: text == before + name + after
  }

  /** The caller can tell: an error that names the call, and no reply. */
  ghost predicate TellsTimeOut(name: string, r: Content) {
    r.err != "" && Mentions(r.err, name) && r.reply == None
  }

  /** What the caller of a call that is over learns of how its last attempt turned out: a time-out
      and a reply always, and of nothing at all only that there was no gate, that the send failed,
      or that the reply itself said nothing. */
  ghost predicate Tells(name: string, o: Outcome, r: Content) {
    && (o == TimesOut ==> TellsTimeOut(name, r))
    && (o.Replies? ==> r == o.c)
    && (r == NOTHING <==> o == NoGate || o == SendFails || o == Replies(NOTHING))
  }

  lemma ResultTells(name: string, o: Outcome)
    ensures Tells(name, o, ResultOf(name, o))
  {
    assert Mentions("s2s rpc call [" + name + "] time out", name);
  }

  ghost predicate Distinct(ids: seq<uint32>) {
    forall i, j :: 0 <= i < j < |ids| ==> ids[i] != ids[j]
  }

  function Attempts(reSendCnt: int): nat {
    if reSendCnt > 0 then reSendCnt + 1 else 1
  }

  /** A call that makes these attempts and returns r: all but the last timed out, the last did not
      or was the last allowed, and r is what the last one gives. */
  ghost predicate Ends(name: string, reSendCnt: int, outcomes: seq<Outcome>, r: Content) {
    && 1 <= |outcomes| <= Attempts(reSendCnt)
    && (forall i :: 0 <= i < |outcomes| - 1 ==> outcomes[i] == TimesOut)
    && var last := outcomes[|outcomes| - 1];
       (last == TimesOut ==> |outcomes| == Attempts(reSendCnt)) && r == ResultOf(name, last)
  }

  /** The same, under these rids: a call under rid 0 ends there, with nothing. */
  ghost predicate Attempted(name: string, reSendCnt: int, rids: seq<uint32>, outcomes: seq<Outcome>, r: Content)
    requires 1 <= |rids| <= |outcomes|
  {
    if rids[|rids| - 1] == 0 then
      r == NOTHING && forall i :: 0 <= i < |rids| - 1 ==> rids[i] != 0 && outcomes[i] == TimesOut
    else
      (forall i :: 0 <= i < |rids| ==> rids[i] != 0) && Ends(name, reSendCnt, outcomes[..|rids|], r)
  }

  lemma OneMoreAttempt(name: string, rid: uint32, reSendCnt: int, ids: seq<uint32>, outcomes: seq<Outcome>, more: seq<uint32>, r: Content)
    requires rid != 0 && reSendCnt > 0 && ids != [] && 1 <= |more| < |outcomes| && |more| <= |ids| && outcomes[0] == TimesOut
    requires |more| <= Attempts(reSendCnt - 1) && more == ([ids[0]] + ids[1..])[..|more|]
    requires Attempted(name, reSendCnt - 1, more, outcomes[1..], r)
    ensures [rid] + more == ([rid] + ids)[..1 + |more|]
    ensures Distinct([rid] + ids) ==> Distinct([rid] + more)
    ensures Attempted(name, reSendCnt, [rid] + more, outcomes, r)
  {
    var rids := [rid] + more;
    assert [ids[0]] + ids[1..] == ids;
    assert rids == ([rid] + ids)[..|rids|];
    assert outcomes[..|rids|] == [TimesOut] + outcomes[1..][..|more|];
    assert forall i :: 1 <= i < |rids| ==> rids[i] == more[i - 1] && outcomes[i] == outcomes[1..][i - 1];
  }

  /** The function itself. ids are what GenGid gives for the attempts after the first, and outcomes
      how attempt after attempt would turn out. Under rid 0 (asked for, or what the counter wrapped
      to) the request goes out without a callback, and the call ends there with nothing. */
  method RpcCall(name: string, rid: uint32, reSendCnt: int, ids: seq<uint32>, outcomes: seq<Outcome>)
    returns (r: Content, rids: seq<uint32>)
    requires |outcomes| >= Attempts(reSendCnt) && |ids| >= Attempts(reSendCnt) - 1
    ensures 1 <= |rids| <= Attempts(reSendCnt) && rids == ([rid] + ids)[..|rids|]
    ensures Distinct([rid] + ids) ==> Distinct(rids)
    ensures Attempted(name, reSendCnt, rids, outcomes, r)
    ensures var n := |rids| - 1; if rids[n] == 0 then r == NOTHING else Tells(name, outcomes[n], r)
    decreases reSendCnt
  {
    ResultTells(name, outcomes[0]);
    rids := [rid];
    if outcomes[0].NoGate? {
      return NOTHING, rids;
    }
    if outcomes[0].SendFails? {
      return NOTHING, rids;
    }
    if rid != 0 {
      if outcomes[0].TimesOut? && reSendCnt > 0 {
        var more;
        r, more := RpcCall(name, ids[0], reSendCnt - 1, ids[1..], outcomes[1..]);
        rids := rids + more;
        OneMoreAttempt(name, rid, reSendCnt, ids, outcomes, more, r);
        return;
      }
      if outcomes[0].TimesOut? {
        return Content("s2s rpc call [" + name + "] time out", None), rids;
      }
      return outcomes[0].c, rids;
    }
    return NOTHING, rids;
  }

  /** Of what may come attempt after attempt, only one beginning is a whole call, with one result. */
  lemma EndsOnce(name: string, reSendCnt: int, a: seq<Outcome>, r: Content, b: seq<Outcome>, q: Content)
    requires Ends(name, reSendCnt, a, r) && Ends(name, reSendCnt, b, q)
    requires forall i :: 0 <= i < |a| && i < |b| ==> a[i] == b[i]
    ensures a == b && r == q
  {
    assert |a| == |b|;
  }

  // ---- Callers, response handlers and the manager, interleaved ----

  /** Where an attempt is: given up for want of a gate, blocked on handing the node to the manager,
      writing the request, waiting on its channel, given up because the write failed, or past the
      channel with the value it got there. */
  datatype Pc = Unrouted | Adding | Sending | Waiting | Failed | Returned(got: Outcome)

  /** Who has the callback: the map, a response handler blocked on handing over the delete or on
      the channel (with the content of its response), the tick blocked on the channel, or nobody. */
  datatype Cb = InMap | HandlerDeletes(c: Content) | HandlerSends(c: Content) | TickSends | Delivered

  /** One attempt, made for a job. */
  datatype Call = Call(job: nat, pc: Pc, cb: Cb, inList: bool)

  /** One RpcCall: the attempts it has made, and what it has returned. */
  datatype Job = Job(name: string, reSendCnt: int, rids: seq<uint32>, result: Option<Content>)

  /** A response made for the request sent under rid. */
  datatype Response = Response(rid: uint32, c: Content)

  /** blocked is the rid whose channel the manager's tick is blocked on; net holds the responses
      made, each of which can arrive at any time, any number of times or never. */
  datatype State = State(calls: map<uint32, Call>, blocked: Option<uint32>, jobs: map<nat, Job>, net: set<Response>)

  const INIT := State(map[], None, map[], {})

  datatype Event =
    | Start(job: nat, name: string, reSendCnt: int, rid: uint32, gate: bool)
    | Resend(job: nat, rid: uint32, gate: bool)
    | Return(job: nat)
    | Respond(rid: uint32, c: Content)
    | Added(rid: uint32)
    | Sent(rid: uint32, ok: bool)
    | HandlerTakes(rid: uint32, c: Content)
    | HandlerDeleted(rid: uint32)
    | HandlerDelivers(rid: uint32)
    | TickTakes(rid: uint32)
    | TickDrops(rid: uint32)
    | TickDelivers(rid: uint32)

  /** How an attempt turned out, once it has. */
  function OutcomeOf(pc: Pc): Option<Outcome> {
    match pc
    case Unrouted => Some(NoGate)
    case Failed => Some(SendFails)
    case Returned(got) => Some(got)
    case _ => None
  }

  /** The outcome of the last attempt of a job that has not returned. */
  function LastOutcome(s: State, job: nat): Option<Outcome> {
    if job in s.jobs && s.jobs[job].result.None? && s.jobs[job].rids != [] then
      var rids := s.jobs[job].rids;
      var last := rids[|rids| - 1];
      if last in s.calls then OutcomeOf(s.calls[last].pc) else None
    else None
  }

  predicate Resends(s: State, job: nat) {
    LastOutcome(s, job) == Some(TimesOut) && |s.jobs[job].rids| < Attempts(s.jobs[job].reSendCnt)
  }

  predicate Enabled(s: State, e: Event) {
    match e
    case Start(job, _, _, rid, _) => job !in s.jobs && rid != 0 && rid !in s.calls
    case Resend(job, rid, _) => Resends(s, job) && rid != 0 && rid !in s.calls
    case Return(job) => LastOutcome(s, job).Some? && !Resends(s, job)
    case Respond(rid, _) => rid in s.calls
    case Added(rid) => rid in s.calls && s.calls[rid].pc == Adding && s.blocked.None?
    case Sent(rid, _) => rid in s.calls && s.calls[rid].pc == Sending
    case HandlerTakes(rid, c) => Response(rid, c) in s.net && rid in s.calls && s.calls[rid].cb == InMap
    case HandlerDeleted(rid) => rid in s.calls && s.calls[rid].cb.HandlerDeletes? && s.blocked.None?
    case HandlerDelivers(rid) => rid in s.calls && s.calls[rid].cb.HandlerSends? && s.calls[rid].pc == Waiting
    case TickTakes(rid) => rid in s.calls && s.calls[rid].inList && s.calls[rid].cb == InMap && s.blocked.None?
    case TickDrops(rid) => rid in s.calls && s.calls[rid].inList && s.calls[rid].cb != InMap && s.blocked.None?
    case TickDelivers(rid) => rid in s.calls && s.blocked == Some(rid) && s.calls[rid].pc == Waiting
  }

  /** A first or further attempt; without a gate it ends before a callback is added. */
  function Attempt(s: State, job: nat, j: Job, rid: uint32, gate: bool): State {
    s.(jobs := s.jobs[job := j.(rids := j.rids + [rid])],
       calls := s.calls[rid := if gate then Call(job, Adding, InMap, false) else Call(job, Unrouted, Delivered, false)])
  }

  function Do(s: State, e: Event): State
    requires Enabled(s, e)
  {
    match e
    case Start(job, name, reSendCnt, rid, gate) => Attempt(s, job, Job(name, reSendCnt, [], None), rid, gate)
    case Resend(job, rid, gate) => Attempt(s, job, s.jobs[job], rid, gate)
    case Return(job) =>
      s.(jobs := s.jobs[job := s.jobs[job].(result := Some(ResultOf(s.jobs[job].name, LastOutcome(s, job).value)))])
    case Respond(rid, c) => s.(net := s.net + {Response(rid, c)})
    case _ => DoCall(s, e)
  }

  predicate OfCall(e: Event) {
    !e.Start? && !e.Resend? && !e.Return? && !e.Respond?
  }

  /** The steps of the channel of one rid. */
  function DoCall(s: State, e: Event): State
    requires Enabled(s, e) && OfCall(e)
  {
    var c := s.calls[e.rid];
    match e
    case Added(_) => Set(s, e.rid, c.(pc := Sending, inList := true))
    case Sent(_, ok) => Set(s, e.rid, c.(pc := if ok then Waiting else Failed))
    case HandlerTakes(_, content) => Set(s, e.rid, c.(cb := HandlerDeletes(content)))
    case HandlerDeleted(_) => Set(s, e.rid, c.(cb := HandlerSends(c.cb.c), inList := false))
    case HandlerDelivers(_) => Set(s, e.rid, c.(cb := Delivered, pc := Returned(Replies(c.cb.c))))
    case TickTakes(_) => Set(s, e.rid, c.(cb := TickSends)).(blocked := Some(e.rid))
    case TickDrops(_) => Set(s, e.rid, c.(inList := false))
    case TickDelivers(_) => Set(s, e.rid, Call(c.job, Returned(TimesOut), Delivered, false)).(blocked := None)
  }

  function Set(s: State, rid: uint32, c: Call): State {
    s.(calls := s.calls[rid := c])
  }

  function RunFrom(s: State, es: seq<Event>): Option<State> {
    if es == [] then Some(s)
    else
      var n := |es| - 1;
      var before := RunFrom(s, es[..n]);
      if before.Some? && Enabled(before.value, es[n]) then Some(Do(before.value, es[n])) else None
  }

  // ---- The channel of each rid ----

  predicate CallOk(c: Call) {
    match c.pc
    case Unrouted => c.cb == Delivered && !c.inList
    case Adding => !c.inList && (c.cb == InMap || c.cb.HandlerDeletes? || c.cb.HandlerSends?)
    case Returned(got) => c.cb == Delivered && (got == TimesOut || got.Replies?)
    case _ => c.cb != Delivered && (c.cb == InMap ==> c.inList)
  }

  ghost predicate Inv(s: State) {
    && (forall rid :: rid in s.calls ==> CallOk(s.calls[rid]) && (s.calls[rid].cb == TickSends <==> s.blocked == Some(rid)))
    && (s.blocked.Some? ==> s.blocked.value in s.calls)
  }

  lemma StepKeepsInv(s: State, e: Event)
    requires Inv(s) && Enabled(s, e)
    ensures Inv(Do(s, e))
  {
    var t := Do(s, e);
    if !e.Return? && !e.Respond? {
      assert CallOk(t.calls[e.rid]);
      forall rid | rid in t.calls ensures CallOk(t.calls[rid]) && (t.calls[rid].cb == TickSends <==> t.blocked == Some(rid)) {
        if rid != e.rid {
          assert t.calls[rid] == s.calls[rid];
        }
      }
    }
  }

  lemma {:induction false} RunKeepsInv(s: State, es: seq<Event>)
    requires Inv(s) && RunFrom(s, es).Some?
    ensures Inv(RunFrom(s, es).value)
    decreases |es|
  {
    if es == [] {
    } else {
      RunKeepsInv(s, es[..|es| - 1]);
      StepKeepsInv(RunFrom(s, es[..|es| - 1]).value, es[|es| - 1]);
    }
  }

  /** Each rid's channel carries one value: in every run an attempt that had a gate is past its
      channel exactly when the callback was delivered, and one that waits on it is owed a value, by
      the map (and then the tick will find its node), by a handler or by the tick. */
  lemma OneValuePerRid(es: seq<Event>, rid: uint32)
    requires RunFrom(INIT, es).Some? && rid in RunFrom(INIT, es).value.calls
    ensures var c := RunFrom(INIT, es).value.calls[rid];
      && (c.pc != Unrouted ==> (c.pc.Returned? <==> c.cb == Delivered))
      && (c.pc == Waiting ==> (c.cb == InMap && c.inList) || c.cb.HandlerDeletes? || c.cb.HandlerSends? || c.cb == TickSends)
  {
    RunKeepsInv(INIT, es);
  }

  // ---- What a job returns ----

  /** What a handler hands over, and so what an attempt got, was made for that rid. */
  ghost predicate ContentOk(net: set<Response>, rid: uint32, c: Call) {
    && (c.cb.HandlerDeletes? ==> Response(rid, c.cb.c) in net)
    && (c.cb.HandlerSends? ==> Response(rid, c.cb.c) in net)
    && (c.pc.Returned? && c.pc.got.Replies? ==> Response(rid, c.pc.got.c) in net)
  }

  /** Every rid but the last was given up after its time-out; the result, once there is one, is that
      of the last. */
  ghost predicate JobOk(calls: map<uint32, Call>, job: nat, j: Job) {
    && 1 <= |j.rids| <= Attempts(j.reSendCnt)
    && Distinct(j.rids)
    && (forall i :: 0 <= i < |j.rids| ==> j.rids[i] in calls && calls[j.rids[i]].job == job)
    && (forall i :: 0 <= i < |j.rids| - 1 ==> calls[j.rids[i]].pc == Returned(TimesOut))
    && (j.result.Some? ==>
          var o := OutcomeOf(calls[j.rids[|j.rids| - 1]].pc);
          && o.Some? && j.result.value == ResultOf(j.name, o.value)
          && (o.value == TimesOut ==> |j.rids| == Attempts(j.reSendCnt)))
  }

  ghost predicate JobsInv(s: State) {
    && (forall rid :: rid in s.calls ==> ContentOk(s.net, rid, s.calls[rid]))
    && (forall job :: job in s.jobs ==> JobOk(s.calls, job, s.jobs[job]))
  }

  /** An attempt that is over stays as it is, and belongs to the same job. */
  ghost predicate Settled(calls: map<uint32, Call>, after: map<uint32, Call>) {
    forall rid :: rid in calls ==>
      rid in after && after[rid].job == calls[rid].job && (OutcomeOf(calls[rid].pc).Some? ==> after[rid].pc == calls[rid].pc)
  }

  lemma StepSettles(s: State, e: Event)
    requires Inv(s) && Enabled(s, e)
    ensures Settled(s.calls, Do(s, e).calls)
  {
    if OfCall(e) {
      CallSettles(s, e);
    }
  }

  /** A step of one rid's channel leaves the other rids alone, and its own once it is over. */
  lemma CallSettles(s: State, e: Event)
    requires Inv(s) && Enabled(s, e) && OfCall(e)
    ensures Settled(s.calls, DoCall(s, e).calls)
  {
    assert CallOk(s.calls[e.rid]);
    var after := DoCall(s, e).calls;
    assert forall rid :: rid in s.calls && rid != e.rid ==> after[rid] == s.calls[rid];
  }

  lemma JobStays(calls: map<uint32, Call>, after: map<uint32, Call>, job: nat, j: Job)
    requires JobOk(calls, job, j) && Settled(calls, after)
    ensures JobOk(after, job, j)
  {
  }

  lemma StepKeepsContent(s: State, e: Event)
    requires JobsInv(s) && Enabled(s, e)
    ensures var t := Do(s, e); forall rid :: rid in t.calls ==> ContentOk(t.net, rid, t.calls[rid])
  {
    var t := Do(s, e);
    forall rid | rid in t.calls ensures ContentOk(t.net, rid, t.calls[rid]) {
      assert rid in s.calls ==> ContentOk(s.net, rid, s.calls[rid]);
    }
  }

  /** The job a step is of, if it makes an attempt or returns. */
  lemma OwnJobOk(s: State, e: Event)
    requires Inv(s) && JobsInv(s) && Enabled(s, e) && (e.Start? || e.Resend? || e.Return?)
    ensures e.job in Do(s, e).jobs && JobOk(Do(s, e).calls, e.job, Do(s, e).jobs[e.job])
  {
    StepSettles(s, e);
    match e
    case Start(job, name, reSendCnt, rid, gate) => assert Do(s, e).jobs[job].rids == [rid];
    case Resend(job, rid, gate) => ResendOk(s, job, rid, gate);
    case Return(job) => assert JobOk(s.calls, job, s.jobs[job]);
  }

  lemma ResendOk(s: State, job: nat, rid: uint32, gate: bool)
    requires JobsInv(s) && Enabled(s, Resend(job, rid, gate)) && Settled(s.calls, Do(s, Resend(job, rid, gate)).calls)
    ensures var t := Do(s, Resend(job, rid, gate)); job in t.jobs && JobOk(t.calls, job, t.jobs[job])
  {
    var t, j := Do(s, Resend(job, rid, gate)), s.jobs[job];
    assert JobOk(s.calls, job, j);
    JobStays(s.calls, t.calls, job, j);
    AttemptOk(t.calls, job, j, rid);
  }

  lemma AttemptOk(calls: map<uint32, Call>, job: nat, j: Job, rid: uint32)
    requires JobOk(calls, job, j) && j.result.None? && |j.rids| < Attempts(j.reSendCnt)
    requires rid !in j.rids && rid in calls && calls[rid].job == job
    requires calls[j.rids[|j.rids| - 1]].pc == Returned(TimesOut)
    ensures JobOk(calls, job, j.(rids := j.rids + [rid]))
  {
  }

  lemma StepKeepsJobs(s: State, e: Event)
    requires Inv(s) && JobsInv(s) && Enabled(s, e)
    ensures JobsInv(Do(s, e))
  {
    var t := Do(s, e);
    StepKeepsContent(s, e);
    StepSettles(s, e);
    forall job | job in t.jobs ensures JobOk(t.calls, job, t.jobs[job]) {
      if (e.Start? || e.Resend? || e.Return?) && job == e.job {
        OwnJobOk(s, e);
      } else {
        assert t.jobs[job] == s.jobs[job];
        JobStays(s.calls, t.calls, job, s.jobs[job]);
      }
    }
  }

  lemma {:induction false} RunKeepsJobs(es: seq<Event>)
    requires RunFrom(INIT, es).Some?
    ensures JobsInv(RunFrom(INIT, es).value)
    decreases |es|
  {
    if es == [] {
    } else {
      var n := |es| - 1;
      RunKeepsJobs(es[..n]);
      RunKeepsInv(INIT, es[..n]);
      StepKeepsJobs(RunFrom(INIT, es[..n]).value, es[n]);
    }
  }

  /** The attempts of a job that has returned, as they turned out. */
  ghost function Outcomes(calls: map<uint32, Call>, rids: seq<uint32>): seq<Outcome>
    requires forall i :: 0 <= i < |rids| ==> rids[i] in calls && OutcomeOf(calls[rids[i]].pc).Some?
  {
    seq(|rids|, i requires 0 <= i < |rids| => OutcomeOf(calls[rids[i]].pc).value)
  }

  /** The attempts of the job are over, under distinct rids of its own, no more than allowed. */
  ghost predicate AttemptsOver(s: State, job: nat, j: Job) {
    && 1 <= |j.rids| <= Attempts(j.reSendCnt) && Distinct(j.rids)
    && (forall i :: 0 <= i < |j.rids| ==>
          j.rids[i] in s.calls && s.calls[j.rids[i]].job == job && OutcomeOf(s.calls[j.rids[i]].pc).Some?)
  }

  lemma JobOver(s: State, job: nat, j: Job)
    requires JobOk(s.calls, job, j) && j.result.Some?
    ensures AttemptsOver(s, job, j)
    ensures Ends(j.name, j.reSendCnt, Outcomes(s.calls, j.rids), j.result.value)
  {
  }

  /** No response under that rid is delivered any more. */
  ghost predicate Deaf(s: State, rid: uint32) {
    (forall c :: !Enabled(s, HandlerTakes(rid, c))) && !Enabled(s, HandlerDelivers(rid))
  }

  lemma EarlierDeaf(s: State, job: nat, j: Job, i: nat)
    requires Inv(s) && JobOk(s.calls, job, j) && i < |j.rids| - 1
    ensures Deaf(s, j.rids[i])
  {
    assert CallOk(s.calls[j.rids[i]]);
  }

  /** The result tells where the last attempt has come to. */
  ghost predicate TellsLast(s: State, j: Job)
    requires j.result.Some? && j.rids != [] && j.rids[|j.rids| - 1] in s.calls
  {
    match s.calls[j.rids[|j.rids| - 1]].pc
    case Unrouted => j.result.value == NOTHING
    case Failed => j.result.value == NOTHING
    case Returned(got) => Tells(j.name, got, j.result.value)
    case _ => false
  }

  lemma JobTells(s: State, job: nat, j: Job)
    requires JobOk(s.calls, job, j) && j.result.Some?
    ensures TellsLast(s, j)
  {
    var pc := s.calls[j.rids[|j.rids| - 1]].pc;
    ResultTells(j.name, OutcomeOf(pc).value);
  }

  /** The reply a job returned was made for its last rid. */
  ghost predicate ReplyIsLast(s: State, j: Job)
    requires j.result.Some? && j.rids != [] && j.rids[|j.rids| - 1] in s.calls
  {
    var last := j.rids[|j.rids| - 1];
    s.calls[last].pc.Returned? && s.calls[last].pc.got.Replies? ==> Response(last, j.result.value) in s.net
  }

  lemma JobReplyIsLast(s: State, job: nat, j: Job)
    requires JobsInv(s) && JobOk(s.calls, job, j) && j.result.Some?
    ensures ReplyIsLast(s, j)
  {
    var last := j.rids[|j.rids| - 1];
    assert ContentOk(s.net, last, s.calls[last]);
  }

  /** In every interleaving, a call that has returned made at most one attempt more than its resends,
      under distinct rids of its own; it returned what RpcCall returns on how these attempts turned
      out; and a reply it returned is one that was made for its last rid. A response to an earlier
      rid finds no callback any more. */
  lemma ReturnsLast(es: seq<Event>, s: State, job: nat)
    requires RunFrom(INIT, es) == Some(s) && job in s.jobs && s.jobs[job].result.Some?
    ensures var j := s.jobs[job];
      && AttemptsOver(s, job, j)
      && Ends(j.name, j.reSendCnt, Outcomes(s.calls, j.rids), j.result.value)
      && TellsLast(s, j)
      && ReplyIsLast(s, j)
      && (forall i :: 0 <= i < |j.rids| - 1 ==> Deaf(s, j.rids[i]))
  {
    RunKeepsInv(INIT, es);
    RunKeepsJobs(es);
    var j := s.jobs[job];
    assert JobOk(s.calls, job, j);
    JobOver(s, job, j);
    JobTells(s, job, j);
    JobReplyIsLast(s, job, j);
    forall i | 0 <= i < |j.rids| - 1 ensures Deaf(s, j.rids[i]) {
      EarlierDeaf(s, job, j, i);
    }
  }

  /** So whatever was still to come, what RpcCall promises of it leaves only what the job did. */
  lemma AgreesWithRpcCall(es: seq<Event>, s: State, job: nat, outcomes: seq<Outcome>, n: nat, r: Content)
    requires RunFrom(INIT, es) == Some(s) && job in s.jobs && s.jobs[job].result.Some?
    requires AttemptsOver(s, job, s.jobs[job]) && Outcomes(s.calls, s.jobs[job].rids) <= outcomes
    requires n <= |outcomes| && Ends(s.jobs[job].name, s.jobs[job].reSendCnt, outcomes[..n], r)
    ensures n == |s.jobs[job].rids| && Some(r) == s.jobs[job].result
  {
    ReturnsLast(es, s, job);
    var j := s.jobs[job];
    EndsOnce(j.name, j.reSendCnt, Outcomes(s.calls, j.rids), j.result.value, outcomes[..n], r);
  }

  /** And it returns once: nothing that happens later changes its result or adds an attempt. */
  lemma {:induction false} ReturnsOnce(s: State, es: seq<Event>, job: nat)
    requires RunFrom(s, es).Some? && job in s.jobs && s.jobs[job].result.Some?
    ensures job in RunFrom(s, es).value.jobs && RunFrom(s, es).value.jobs[job] == s.jobs[job]
    decreases |es|
  {
    if es == [] {
    } else {
      ReturnsOnce(s, es[..|es| - 1], job);
    }
  }

  // ---- Nobody stays blocked ----

  /** A step that brings a taken callback nearer to its caller. */
  predicate Completes(e: Event) {
    e.Added? || (e.Sent? && e.ok) || e.HandlerDeleted? || e.HandlerDelivers? || e.TickDelivers?
  }

  ghost predicate Completing(s: State, es: seq<Event>, t: State) {
    RunFrom(s, es) == Some(t) && forall e :: e in es ==> Completes(e)
  }

  lemma Complete(s: State, es: seq<Event>, t: State, e: Event) returns (fs: seq<Event>, u: State)
    requires Completing(s, es, t) && Enabled(t, e) && Completes(e) && Inv(t)
    ensures Completing(s, fs, u) && u == DoCall(t, e) && Inv(u) && |fs| == |es| + 1
  {
    u := Extend(s, es, t, e);
    fs := es + [e];
    StepKeepsInv(t, e);
  }

  /** The attempt gets as far as waiting, if the manager is free. */
  lemma ReachWaiting(s: State, rid: uint32) returns (es: seq<Event>, t: State)
    requires Inv(s) && s.blocked.None? && rid in s.calls && OutcomeOf(s.calls[rid].pc).None?
    ensures Completing(s, es, t) && Inv(t) && t.blocked.None? && |es| <= 2
    ensures rid in t.calls && t.calls[rid].pc == Waiting && t.calls[rid].cb == s.calls[rid].cb
  {
    es, t := [], s;
    if t.calls[rid].pc == Adding {
      es, t := Complete(s, es, t, Added(rid));
    }
    if t.calls[rid].pc == Sending {
      es, t := Complete(s, es, t, Sent(rid, true));
    }
  }

  /** A blocked tick is freed. */
  lemma FreeManager(s: State) returns (es: seq<Event>, t: State)
    requires Inv(s) && (s.blocked.Some? ==> s.calls[s.blocked.value].pc != Failed)
    ensures Completing(s, es, t) && Inv(t) && t.blocked.None? && |es| <= 2
    ensures t.calls.Keys == s.calls.Keys
    ensures forall rid :: rid in s.calls ==>
      if s.blocked == Some(rid) then t.calls[rid].cb == Delivered && t.calls[rid].pc == Returned(TimesOut)
      else t.calls[rid] == s.calls[rid]
  {
    es, t := [], s;
    if s.blocked.Some? {
      var r := s.blocked.value;
      if t.calls[r].pc == Sending {
        es, t := Complete(s, es, t, Sent(r, true));
      }
      es, t := Complete(s, es, t, TickDelivers(r));
    }
  }

  lemma {:induction false} RunOn(s: State, a: seq<Event>, t: State, b: seq<Event>)
    requires RunFrom(s, a) == Some(t)
    ensures RunFrom(s, a + b) == RunFrom(t, b)
    decreases |b|
  {
    if b == [] {
      assert a + b == a;
    } else {
      RunOn(s, a, t, b[..|b| - 1]);
      assert (a + b)[..|a + b| - 1] == a + b[..|b| - 1];
    }
  }

  lemma Join(s: State, a: seq<Event>, t: State, b: seq<Event>, u: State)
    requires Completing(s, a, t) && Completing(t, b, u)
    ensures Completing(s, a + b, u)
  {
    RunOn(s, a, t, b);
  }

  /** The tick is blocked on an attempt whose send failed. */
  predicate Stuck(s: State) {
    s.blocked.Some? && s.blocked.value in s.calls && s.calls[s.blocked.value].pc == Failed
  }

  /** The attempt's own send failed; or the manager is stuck on another's, and the handler has still to
      hand over its delete or the caller its node. */
  predicate Hopeless(s: State, rid: uint32)
    requires rid in s.calls
  {
    s.calls[rid].pc == Failed || (Stuck(s) && (s.calls[rid].cb.HandlerDeletes? || s.calls[rid].pc == Adding))
  }

  ghost predicate DeliversTo(s: State, es: seq<Event>, rid: uint32) {
    RunFrom(s, es).Some? && rid in RunFrom(s, es).value.calls && RunFrom(s, es).value.calls[rid].cb == Delivered
  }

  lemma StepKeepsHopeless(s: State, e: Event, rid: uint32)
    requires Inv(s) && Enabled(s, e) && rid in s.calls && Hopeless(s, rid)
    requires s.calls[rid].cb != InMap
    ensures rid in Do(s, e).calls && Hopeless(Do(s, e), rid) && Do(s, e).calls[rid].cb != InMap
  {
    StepSettles(s, e);
    assert CallOk(s.calls[rid]);
  }

  lemma {:induction false} HopelessStays(s: State, es: seq<Event>, rid: uint32)
    requires Inv(s) && rid in s.calls && Hopeless(s, rid) && s.calls[rid].cb != InMap && RunFrom(s, es).Some?
    ensures var t := RunFrom(s, es).value;
      rid in t.calls && Hopeless(t, rid) && t.calls[rid].cb != InMap && t.calls[rid].cb != Delivered
    decreases |es|
  {
    if es == [] {
    } else {
      var n := |es| - 1;
      HopelessStays(s, es[..n], rid);
      RunKeepsInv(s, es[..n]);
      StepKeepsHopeless(RunFrom(s, es[..n]).value, es[n], rid);
    }
    RunKeepsInv(s, es);
  }

  /** A handler that has handed over its delete needs only its caller. */
  lemma SendingIsDelivered(s: State, rid: uint32) returns (es: seq<Event>, t: State)
    requires Inv(s) && rid in s.calls && s.calls[rid].cb.HandlerSends? && (s.calls[rid].pc == Sending || s.calls[rid].pc == Waiting)
    ensures Completing(s, es, t) && |es| <= 2 && rid in t.calls && t.calls[rid].cb == Delivered
  {
    es, t := [], s;
    if t.calls[rid].pc == Sending {
      es, t := Complete(s, es, t, Sent(rid, true));
    }
    es, t := Complete(s, es, t, HandlerDelivers(rid));
  }

  /** While the manager is free, a handler gets its callback delivered. */
  lemma FreeIsDelivered(s: State, rid: uint32) returns (es: seq<Event>, t: State)
    requires Inv(s) && s.blocked.None? && rid in s.calls && OutcomeOf(s.calls[rid].pc).None?
    requires s.calls[rid].cb.HandlerDeletes? || s.calls[rid].cb.HandlerSends?
    ensures Completing(s, es, t) && |es| <= 4 && rid in t.calls && t.calls[rid].cb == Delivered
  {
    es, t := ReachWaiting(s, rid);
    if t.calls[rid].cb.HandlerDeletes? {
      es, t := Complete(s, es, t, HandlerDeleted(rid));
    }
    es, t := Complete(s, es, t, HandlerDelivers(rid));
  }

  /** Whoever has taken a callback that is not hopeless is never blocked for good: at most six further
      steps of the parties that are blocked on each other deliver it. */
  lemma TakenIsDelivered(s: State, rid: uint32) returns (more: seq<Event>, t: State)
    requires Inv(s) && rid in s.calls && s.calls[rid].cb != InMap && s.calls[rid].pc != Unrouted && !Hopeless(s, rid)
    ensures Completing(s, more, t) && |more| <= 6 && rid in t.calls && t.calls[rid].cb == Delivered
  {
    assert CallOk(s.calls[rid]);
    if s.calls[rid].cb == Delivered {
      more, t := [], s;
    } else if Stuck(s) {
      more, t := SendingIsDelivered(s, rid);
    } else {
      more, t := FreeManager(s);
      if t.calls[rid].cb != Delivered {
        var wait, u := FreeIsDelivered(t, rid);
        Join(s, more, t, wait, u);
        more, t := more + wait, u;
      }
    }
  }

  /** In every reachable state, a taken callback can still be delivered exactly if it is not hopeless. */
  lemma TakenIsDeliveredIff(es: seq<Event>, s: State, rid: uint32)
    requires RunFrom(INIT, es) == Some(s) && rid in s.calls && s.calls[rid].cb != InMap && s.calls[rid].pc != Unrouted
    ensures (exists more :: DeliversTo(s, more, rid)) <==> !Hopeless(s, rid)
  {
    RunKeepsInv(INIT, es);
    if Hopeless(s, rid) {
      forall more ensures !DeliversTo(s, more, rid) {
        if RunFrom(s, more).Some? {
          HopelessStays(s, more, rid);
        }
      }
    } else {
      var more, t := TakenIsDelivered(s, rid);
      assert DeliversTo(s, more, rid);
    }
  }

  /** A failed send leaves a callback without a receiver: once the tick has taken it, no run from
      there ever frees the manager, so it takes in no node again. */
  lemma {:induction false} FailedSendBlocksManager(s: State, es: seq<Event>)
    requires Inv(s) && s.blocked.Some? && s.calls[s.blocked.value].pc == Failed
    requires RunFrom(s, es).Some?
    ensures var t := RunFrom(s, es).value;
      && t.blocked == s.blocked && s.blocked.value in t.calls && t.calls[s.blocked.value].pc == Failed
      && forall rid :: !Enabled(t, Added(rid)) && !Enabled(t, HandlerDeleted(rid))
    decreases |es|
  {
    if es == [] {
    } else {
      FailedSendBlocksManager(s, es[..|es| - 1]);
      RunKeepsInv(s, es[..|es| - 1]);
      StepSettles(RunFrom(s, es[..|es| - 1]).value, es[|es| - 1]);
    }
  }

  ghost predicate Frees(s: State, es: seq<Event>) {
    RunFrom(s, es).Some? && RunFrom(s, es).value.blocked.None?
  }

  /** So a blocked tick can be freed exactly when the send of the call it is blocked on did not
      fail. */
  lemma BlockedTickFreedIff(s: State)
    requires Inv(s) && s.blocked.Some?
    ensures (exists es :: Frees(s, es)) <==> s.calls[s.blocked.value].pc != Failed
  {
    if s.calls[s.blocked.value].pc == Failed {
      forall es ensures !Frees(s, es) {
        if RunFrom(s, es).Some? {
          FailedSendBlocksManager(s, es);
        }
      }
    } else {
      var es, t := FreeManager(s);
      assert Frees(s, es);
    }
  }

  lemma Extend(s: State, es: seq<Event>, t: State, e: Event) returns (u: State)
    requires RunFrom(s, es) == Some(t) && Enabled(t, e)
    ensures RunFrom(s, es + [e]) == Some(u) && u == Do(t, e)
  {
    assert (es + [e])[..|es|] == es;
    u := Do(t, e);
  }

  /** Such a state is reached as soon as one send fails and its time-out comes. */
  lemma FailedSendReachable(name: string) returns (es: seq<Event>, s: State)
    ensures RunFrom(INIT, es) == Some(s) && s.blocked == Some(1) && 1 in s.calls && s.calls[1].pc == Failed
  {
    s := Extend(INIT, [], INIT, Start(0, name, 3, 1, true));
    es := [] + [Start(0, name, 3, 1, true)];
    s := Extend(INIT, es, s, Added(1));
    es := es + [Added(1)];
    s := Extend(INIT, es, s, Sent(1, false));
    es := es + [Sent(1, false)];
    s := Extend(INIT, es, s, TickTakes(1));
    es := es + [TickTakes(1)];
  }

  // ---- What a call can come to ----

  /** From any state with a free manager a further call can be sent and wait for its response. */
  lemma CallIsSent(s: State, job: nat, name: string, reSendCnt: int, rid: uint32) returns (es: seq<Event>, t: State)
    requires s.blocked.None? && Enabled(s, Start(job, name, reSendCnt, rid, true))
    ensures |es| == 3 && RunFrom(s, es) == Some(t)
    ensures t.jobs == s.jobs[job := Job(name, reSendCnt, [rid], None)]
    ensures t.calls == s.calls[rid := Call(job, Waiting, InMap, true)] && t.blocked.None? && t.net == s.net
  {
    es := [] + [Start(job, name, reSendCnt, rid, true)];
    t := Extend(s, [], s, Start(job, name, reSendCnt, rid, true));
    t := Extend(s, es, t, Added(rid));
    es := es + [Added(rid)];
    t := Extend(s, es, t, Sent(rid, true));
    es := es + [Sent(rid, true)];
    assert [] + [rid] == [rid] && t.calls == s.calls[rid := Call(job, Waiting, InMap, true)];
  }

  lemma ReplyIsHandedOver(s: State, rid: uint32, c: Content) returns (es: seq<Event>, t: State)
    requires s.blocked.None? && rid in s.calls && s.calls[rid].pc == Waiting && s.calls[rid].cb == InMap
    ensures |es| == 4 && RunFrom(s, es) == Some(t)
    ensures t.jobs == s.jobs && rid in t.calls && t.calls[rid].pc == Returned(Replies(c))
  {
    es := [] + [Respond(rid, c)];
    t := Extend(s, [], s, Respond(rid, c));
    t := Extend(s, es, t, HandlerTakes(rid, c));
    es := es + [HandlerTakes(rid, c)];
    t := Extend(s, es, t, HandlerDeleted(rid));
    es := es + [HandlerDeleted(rid)];
    t := Extend(s, es, t, HandlerDelivers(rid));
    es := es + [HandlerDelivers(rid)];
  }

  /** And then its result can be any response that is made to it. */
  lemma ReplyIsReturned(s: State, job: nat, name: string, reSendCnt: int, rid: uint32, c: Content)
    returns (es: seq<Event>, t: State)
    requires s.blocked.None? && Enabled(s, Start(job, name, reSendCnt, rid, true))
    ensures |es| == 8 && RunFrom(s, es) == Some(t) && job in t.jobs && t.jobs[job].result == Some(c)
  {
    es, t := CallIsSent(s, job, name, reSendCnt, rid);
    var more, u := ReplyIsHandedOver(t, rid, c);
    RunOn(s, es, t, more);
    es := es + more;
    t := Extend(s, es, u, Return(job));
    es := es + [Return(job)];
  }

  lemma TicksAway(s: State, rid: uint32) returns (es: seq<Event>, t: State)
    requires s.blocked.None? && rid in s.calls && s.calls[rid].pc == Waiting && s.calls[rid].cb == InMap && s.calls[rid].inList
    ensures |es| == 2 && RunFrom(s, es) == Some(t) && t.blocked.None? && t.jobs == s.jobs
    ensures rid in t.calls && t.calls[rid].pc == Returned(TimesOut) && t.calls.Keys == s.calls.Keys
  {
    var u := Extend(s, [], s, TickTakes(rid));
    t := Extend(s, [] + [TickTakes(rid)], u, TickDelivers(rid));
    es := [] + [TickTakes(rid)] + [TickDelivers(rid)];
  }

  /** Or, without resends, a time-out. */
  lemma TimeOutIsReturned(s: State, job: nat, name: string, reSendCnt: int, rid: uint32)
    returns (es: seq<Event>, t: State)
    requires s.blocked.None? && Enabled(s, Start(job, name, reSendCnt, rid, true)) && reSendCnt <= 0
    ensures |es| == 6 && RunFrom(s, es) == Some(t)
    ensures job in t.jobs && t.jobs[job].result.Some? && TellsTimeOut(name, t.jobs[job].result.value)
  {
    var fs, u := CallIsSent(s, job, name, reSendCnt, rid);
    var gs, v := TicksAway(u, rid);
    RunOn(s, fs, u, gs);
    t := Extend(s, fs + gs, v, Return(job));
    es := fs + gs + [Return(job)];
    ResultTells(name, TimesOut);
  }

  /** Without a gate a call returns nothing, and leaves no callback. */
  lemma NoGateIsReturned(s: State, job: nat, name: string, reSendCnt: int, rid: uint32) returns (t: State)
    requires Enabled(s, Start(job, name, reSendCnt, rid, false))
    ensures RunFrom(s, [] + [Start(job, name, reSendCnt, rid, false)] + [Return(job)]) == Some(t)
    ensures job in t.jobs && t.jobs[job].result == Some(NOTHING)
    ensures rid in t.calls && t.calls[rid].cb != InMap && !t.calls[rid].inList && t.blocked == s.blocked
  {
    var u := Extend(s, [], s, Start(job, name, reSendCnt, rid, false));
    t := Extend(s, [] + [Start(job, name, reSendCnt, rid, false)], u, Return(job));
  }

  /** A node the manager deletes or ticks away is out of the list, and no other attempt is touched. */
  lemma NodeLeaves(s: State, e: Event)
    requires Enabled(s, e) && (e.HandlerDeleted? || e.TickDrops? || e.TickDelivers?)
    ensures !Do(s, e).calls[e.rid].inList
    ensures forall rid :: rid in s.calls && rid != e.rid ==> rid in Do(s, e).calls && Do(s, e).calls[rid] == s.calls[rid]
    ensures e.TickDrops? ==> var c := s.calls[e.rid]; Do(s, e).calls[e.rid] == Call(c.job, c.pc, c.cb, false)
  {
  }

  /** A call that may resend and whose first attempt timed out tries again under another rid, and can
      return the response to that. */
  lemma ResendIsReturned(s: State, job: nat, name: string, reSendCnt: int, first: uint32, second: uint32, c: Content)
    returns (es: seq<Event>, t: State)
    requires s.blocked.None? && Enabled(s, Start(job, name, reSendCnt, first, true)) && reSendCnt > 0
    requires second != 0 && second != first && second !in s.calls
    ensures |es| == 13 && RunFrom(s, es) == Some(t) && job in t.jobs
    ensures t.jobs[job].rids == [first, second] && t.jobs[job].result == Some(c)
  {
    var fs, u := TimedOutOnce(s, job, name, reSendCnt, first);
    var gs, v := TriedAgain(u, job, second);
    var hs, w := ReplyIsHandedOver(v, second, c);
    RunOn(s, fs, u, gs);
    RunOn(s, fs + gs, v, hs);
    t := Extend(s, fs + gs + hs, w, Return(job));
    es := fs + gs + hs + [Return(job)];
  }

  lemma TimedOutOnce(s: State, job: nat, name: string, reSendCnt: int, rid: uint32) returns (es: seq<Event>, t: State)
    requires s.blocked.None? && Enabled(s, Start(job, name, reSendCnt, rid, true)) && reSendCnt > 0
    ensures |es| == 5 && RunFrom(s, es) == Some(t) && t.blocked.None?
    ensures t.jobs == s.jobs[job := Job(name, reSendCnt, [rid], None)]
    ensures t.calls.Keys == s.calls.Keys + {rid} && Resends(t, job)
  {
    var fs, u := CallIsSent(s, job, name, reSendCnt, rid);
    var gs;
    gs, t := TicksAway(u, rid);
    RunOn(s, fs, u, gs);
    es := fs + gs;
  }

  lemma TriedAgain(s: State, job: nat, rid: uint32) returns (es: seq<Event>, t: State)
    requires s.blocked.None? && Enabled(s, Resend(job, rid, true))
    ensures |es| == 3 && RunFrom(s, es) == Some(t) && t.blocked.None?
    ensures t.jobs == s.jobs[job := s.jobs[job].(rids := s.jobs[job].rids + [rid])]
    ensures rid in t.calls && t.calls[rid].pc == Waiting && t.calls[rid].cb == InMap
  {
    es := [] + [Resend(job, rid, true)];
    t := Extend(s, [], s, Resend(job, rid, true));
    t := Extend(s, es, t, Added(rid));
    es := es + [Added(rid)];
    t := Extend(s, es, t, Sent(rid, true));
    es := es + [Sent(rid, true)];
  }
}
