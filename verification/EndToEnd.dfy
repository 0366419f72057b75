/** Request and response over callers, gates and services: clientsdk/gate_proxy.go,
    ms_gate/src/rpc_handler.go and ms_framework/msf_default_rpc_handler.go joined by messages.

    A message once sent stays in net, and any message there can be received at any time: so
    messages are delayed, reordered, lost or duplicated in every possible way. A call has a number,
    its place in the history of calls; the numbers that messages and answers carry are there only
    to say which call they were made for, and no step depends on them. */
module EndToEnd {
  import opened Options
  import opened MachineInts
  import Gid
  import opened GateRouting

  type Proc = string
  type GateId = string

  /** A call made by a process, under a rid (0 if it wants no response). */
  datatype Call = Call(proc: Proc, rid: uint32)

  /** A connection that a process had to a gate, under the id the gate knew it by. */
  datatype Conn = Conn(gate: GateId, connID: ConnId, owner: Proc)

  /** A response: the call whose handler made the reply, the call whose error text it carries (if
      any), and the session (one decode call of a service) it comes from, none if a gate made it. */
  datatype Answer = Answer(call: nat, err: Option<nat>, sess: Option<nat>)

  datatype Msg =
    | RouteMsg(conn: nat, rid: uint32, call: nat)
    | CallMsg(gate: GateId, grid: uint32, call: nat)
    | RspMsg(gate: GateId, grid: uint32, ans: Answer)
    | BackMsg(conn: nat, rid: uint32, ans: Answer)

  datatype CallerKey = CallerKey(proc: Proc, rid: uint32)
  datatype ConnKey = ConnKey(gate: GateId, connID: ConnId)
  datatype GridKey = GridKey(gate: GateId, grid: uint32)

  datatype Task = Task(sess: nat, gate: GateId, grid: uint32, call: nat, ran: bool)

  /** A callback that ran with an answer, and the connection the answer came on. */
  datatype Got = Got(call: nat, ans: Answer, conn: nat)

  /** What only grows: the calls made, the connections opened, the calls whose frames each session
      holds, and the call each GRid stands for. */
  datatype History = History(
    calls: seq<Call>,
    conns: seq<Conn>,
    batches: seq<set<nat>>,
    passed: map<GridKey, nat>)

  datatype State = State(
    h: History,
    gids: map<Proc, uint32>,            // each process's id counter
    waiting: map<CallerKey, nat>,       // each process's callback map
    live: map<ConnKey, nat>,            // each gate's connections
    gates: map<GateId, Gate>,
    errs: seq<Option<nat>>,             // each session's error text: the call whose handler set it
    tasks: set<Task>,
    net: set<Msg>,
    done: multiset<nat>,                // callbacks that ran
    got: set<Got>)                      // those that ran with an answer

  const INIT := State(History([], [], [], map[]), map[], map[], map[], map[], [], {}, {}, multiset{}, {})

  function GidOf(gids: map<Proc, uint32>, p: Proc): uint32 { if p in gids then gids[p] else 0 }
  function GateOf(gates: map<GateId, Gate>, g: GateId): Gate { if g in gates then gates[g] else NEW_GATE }
  function LiveAt(live: map<ConnKey, nat>, g: GateId): set<ConnId> { set k | k in live && k.gate == g :: k.connID }

  datatype Event =
    | Open(gate: GateId, connID: ConnId, owner: Proc)
    | Shut(gate: GateId, connID: ConnId)
    | MakeCall(conn: nat, wantsReply: bool)
    | GateRoutes(m: Msg, target: bool)
    | ServiceReads(batch: set<Msg>)
    | HandlerRuns(task: Task, setsErr: bool)
    | ServiceReplies(task: Task, own: bool)
    | GateReturns(m: Msg)
    | GateExpires(gate: GateId, grid: uint32)
    | CallerReceives(m: Msg)
    | CallerTimesOut(p: Proc, rid: uint32)

  /** The frames of one decode call come over one connection. */
  ghost predicate FromOneGate(batch: set<Msg>)
    requires forall m :: m in batch ==> m.CallMsg?
  {
    forall m, k :: m in batch && k in batch ==> m.gate == k.gate
  }

  /** When an event can happen. The counters are below their last value whenever an id is taken. */
  ghost predicate Enabled(s: State, e: Event) {
    match e
    case MakeCall(conn, wantsReply) =>
      conn < |s.h.conns| && (wantsReply ==> GidOf(s.gids, s.h.conns[conn].owner) < TWO_32 - 1)
    case GateRoutes(m, target) =>
      && m in s.net && m.RouteMsg? && m.conn < |s.h.conns|
      && (target && m.rid != 0 ==> GateOf(s.gates, s.h.conns[m.conn].gate).gid < TWO_32 - 1)
    case ServiceReads(batch) => batch <= s.net && (forall m :: m in batch ==> m.CallMsg?) && FromOneGate(batch)
    case HandlerRuns(task, _) => task in s.tasks && task.sess < |s.errs| && !task.ran
    case ServiceReplies(task, _) => task in s.tasks && task.sess < |s.errs| && task.grid != 0
    case GateReturns(m) => m in s.net && m.RspMsg?
    case CallerReceives(m) => m in s.net && m.BackMsg? && m.conn < |s.h.conns|
    case _ => true
  }

  function OnCall(s: State, conn: nat, wantsReply: bool): State
    requires conn < |s.h.conns|
  {
    var p, i := s.h.conns[conn].owner, |s.h.calls|;
    var rid: uint32 := if wantsReply then Gid.Next(GidOf(s.gids, p)) else 0;
    var t := s.(h := s.h.(calls := s.h.calls + [Call(p, rid)]), net := s.net + {RouteMsg(conn, rid, i)});
    if wantsReply then t.(gids := s.gids[p := rid], waiting := s.waiting[CallerKey(p, rid) := i]) else t
  }

  function OnRoute(s: State, m: Msg, target: bool): State
    requires m.RouteMsg? && m.conn < |s.h.conns|
  {
    var c := s.h.conns[m.conn];
    var (g, action) := Route(GateOf(s.gates, c.gate), m.rid, c.connID, target);
    match action
    case Ignored => s
    case Refused => s.(net := s.net + {BackMsg(m.conn, m.rid, Answer(m.call, Some(m.call), None))})
    case Passed(grid) =>
      s.(gates := s.gates[c.gate := g],
         h := if grid != 0 then s.h.(passed := s.h.passed[GridKey(c.gate, grid) := m.call]) else s.h,
         net := s.net + {CallMsg(c.gate, grid, m.call)})
  }

  function OnReturn(s: State, m: Msg): State
    requires m.RspMsg?
  {
    var (g, action) := Return(GateOf(s.gates, m.gate), m.grid, LiveAt(s.live, m.gate));
    var t := s.(gates := s.gates[m.gate := g]);
    if action.Forwarded? && ConnKey(m.gate, action.info.connID) in s.live then
      t.(net := s.net + {BackMsg(s.live[ConnKey(m.gate, action.info.connID)], action.info.rid, m.ans)})
    else t
  }

  /** A callback leaves the map to run. */
  function RunCallback(s: State, k: CallerKey): State
    requires k in s.waiting
  {
    s.(waiting := s.waiting - {k}, done := s.done + multiset{s.waiting[k]})
  }

  /** The response handler of a caller: the callback runs if it is still there. */
  function OnBack(s: State, m: Msg): State
    requires m.BackMsg? && m.conn < |s.h.conns|
  {
    var k := CallerKey(s.h.conns[m.conn].owner, m.rid);
    if k in s.waiting then RunCallback(s, k).(got := s.got + {Got(s.waiting[k], m.ans, m.conn)}) else s
  }

  function TaskOf(sess: nat, m: Msg): Task
    requires m.CallMsg?
  {
    Task(sess, m.gate, m.grid, m.call, false)
  }

  /** A decode call: a new session for the frames it holds. */
  ghost function OnRead(s: State, batch: set<Msg>): State
    requires forall m :: m in batch ==> m.CallMsg?
  {
    s.(h := s.h.(batches := s.h.batches + [set m | m in batch :: m.call]),
       errs := s.errs + [None],
       tasks := s.tasks + set m | m in batch :: TaskOf(|s.errs|, m))
  }

  /** What a service answers: a text of its own if the rpc could not be run or left no reply, and
      otherwise the reply with whatever text the session holds by then. */
  function AnswerOf(s: State, task: Task, own: bool): Answer
    requires task.sess < |s.errs|
  {
    Answer(task.call, if task.ran && !own then s.errs[task.sess] else Some(task.call), Some(task.sess))
  }

  ghost function Do(s: State, e: Event): State
    requires Enabled(s, e)
  {
    match e
    case Open(gate, connID, owner) =>
      s.(h := s.h.(conns := s.h.conns + [Conn(gate, connID, owner)]),
         live := s.live[ConnKey(gate, connID) := |s.h.conns|])
    case Shut(gate, connID) => s.(live := s.live - {ConnKey(gate, connID)})
    case MakeCall(conn, wantsReply) => OnCall(s, conn, wantsReply)
    case GateRoutes(m, target) => OnRoute(s, m, target)
    case ServiceReads(batch) => OnRead(s, batch)
    case HandlerRuns(task, setsErr) =>
      s.(tasks := s.tasks - {task} + {task.(ran := true)},
         errs := if setsErr then s.errs[task.sess := Some(task.call)] else s.errs)
    case ServiceReplies(task, own) => s.(tasks := s.tasks - {task}, net := s.net + {RspMsg(task.gate, task.grid, AnswerOf(s, task, own))})
    case GateReturns(m) => OnReturn(s, m)
    case GateExpires(gate, grid) => s.(gates := s.gates[gate := Expire(GateOf(s.gates, gate), grid)])
    case CallerReceives(m) => OnBack(s, m)
    case CallerTimesOut(p, rid) => if CallerKey(p, rid) in s.waiting then RunCallback(s, CallerKey(p, rid)) else s
  }

  ghost function Next(before: Option<State>, e: Event): Option<State> {
    if before.Some? && Enabled(before.value, e) then Some(Do(before.value, e)) else None
  }

  ghost function Run(es: seq<Event>): Option<State> {
    if es == [] then Some(INIT) else Next(Run(es[..|es| - 1]), es[|es| - 1])
  }

  // ---- What a request can come to ----

  /** Whatever its rid, a request that is routed with a target becomes one call for a service, and a
      one-way request leaves no trace at the gate. */
  lemma RoutedBecomesCall(s: State, m: Msg) returns (grid: uint32)
    requires Enabled(s, GateRoutes(m, true))
    ensures var t, c := Do(s, GateRoutes(m, true)), s.h.conns[m.conn];
      && t.net == s.net + {CallMsg(c.gate, grid, m.call)}
      && (grid == 0 <==> m.rid == 0)
      && (m.rid == 0 ==> t.h == s.h && forall g :: GateOf(t.gates, g) == GateOf(s.gates, g))
      && (m.rid != 0 ==> grid in GateOf(t.gates, c.gate).cbMap && t.gates[c.gate].cbMap[grid] == CbInfo(m.rid, c.connID))
      && t.h.conns == s.h.conns && t.live == s.live && t.waiting == s.waiting && t.errs == s.errs
  {
    var (_, action) := Route(GateOf(s.gates, s.h.conns[m.conn].gate), m.rid, s.h.conns[m.conn].connID, true);
    grid := action.grid;
  }

  /** A service that reads the call alone and runs its handler without an error. */
  lemma ServiceServes(s: State, c: Msg) returns (e1: Event, e2: Event, t: State)
    requires c in s.net && c.CallMsg?
    ensures Enabled(s, e1) && Enabled(Do(s, e1), e2) && t == Do(Do(s, e1), e2)
    ensures TaskOf(|s.errs|, c).(ran := true) in t.tasks
    ensures t.errs == s.errs + [None] && t.net == s.net && t.gates == s.gates
    ensures t.h.conns == s.h.conns && t.live == s.live && t.waiting == s.waiting
  {
    var task := TaskOf(|s.errs|, c);
    e1, e2 := ServiceReads({c}), HandlerRuns(task, false);
    assert c in {c};
    assert task in OnRead(s, {c}).tasks;
    t := Do(Do(s, e1), e2);
  }

  /** The reply of a handler that ran comes back to the connection the gate remembers, if that is
      open, and runs the callback that waits there. */
  lemma ReplyComesBack(s: State, task: Task, conn: nat) returns (e1: Event, e2: Event, e3: Event, t: State)
    requires task in s.tasks && task.ran && task.grid != 0 && task.sess < |s.errs| && s.errs[task.sess] == None
    requires conn < |s.h.conns| && task.gate in s.gates && task.grid in s.gates[task.gate].cbMap
    requires var info := s.gates[task.gate].cbMap[task.grid];
      && ConnKey(task.gate, info.connID) in s.live && s.live[ConnKey(task.gate, info.connID)] == conn
      && CallerKey(s.h.conns[conn].owner, info.rid) in s.waiting
      && s.waiting[CallerKey(s.h.conns[conn].owner, info.rid)] == task.call
    ensures Enabled(s, e1) && Enabled(Do(s, e1), e2) && Enabled(Do(Do(s, e1), e2), e3) && t == Do(Do(Do(s, e1), e2), e3)
    ensures Got(task.call, Answer(task.call, None, Some(task.sess)), conn) in t.got
  {
    var info, ans := s.gates[task.gate].cbMap[task.grid], AnswerOf(s, task, false);
    e1 := ServiceReplies(task, false);
    var s1 := Do(s, e1);
    assert info.connID in LiveAt(s1.live, task.gate);
    e2 := GateReturns(RspMsg(task.gate, task.grid, ans));
    var s2 := Do(s1, e2);
    e3 := CallerReceives(BackMsg(conn, info.rid, ans));
    assert BackMsg(conn, info.rid, ans) in s2.net;
    t := Do(s2, e3);
  }

  /** After any run, a request on its way, one-way or not, can be served: routed, read and handled. */
  lemma RequestIsServed(es: seq<Event>, s: State, m: Msg) returns (fs: seq<Event>, t: State, task: Task)
    requires Run(es) == Some(s) && Enabled(s, GateRoutes(m, true))
    ensures |fs| == 3 && Run(es + fs) == Some(t)
    ensures task in t.tasks && task.call == m.call && task.ran && (task.grid == 0 <==> m.rid == 0)
    ensures task.sess < |t.errs| && t.errs[task.sess] == None && task.gate == s.h.conns[m.conn].gate
    ensures t.h.conns == s.h.conns && t.live == s.live && t.waiting == s.waiting
    ensures m.rid != 0 ==>
      && task.gate in t.gates && task.grid in t.gates[task.gate].cbMap
      && t.gates[task.gate].cbMap[task.grid] == CbInfo(m.rid, s.h.conns[m.conn].connID)
  {
    var e0, c := GateRoutes(m, true), s.h.conns[m.conn];
    var grid := RoutedBecomesCall(s, m);
    var s0 := Extend(es, s, e0);
    var call := CallMsg(c.gate, grid, m.call);
    var e1, e2;
    e1, e2, t := ServiceServes(s0, call);
    Twice(es + [e0], s0, e1, e2);
    fs, task := [e0] + [e1, e2], TaskOf(|s0.errs|, call).(ran := true);
    Regroup(es, [e0], [e1, e2]);
  }

  /** And one that wants a response, on a connection that is open, can be answered: the callback of
      that very call runs with the reply of its own handler and no error. */
  lemma RequestIsAnswered(es: seq<Event>, s: State, m: Msg) returns (fs: seq<Event>, t: State, sess: nat)
    requires Run(es) == Some(s) && Enabled(s, GateRoutes(m, true)) && m.rid != 0 && Waits(s.h.calls, s.waiting, m.call)
    requires var c := s.h.conns[m.conn]; ConnKey(c.gate, c.connID) in s.live && s.live[ConnKey(c.gate, c.connID)] == m.conn
    ensures |fs| == 6 && Run(es + fs) == Some(t)
    ensures Got(m.call, Answer(m.call, None, Some(sess)), m.conn) in t.got
  {
    WaitsOnConn(es, s, m);
    var gs, s1, task := RequestIsServed(es, s, m);
    var e1, e2, e3;
    e1, e2, e3, t := ReplyComesBack(s1, task, m.conn);
    Twice(es + gs, s1, e1, e2);
    t := Extend(es + gs + [e1, e2], Do(Do(s1, e1), e2), e3);
    fs, sess := gs + ([e1, e2] + [e3]), task.sess;
    Regroup(es, gs, [e1, e2] + [e3]);
    Regroup(es + gs, [e1, e2], [e3]);
  }

  /** A call puts one request on its way, and waits exactly if it wants a response. */
  lemma CallIsMade(s: State, conn: nat, wantsReply: bool) returns (m: Msg)
    requires Enabled(s, MakeCall(conn, wantsReply))
    ensures var t, i := Do(s, MakeCall(conn, wantsReply)), |s.h.calls|;
      && m.RouteMsg? && m.conn == conn && m.call == i && (m.rid == 0 <==> !wantsReply)
      && t.net == s.net + {m} && t.h.calls == s.h.calls + [Call(s.h.conns[conn].owner, m.rid)]
      && (if wantsReply then Waits(t.h.calls, t.waiting, i) else t.waiting == s.waiting)
      && t.h.conns == s.h.conns && t.live == s.live && t.gates == s.gates
  {
    var p := s.h.conns[conn].owner;
    m := RouteMsg(conn, if wantsReply then Gid.Next(GidOf(s.gids, p)) else 0, |s.h.calls|);
    assert (s.h.calls + [Call(p, m.rid)])[|s.h.calls|] == Call(p, m.rid);
  }

  predicate GateHasIds(s: State, conn: nat) {
    conn < |s.h.conns| && GateOf(s.gates, s.h.conns[conn].gate).gid < TWO_32 - 1
  }

  lemma RequestUnderWay(es: seq<Event>, s: State, conn: nat, wantsReply: bool) returns (e: Event, t: State, m: Msg)
    requires Run(es) == Some(s) && Enabled(s, MakeCall(conn, wantsReply)) && GateHasIds(s, conn)
    ensures Run(es + [e]) == Some(t) && m in t.net && m.RouteMsg? && Enabled(t, GateRoutes(m, true))
    ensures m.conn == conn && m.call == |s.h.calls| && (m.rid == 0 <==> !wantsReply)
    ensures wantsReply ==> Waits(t.h.calls, t.waiting, m.call)
    ensures t.h.conns == s.h.conns && t.live == s.live
  {
    e := MakeCall(conn, wantsReply);
    m := CallIsMade(s, conn, wantsReply);
    t := Extend(es, s, e);
  }

  /** After any run any further call, one-way or not, can be served. */
  lemma CallIsServed(es: seq<Event>, s: State, conn: nat, wantsReply: bool) returns (fs: seq<Event>, t: State, task: Task)
    requires Run(es) == Some(s) && Enabled(s, MakeCall(conn, wantsReply)) && GateHasIds(s, conn)
    ensures |fs| == 4 && Run(es + fs) == Some(t)
    ensures task in t.tasks && task.call == |s.h.calls| && task.ran && (task.grid == 0 <==> !wantsReply)
  {
    var e, s1, m := RequestUnderWay(es, s, conn, wantsReply);
    var gs;
    gs, t, task := RequestIsServed(es + [e], s1, m);
    fs := [e] + gs;
    Regroup(es, [e], gs);
  }

  /** And one that wants a response, on a connection that is open, can be answered. */
  lemma CallIsAnswered(es: seq<Event>, s: State, conn: nat) returns (fs: seq<Event>, t: State, sess: nat)
    requires Run(es) == Some(s) && Enabled(s, MakeCall(conn, true)) && GateHasIds(s, conn)
    requires var c := s.h.conns[conn]; ConnKey(c.gate, c.connID) in s.live && s.live[ConnKey(c.gate, c.connID)] == conn
    ensures |fs| == 7 && Run(es + fs) == Some(t)
    ensures Got(|s.h.calls|, Answer(|s.h.calls|, None, Some(sess)), conn) in t.got
  {
    var e, s1, m := RequestUnderWay(es, s, conn, true);
    var gs;
    gs, t, sess := RequestIsAnswered(es + [e], s1, m);
    fs := [e] + gs;
    Regroup(es, [e], gs);
  }

  /** A request that finds no target is refused: a caller that waits can learn it, with the gate's
      own text for that call, and nothing comes of a one-way request. */
  lemma RefusalComesBack(es: seq<Event>, s: State, m: Msg)
    requires Run(es) == Some(s) && Enabled(s, GateRoutes(m, false))
    ensures m.rid == 0 ==> Do(s, GateRoutes(m, false)) == s
    ensures m.rid != 0 && Waits(s.h.calls, s.waiting, m.call) ==>
      var e1, e2 := GateRoutes(m, false), CallerReceives(BackMsg(m.conn, m.rid, Answer(m.call, Some(m.call), None)));
      && Enabled(Do(s, e1), e2) && Run(es + [e1, e2]) == Some(Do(Do(s, e1), e2))
      && Got(m.call, Answer(m.call, Some(m.call), None), m.conn) in Do(Do(s, e1), e2).got
  {
    if m.rid != 0 && Waits(s.h.calls, s.waiting, m.call) {
      WaitsOnConn(es, s, m);
      Twice(es, s, GateRoutes(m, false), CallerReceives(BackMsg(m.conn, m.rid, Answer(m.call, Some(m.call), None))));
    }
  }

  /** A time-out ends the wait of its call, with no answer, and of no other. */
  lemma TimeOutEndsWait(s: State, p: Proc, rid: uint32)
    ensures var k, t := CallerKey(p, rid), Do(s, CallerTimesOut(p, rid));
      && t.got == s.got && t.waiting == s.waiting - {k}
      && t.done == s.done + if k in s.waiting then multiset{s.waiting[k]} else multiset{}
  {
    assert CallerKey(p, rid) !in s.waiting ==> s.waiting - {CallerKey(p, rid)} == s.waiting;
  }

  /** After a gate has given a GRid up, a response to it changes nothing but is consumed; other GRids
      and gates are as before. */
  lemma ExpiredIsNotReturned(s: State, g: GateId, grid: uint32, ans: Answer)
    requires RspMsg(g, grid, ans) in s.net
    ensures var t := Do(s, GateExpires(g, grid));
      && t.net == s.net && Enabled(t, GateReturns(RspMsg(g, grid, ans)))
      && Do(t, GateReturns(RspMsg(g, grid, ans))).net == s.net
      && (forall x :: x in GateOf(t.gates, g).cbMap <==> x in GateOf(s.gates, g).cbMap && x != grid)
      && (forall f :: f != g ==> GateOf(t.gates, f) == GateOf(s.gates, f))
  {
  }

  /** Nor does a response go out on a connection that was shut, though its GRid is given up. */
  lemma ShutIsNotReached(s: State, g: GateId, connID: ConnId, grid: uint32, ans: Answer)
    requires g in s.gates && grid in s.gates[g].cbMap && s.gates[g].cbMap[grid].connID == connID && RspMsg(g, grid, ans) in s.net
    ensures var t := Do(s, Shut(g, connID));
      && (forall k :: k != ConnKey(g, connID) ==> (k in t.live <==> k in s.live) && (k in s.live ==> t.live[k] == s.live[k]))
      && t.net == s.net && Enabled(t, GateReturns(RspMsg(g, grid, ans)))
      && var u := Do(t, GateReturns(RspMsg(g, grid, ans))); u.net == s.net && grid !in GateOf(u.gates, g).cbMap
  {
    var t := Do(s, Shut(g, connID));
    assert connID !in LiveAt(t.live, g);
  }

  /** A service answers with its handler's reply only if the handler ran. */
  lemma ReplyIsOfHandler(s: State, task: Task, own: bool) returns (ans: Answer)
    requires Enabled(s, ServiceReplies(task, own))
    ensures Do(s, ServiceReplies(task, own)).net == s.net + {RspMsg(task.gate, task.grid, ans)}
    ensures ans.call == task.call && ans.err == if own || !task.ran then Some(task.call) else s.errs[task.sess]
  {
    ans := AnswerOf(s, task, own);
  }

  lemma WaitsOnConn(es: seq<Event>, s: State, m: Msg)
    requires Run(es) == Some(s) && m in s.net && m.RouteMsg? && Waits(s.h.calls, s.waiting, m.call)
    ensures m.conn < |s.h.conns|
    ensures var k := CallerKey(s.h.conns[m.conn].owner, m.rid); k in s.waiting && s.waiting[k] == m.call
  {
    RunKeepsInv(es);
    assert MsgOk(s.h, m);
  }

  lemma Regroup(a: seq<Event>, b: seq<Event>, c: seq<Event>)
    ensures a + (b + c) == a + b + c
  {
  }

  lemma Twice(es: seq<Event>, s: State, e1: Event, e2: Event)
    requires Run(es) == Some(s) && Enabled(s, e1) && Enabled(Do(s, e1), e2)
    ensures Run(es + [e1, e2]) == Some(Do(Do(s, e1), e2))
  {
    var s1 := Extend(es, s, e1);
    var s2 := Extend(es + [e1], s1, e2);
    assert es + [e1, e2] == es + [e1] + [e2];
  }

  // ---- The invariant, part by part, each over the fields it speaks of ----

  /** Rids of one process are distinct. */
  ghost predicate CallsOk(calls: seq<Call>, gids: map<Proc, uint32>) {
    && (forall i :: 0 <= i < |calls| ==> calls[i].rid <= GidOf(gids, calls[i].proc))
    && (forall i, j :: 0 <= i < j < |calls| && calls[i].proc == calls[j].proc && calls[i].rid != 0 ==>
          calls[i].rid != calls[j].rid)
  }

  ghost predicate WaitingOk(calls: seq<Call>, waiting: map<CallerKey, nat>) {
    forall k :: k in waiting ==> k.rid != 0 && waiting[k] < |calls| && calls[waiting[k]] == Call(k.proc, k.rid)
  }

  predicate Waits(calls: seq<Call>, waiting: map<CallerKey, nat>, i: nat) {
    i < |calls| && var k := CallerKey(calls[i].proc, calls[i].rid); k in waiting && waiting[k] == i
  }

  function Due(calls: seq<Call>, i: nat): nat {
    if i < |calls| && calls[i].rid != 0 then 1 else 0
  }

  /** A call that wants a response is waiting or its callback ran, one of these and once. */
  ghost predicate Accounted(calls: seq<Call>, waiting: map<CallerKey, nat>, done: multiset<nat>) {
    forall i: nat :: done[i] + (if Waits(calls, waiting, i) then 1 else 0) == Due(calls, i)
  }

  ghost predicate ConnsOk(conns: seq<Conn>, live: map<ConnKey, nat>) {
    forall k :: k in live ==>
      live[k] < |conns| && conns[live[k]].gate == k.gate && conns[live[k]].connID == k.connID
  }

  /** A GRid stands for one call, and the gate remembers that call's rid. */
  ghost predicate GatesOk(h: History, gates: map<GateId, Gate>) {
    && (forall k :: k in h.passed ==> h.passed[k] < |h.calls| && 1 <= k.grid <= GateOf(gates, k.gate).gid)
    && (forall g: GateId, id: uint32 :: g in gates && id in gates[g].cbMap ==> Remembers(h, g, id, gates[g].cbMap[id]))
  }

  ghost predicate Remembers(h: History, g: GateId, id: uint32, info: CbInfo) {
    var k := GridKey(g, id);
    k in h.passed && h.passed[k] < |h.calls| && h.calls[h.passed[k]].rid == info.rid
  }

  ghost predicate StandsFor(h: History, g: GateId, grid: uint32, call: nat) {
    call < |h.calls| && (grid != 0 ==> GridKey(g, grid) in h.passed && h.passed[GridKey(g, grid)] == call)
  }

  ghost predicate TaskOk(h: History, t: Task) {
    t.sess < |h.batches| && t.call in h.batches[t.sess] && StandsFor(h, t.gate, t.grid, t.call)
  }

  ghost predicate ErrsOk(h: History, errs: seq<Option<nat>>) {
    && |errs| == |h.batches|
    && (forall x :: 0 <= x < |errs| && errs[x].Some? ==> errs[x].value in h.batches[x])
  }

  /** An error text comes from the session that made the reply; a gate's from the call itself. */
  ghost predicate AnswerOk(h: History, a: Answer) {
    && a.call < |h.calls|
    && (if a.sess.Some? then
          && a.sess.value < |h.batches|
          && a.call in h.batches[a.sess.value]
          && (a.err.Some? ==> a.err.value in h.batches[a.sess.value])
        else a.err == Some(a.call))
  }

  ghost predicate MsgOk(h: History, m: Msg) {
    match m
    case RouteMsg(conn, rid, call) =>
      conn < |h.conns| && call < |h.calls| && h.calls[call] == Call(h.conns[conn].owner, rid)
    case CallMsg(gate, grid, call) => StandsFor(h, gate, grid, call)
    case RspMsg(gate, grid, ans) => grid != 0 && StandsFor(h, gate, grid, ans.call) && AnswerOk(h, ans)
    case BackMsg(conn, rid, ans) => conn < |h.conns| && AnswerOk(h, ans) && h.calls[ans.call].rid == rid
  }

  /** An answer's callback belongs to the process the answer came to, and to the rid it came under. */
  ghost predicate GotOk(h: History, x: Got) {
    && x.call < |h.calls| && x.conn < |h.conns| && AnswerOk(h, x.ans)
    && h.calls[x.call] == Call(h.conns[x.conn].owner, h.calls[x.ans.call].rid)
    && h.calls[x.call].rid != 0
  }

  ghost predicate TasksOk(h: History, tasks: set<Task>) { forall t :: t in tasks ==> TaskOk(h, t) }
  ghost predicate NetOk(h: History, net: set<Msg>) { forall m :: m in net ==> MsgOk(h, m) }
  ghost predicate GotsOk(h: History, got: set<Got>) { forall x :: x in got ==> GotOk(h, x) }

  ghost predicate Inv(s: State) {
    && CallsOk(s.h.calls, s.gids)
    && WaitingOk(s.h.calls, s.waiting)
    && Accounted(s.h.calls, s.waiting, s.done)
    && ConnsOk(s.h.conns, s.live)
    && GatesOk(s.h, s.gates)
    && ErrsOk(s.h, s.errs)
    && TasksOk(s.h, s.tasks)
    && NetOk(s.h, s.net)
    && GotsOk(s.h, s.got)
  }

  ghost predicate Extends(h: History, k: History) {
    && h.calls <= k.calls && h.conns <= k.conns && h.batches <= k.batches
    && (forall x :: x in h.passed ==> x in k.passed && k.passed[x] == h.passed[x])
  }

  /** What is true of a message, a task or an answer stays true. */
  lemma HistoryGrows(h: History, k: History, s: State)
    requires Extends(h, k) && TasksOk(h, s.tasks) && NetOk(h, s.net) && GotsOk(h, s.got)
    ensures TasksOk(k, s.tasks) && NetOk(k, s.net) && GotsOk(k, s.got)
  {
    forall t | t in s.tasks ensures TaskOk(k, t) {
      assert TaskOk(h, t);
    }
    forall m | m in s.net ensures MsgOk(k, m) {
      assert MsgOk(h, m);
    }
    forall x | x in s.got ensures GotOk(k, x) {
      assert GotOk(h, x);
    }
  }

  // ---- Every step keeps it ----

  lemma OpenKeepsInv(s: State, e: Event)
    requires Inv(s) && (e.Open? || e.Shut?)
    ensures Inv(Do(s, e))
  {
    var t := Do(s, e);
    assert Extends(s.h, t.h);
    HistoryGrows(s.h, t.h, s);
    forall g: GateId, id: uint32 | g in t.gates && id in t.gates[g].cbMap ensures Remembers(t.h, g, id, t.gates[g].cbMap[id]) {
      assert Remembers(s.h, g, id, s.gates[g].cbMap[id]);
    }
  }

  lemma CallKeepsCalls(s: State, conn: nat, wantsReply: bool)
    requires Inv(s) && Enabled(s, MakeCall(conn, wantsReply))
    ensures var t := OnCall(s, conn, wantsReply);
      CallsOk(t.h.calls, t.gids) && WaitingOk(t.h.calls, t.waiting)
  {
  }

  lemma CallKeepsAccounts(s: State, conn: nat, wantsReply: bool)
    requires Inv(s) && Enabled(s, MakeCall(conn, wantsReply))
    ensures var t := OnCall(s, conn, wantsReply); Accounted(t.h.calls, t.waiting, t.done)
  {
    var t := OnCall(s, conn, wantsReply);
    var n, p := |s.h.calls|, s.h.conns[conn].owner;
    forall i: nat ensures t.done[i] + (if Waits(t.h.calls, t.waiting, i) then 1 else 0) == Due(t.h.calls, i) {
      assert s.done[i] + (if Waits(s.h.calls, s.waiting, i) then 1 else 0) == Due(s.h.calls, i);
      if i < n {
        assert t.h.calls[i] == s.h.calls[i];
        assert wantsReply && s.h.calls[i].proc == p ==> s.h.calls[i].rid != t.h.calls[n].rid;
      }
    }
  }

  lemma CallKeepsInv(s: State, conn: nat, wantsReply: bool)
    requires Inv(s) && Enabled(s, MakeCall(conn, wantsReply))
    ensures Inv(OnCall(s, conn, wantsReply))
  {
    var t := OnCall(s, conn, wantsReply);
    CallKeepsCalls(s, conn, wantsReply);
    CallKeepsAccounts(s, conn, wantsReply);
    assert Extends(s.h, t.h);
    HistoryGrows(s.h, t.h, s);
    forall g: GateId, id: uint32 | g in t.gates && id in t.gates[g].cbMap ensures Remembers(t.h, g, id, t.gates[g].cbMap[id]) {
      assert Remembers(s.h, g, id, s.gates[g].cbMap[id]);
    }
  }

  /** A new GRid is none that was passed before. */
  lemma PassKeepsGates(h: History, gates: map<GateId, Gate>, g: GateId, info: CbInfo, call: nat)
    requires GatesOk(h, gates) && GateOf(gates, g).gid < TWO_32 - 1
    requires call < |h.calls| && h.calls[call].rid == info.rid
    ensures var gate := GateOf(gates, g);
      var id := Gid.Next(gate.gid);
      var k := h.(passed := h.passed[GridKey(g, id) := call]);
      Extends(h, k) && GatesOk(k, gates[g := Gate(id, gate.cbMap[id := info])])
  {
    var gate := GateOf(gates, g);
    var id := Gid.Next(gate.gid);
    var k := h.(passed := h.passed[GridKey(g, id) := call]);
    var after := gates[g := Gate(id, gate.cbMap[id := info])];
    assert GridKey(g, id) !in h.passed;
    forall f: GateId, x: uint32 | f in after && x in after[f].cbMap ensures Remembers(k, f, x, after[f].cbMap[x]) {
      if f != g || x != id {
        assert f in gates && x in gates[f].cbMap;
        assert Remembers(h, f, x, gates[f].cbMap[x]);
      }
    }
  }

  lemma RouteKeepsGates(s: State, m: Msg, target: bool)
    requires Inv(s) && Enabled(s, GateRoutes(m, target))
    ensures var t := OnRoute(s, m, target);
      Extends(s.h, t.h) && GatesOk(t.h, t.gates) && forall x :: x in t.net && x !in s.net ==> MsgOk(t.h, x)
  {
    var c := s.h.conns[m.conn];
    assert MsgOk(s.h, m);
    if target && m.rid != 0 {
      PassedKeepsGates(s, m);
    } else if target {
      ReturnKeepsGates(s, c.gate, GateOf(s.gates, c.gate));
    }
  }

  lemma PassedKeepsGates(s: State, m: Msg)
    requires Inv(s) && Enabled(s, GateRoutes(m, true)) && m.rid != 0
    ensures var t := OnRoute(s, m, true);
      Extends(s.h, t.h) && GatesOk(t.h, t.gates) && forall x :: x in t.net && x !in s.net ==> MsgOk(t.h, x)
  {
    var c := s.h.conns[m.conn];
    assert MsgOk(s.h, m);
    PassKeepsGates(s.h, s.gates, c.gate, CbInfo(m.rid, c.connID), m.call);
  }

  lemma RouteKeepsInv(s: State, m: Msg, target: bool)
    requires Inv(s) && Enabled(s, GateRoutes(m, target))
    ensures Inv(OnRoute(s, m, target))
  {
    var t := OnRoute(s, m, target);
    RouteKeepsGates(s, m, target);
    HistoryGrows(s.h, t.h, s);
  }

  lemma ReadKeepsInv(s: State, batch: set<Msg>)
    requires Inv(s) && Enabled(s, ServiceReads(batch))
    ensures Inv(OnRead(s, batch))
  {
    var t := OnRead(s, batch);
    assert Extends(s.h, t.h);
    HistoryGrows(s.h, t.h, s);
    forall m | m in batch ensures TaskOk(t.h, TaskOf(|s.errs|, m)) {
      assert MsgOk(s.h, m);
    }
    forall g: GateId, id: uint32 | g in t.gates && id in t.gates[g].cbMap ensures Remembers(t.h, g, id, t.gates[g].cbMap[id]) {
      assert Remembers(s.h, g, id, s.gates[g].cbMap[id]);
    }
  }

  lemma ServiceKeepsInv(s: State, e: Event)
    requires Inv(s) && (e.HandlerRuns? || e.ServiceReplies?) && Enabled(s, e)
    ensures Inv(Do(s, e))
  {
    assert TaskOk(s.h, e.task);
    if e.ServiceReplies? {
      assert AnswerOk(s.h, AnswerOf(s, e.task, e.own));
    } else {
      assert TaskOk(s.h, e.task.(ran := true));
    }
  }

  lemma ReturnKeepsGates(s: State, g: GateId, gate: Gate)
    requires GatesOk(s.h, s.gates) && gate.gid == GateOf(s.gates, g).gid
    requires forall id :: id in gate.cbMap ==> id in GateOf(s.gates, g).cbMap && gate.cbMap[id] == GateOf(s.gates, g).cbMap[id]
    ensures GatesOk(s.h, s.gates[g := gate])
  {
    var gates := s.gates[g := gate];
    forall f: GateId, id: uint32 | f in gates && id in gates[f].cbMap ensures Remembers(s.h, f, id, gates[f].cbMap[id]) {
      assert Remembers(s.h, f, id, s.gates[f].cbMap[id]);
    }
  }

  lemma ReturnKeepsInv(s: State, m: Msg)
    requires Inv(s) && Enabled(s, GateReturns(m))
    ensures Inv(OnReturn(s, m))
  {
    var (g, action) := Return(GateOf(s.gates, m.gate), m.grid, LiveAt(s.live, m.gate));
    assert MsgOk(s.h, m);
    ReturnKeepsGates(s, m.gate, g);
    if action.Forwarded? {
      assert Remembers(s.h, m.gate, m.grid, action.info);
    }
  }

  lemma CallbackKeepsAccounts(s: State, k: CallerKey)
    requires Inv(s) && k in s.waiting
    ensures var t := RunCallback(s, k);
      WaitingOk(t.h.calls, t.waiting) && Accounted(t.h.calls, t.waiting, t.done)
  {
    var t := RunCallback(s, k);
    forall i: nat ensures t.done[i] + (if Waits(t.h.calls, t.waiting, i) then 1 else 0) == Due(t.h.calls, i) {
      assert s.done[i] + (if Waits(s.h.calls, s.waiting, i) then 1 else 0) == Due(s.h.calls, i);
    }
  }

  lemma BackKeepsInv(s: State, m: Msg)
    requires Inv(s) && Enabled(s, CallerReceives(m))
    ensures Inv(OnBack(s, m))
  {
    var k := CallerKey(s.h.conns[m.conn].owner, m.rid);
    assert MsgOk(s.h, m);
    if k in s.waiting {
      CallbackKeepsAccounts(s, k);
      assert GotOk(s.h, Got(s.waiting[k], m.ans, m.conn));
    }
  }

  lemma StepKeepsInv(s: State, e: Event)
    requires Inv(s) && Enabled(s, e)
    ensures Inv(Do(s, e))
  {
    match e
    case Open(_, _, _) => OpenKeepsInv(s, e);
    case Shut(_, _) => OpenKeepsInv(s, e);
    case MakeCall(conn, wantsReply) => CallKeepsInv(s, conn, wantsReply);
    case GateRoutes(m, target) => RouteKeepsInv(s, m, target);
    case ServiceReads(batch) => ReadKeepsInv(s, batch);
    case HandlerRuns(_, _) => ServiceKeepsInv(s, e);
    case ServiceReplies(_, _) => ServiceKeepsInv(s, e);
    case GateReturns(m) => ReturnKeepsInv(s, m);
    case GateExpires(gate, grid) => ReturnKeepsGates(s, gate, Expire(GateOf(s.gates, gate), grid));
    case CallerReceives(m) => BackKeepsInv(s, m);
    case CallerTimesOut(p, rid) =>
      if CallerKey(p, rid) in s.waiting {
        CallbackKeepsAccounts(s, CallerKey(p, rid));
      }
  }

  lemma {:induction false} RunKeepsInv(es: seq<Event>)
    requires Run(es).Some?
    ensures Inv(Run(es).value)
    decreases |es|
  {
    if es == [] {
    } else {
      var n := |es| - 1;
      RunKeepsInv(es[..n]);
      StepKeepsInv(Run(es[..n]).value, es[n]);
    }
  }

  // ---- What every run promises ----

  /** A callback runs at most once, with an answer or with the time-out: a call that wants a
      response is waiting, or its callback ran, one of these and once; no other callback runs. */
  lemma CallbackAtMostOnce(es: seq<Event>, i: nat)
    requires Run(es).Some?
    ensures var s := Run(es).value;
      s.done[i] + (if Waits(s.h.calls, s.waiting, i) then 1 else 0) == Due(s.h.calls, i)
  {
    RunKeepsInv(es);
  }

  /** Correlation: a callback that ran with an answer ran with the reply made for its own call
      exactly when the process that answer came to is the one that made the answered call. */
  lemma CorrelationIff(es: seq<Event>, x: Got)
    requires Run(es).Some? && x in Run(es).value.got
    ensures var h := Run(es).value.h;
      && x.call < |h.calls| && x.conn < |h.conns| && x.ans.call < |h.calls|
      && (x.ans.call == x.call <==> h.calls[x.ans.call].proc == h.conns[x.conn].owner)
  {
    RunKeepsInv(es);
    var h := Run(es).value.h;
    assert GotOk(h, x) && CallsOk(h.calls, Run(es).value.gids);
  }

  /** The error text of an answer was set by a call of the same decode call of the service, or is
      the answered call's own; so it is its own where the decode call held that one frame. */
  lemma ErrorTextOrigin(es: seq<Event>, x: Got)
    requires Run(es).Some? && x in Run(es).value.got && x.ans.err.Some?
    ensures var h := Run(es).value.h;
      match x.ans.sess
      case None => x.ans.err.value == x.ans.call
      case Some(n) =>
        && n < |h.batches| && x.ans.err.value in h.batches[n] && x.ans.call in h.batches[n]
        && (|h.batches[n]| == 1 ==> x.ans.err.value == x.ans.call)
  {
    RunKeepsInv(es);
    var h := Run(es).value.h;
    assert GotOk(h, x);
    if x.ans.sess.Some? {
      var b := h.batches[x.ans.sess.value];
      var u, v := x.ans.err.value, x.ans.call;
      if u != v {
        assert {u, v} <= b;
        SubsetSize({u, v}, b);
      }
    }
  }

  lemma {:induction false} SubsetSize(a: set<nat>, b: set<nat>)
    requires a <= b
    ensures |a| <= |b|
  {
    assert b == a + (b - a);
  }

  // ---- Connection ids that pass on only when no harm can come of it ----

  /** The GRid stands for a call of that process. */
  ghost predicate IsOf(h: History, g: GateId, id: uint32, p: Proc) {
    var k := GridKey(g, id);
    k in h.passed && h.passed[k] < |h.calls| && h.calls[h.passed[k]].proc == p
  }

  /** What decides whether a response under a rid runs a callback: ids used and callbacks waiting. */
  datatype Callers = Callers(gids: map<Proc, uint32>, waiting: map<CallerKey, nat>)

  function CallersOf(s: State): Callers {
    Callers(s.gids, s.waiting)
  }

  /** The process has used that rid (or it is none) and does not wait under it: a response under it
      runs nothing, now or later. */
  predicate Past(c: Callers, p: Proc, rid: uint32) {
    rid <= GidOf(c.gids, p) && CallerKey(p, rid) !in c.waiting
  }

  /** A step must not leave a gate with a pending call whose connection id is in the hands of another
      process, if that process waits under the call's rid or has still to use it. Only two kinds of
      step can: a process opens a connection under an id the gate remembers for a call of another, or
      the gate takes in a request from a connection whose id another process has by now. */
  ghost predicate Careful(s: State, e: Event)
    requires Enabled(s, e)
  {
    match e
    case Open(g, connID, p) =>
      var cbMap := GateOf(s.gates, g).cbMap;
      forall id :: id in cbMap && cbMap[id].connID == connID ==> IsOf(s.h, g, id, p) || Past(CallersOf(s), p, cbMap[id].rid)
    case GateRoutes(m, target) =>
      target && m.rid != 0 ==>
        var c := s.h.conns[m.conn];
        var k := ConnKey(c.gate, c.connID);
        k in s.live && s.live[k] < |s.h.conns| ==>
          var p := s.h.conns[s.live[k]].owner; p == c.owner || Past(CallersOf(s), p, m.rid)
    case _ => true
  }

  ghost predicate CarefulRun(es: seq<Event>) {
    && Run(es).Some?
    && (es != [] ==>
          var n := |es| - 1;
          Run(es[..n]).Some? && CarefulRun(es[..n]) && Enabled(Run(es[..n]).value, es[n]) && Careful(Run(es[..n]).value, es[n]))
  }

  /** The connection leads to the process that made the call. */
  ghost predicate Home(h: History, conn: nat, call: nat) {
    conn < |h.conns| && call < |h.calls| && h.conns[conn].owner == h.calls[call].proc
  }

  /** If the id a gate remembers is in use, then by the process that made the call, or by one for which
      its rid is past. */
  ghost predicate EntryHome(h: History, c: Callers, live: map<ConnKey, nat>, g: GateId, id: uint32, info: CbInfo) {
    var k := ConnKey(g, info.connID);
    k in live ==>
      live[k] < |h.conns| && (IsOf(h, g, id, h.conns[live[k]].owner) || Past(c, h.conns[live[k]].owner, info.rid))
  }

  ghost predicate BackHome(h: History, c: Callers, m: Msg)
    requires m.BackMsg?
  {
    m.conn < |h.conns| && (Home(h, m.conn, m.ans.call) || Past(c, h.conns[m.conn].owner, m.rid))
  }

  ghost predicate NetHome(h: History, c: Callers, net: set<Msg>) {
    forall m :: m in net && m.BackMsg? ==> BackHome(h, c, m)
  }

  ghost predicate GotHome(h: History, got: set<Got>) {
    forall x :: x in got ==> Home(h, x.conn, x.ans.call)
  }

  ghost predicate GatesHome(h: History, c: Callers, gates: map<GateId, Gate>, live: map<ConnKey, nat>) {
    forall g: GateId, id: uint32 :: g in gates && id in gates[g].cbMap ==> EntryHome(h, c, live, g, id, gates[g].cbMap[id])
  }

  ghost predicate HomeInv(s: State) {
    NetHome(s.h, CallersOf(s), s.net) && GotHome(s.h, s.got) && GatesHome(s.h, CallersOf(s), s.gates, s.live)
  }

  /** What is past stays past. */
  ghost predicate Onward(c: Callers, d: Callers) {
    forall p, rid :: Past(c, p, rid) ==> Past(d, p, rid)
  }

  lemma HomeGrows(s: State, k: History, d: Callers)
    requires HomeInv(s) && Extends(s.h, k) && Onward(CallersOf(s), d)
    ensures NetHome(k, d, s.net) && GotHome(k, s.got) && GatesHome(k, d, s.gates, s.live)
  {
    forall g: GateId, id: uint32 | g in s.gates && id in s.gates[g].cbMap ensures EntryHome(k, d, s.live, g, id, s.gates[g].cbMap[id]) {
      assert EntryHome(s.h, CallersOf(s), s.live, g, id, s.gates[g].cbMap[id]);
    }
    forall m | m in s.net && m.BackMsg? ensures BackHome(k, d, m) {
      assert BackHome(s.h, CallersOf(s), m);
    }
  }

  lemma NewEntryHome(h: History, c: Callers, gates: map<GateId, Gate>, live: map<ConnKey, nat>, g: GateId, gid: uint32, id: uint32, info: CbInfo)
    requires GatesHome(h, c, gates, live) && EntryHome(h, c, live, g, id, info)
    ensures GatesHome(h, c, gates[g := Gate(gid, GateOf(gates, g).cbMap[id := info])], live)
  {
    var after := gates[g := Gate(gid, GateOf(gates, g).cbMap[id := info])];
    forall f: GateId, x: uint32 | f in after && x in after[f].cbMap ensures EntryHome(h, c, live, f, x, after[f].cbMap[x]) {
      if f != g || x != id {
        assert EntryHome(h, c, live, f, x, gates[f].cbMap[x]);
      }
    }
  }

  lemma FewerEntriesHome(h: History, c: Callers, gates: map<GateId, Gate>, live: map<ConnKey, nat>, g: GateId, gate: Gate)
    requires GatesHome(h, c, gates, live)
    requires forall id :: id in gate.cbMap ==> id in GateOf(gates, g).cbMap && gate.cbMap[id] == GateOf(gates, g).cbMap[id]
    ensures GatesHome(h, c, gates[g := gate], live)
  {
    var after := gates[g := gate];
    forall f: GateId, x: uint32 | f in after && x in after[f].cbMap ensures EntryHome(h, c, live, f, x, after[f].cbMap[x]) {
      assert EntryHome(h, c, live, f, x, gates[f].cbMap[x]);
    }
  }

  lemma OpenKeepsHome(s: State, g: GateId, connID: ConnId, p: Proc)
    requires HomeInv(s) && Careful(s, Open(g, connID, p))
    ensures HomeInv(Do(s, Open(g, connID, p)))
  {
    var t, c := Do(s, Open(g, connID, p)), CallersOf(s);
    assert Extends(s.h, t.h);
    HomeGrows(s, t.h, c);
    forall f: GateId, x: uint32 | f in t.gates && x in t.gates[f].cbMap ensures EntryHome(t.h, c, t.live, f, x, t.gates[f].cbMap[x]) {
      var info := s.gates[f].cbMap[x];
      assert EntryHome(t.h, c, s.live, f, x, info);
      if f == g && info.connID == connID {
        assert IsOf(s.h, g, x, p) || Past(c, p, info.rid);
        assert t.h.conns[t.live[ConnKey(f, info.connID)]].owner == p;
      }
    }
  }

  lemma ShutKeepsHome(s: State, g: GateId, connID: ConnId)
    requires HomeInv(s)
    ensures HomeInv(Do(s, Shut(g, connID)))
  {
    var t, c := Do(s, Shut(g, connID)), CallersOf(s);
    forall f: GateId, x: uint32 | f in t.gates && x in t.gates[f].cbMap ensures EntryHome(t.h, c, t.live, f, x, t.gates[f].cbMap[x]) {
      assert EntryHome(s.h, c, s.live, f, x, s.gates[f].cbMap[x]);
    }
  }

  lemma CallKeepsHome(s: State, conn: nat, wantsReply: bool)
    requires HomeInv(s) && Enabled(s, MakeCall(conn, wantsReply))
    ensures HomeInv(OnCall(s, conn, wantsReply))
  {
    var t := OnCall(s, conn, wantsReply);
    assert Extends(s.h, t.h);
    assert Onward(CallersOf(s), CallersOf(t));
    HomeGrows(s, t.h, CallersOf(t));
  }

  lemma PassedKeepsHome(s: State, m: Msg)
    requires Inv(s) && HomeInv(s) && Enabled(s, GateRoutes(m, true)) && Careful(s, GateRoutes(m, true)) && m.rid != 0
    ensures HomeInv(OnRoute(s, m, true))
  {
    var t, c := OnRoute(s, m, true), s.h.conns[m.conn];
    PassedKeepsGates(s, m);
    HomeGrows(s, t.h, CallersOf(s));
    assert MsgOk(s.h, m);
    var id := Gid.Next(GateOf(s.gates, c.gate).gid);
    assert IsOf(t.h, c.gate, id, c.owner);
    NewEntryHome(t.h, CallersOf(s), s.gates, s.live, c.gate, id, id, CbInfo(m.rid, c.connID));
  }

  lemma RouteKeepsHome(s: State, m: Msg, target: bool)
    requires Inv(s) && HomeInv(s) && Enabled(s, GateRoutes(m, target)) && Careful(s, GateRoutes(m, target))
    ensures HomeInv(OnRoute(s, m, target))
  {
    assert MsgOk(s.h, m);
    if target && m.rid != 0 {
      PassedKeepsHome(s, m);
    } else if target {
      var g := s.h.conns[m.conn].gate;
      FewerEntriesHome(s.h, CallersOf(s), s.gates, s.live, g, GateOf(s.gates, g));
    }
  }

  lemma ReturnKeepsHome(s: State, m: Msg)
    requires Inv(s) && HomeInv(s) && Enabled(s, GateReturns(m))
    ensures HomeInv(OnReturn(s, m))
  {
    var (g, action) := Return(GateOf(s.gates, m.gate), m.grid, LiveAt(s.live, m.gate));
    assert MsgOk(s.h, m);
    FewerEntriesHome(s.h, CallersOf(s), s.gates, s.live, m.gate, g);
    if action.Forwarded? {
      assert EntryHome(s.h, CallersOf(s), s.live, m.gate, m.grid, action.info);
    }
  }

  lemma CallbackKeepsHome(s: State, k: CallerKey)
    requires HomeInv(s) && k in s.waiting
    ensures HomeInv(RunCallback(s, k))
  {
    HomeGrows(s, s.h, CallersOf(RunCallback(s, k)));
  }

  lemma BackKeepsHome(s: State, m: Msg)
    requires HomeInv(s) && Enabled(s, CallerReceives(m))
    ensures HomeInv(OnBack(s, m))
  {
    assert BackHome(s.h, CallersOf(s), m);
    var k := CallerKey(s.h.conns[m.conn].owner, m.rid);
    if k in s.waiting {
      CallbackKeepsHome(s, k);
    }
  }

  lemma OthersKeepHome(s: State, e: Event)
    requires HomeInv(s) && Enabled(s, e) && (e.ServiceReads? || e.HandlerRuns? || e.ServiceReplies?)
    ensures HomeInv(Do(s, e))
  {
    assert Extends(s.h, Do(s, e).h);
    HomeGrows(s, Do(s, e).h, CallersOf(s));
  }

  /** Every careful step keeps it: what is under way leads back to the process that called, or runs
      nothing where it leads. */
  lemma StepKeepsHome(s: State, e: Event)
    requires Inv(s) && HomeInv(s) && Enabled(s, e) && Careful(s, e)
    ensures HomeInv(Do(s, e))
  {
    match e
    case Open(g, connID, p) => OpenKeepsHome(s, g, connID, p);
    case Shut(g, connID) => ShutKeepsHome(s, g, connID);
    case MakeCall(conn, wantsReply) => CallKeepsHome(s, conn, wantsReply);
    case GateRoutes(m, target) => RouteKeepsHome(s, m, target);
    case GateReturns(m) => ReturnKeepsHome(s, m);
    case GateExpires(gate, grid) =>
      FewerEntriesHome(s.h, CallersOf(s), s.gates, s.live, gate, Expire(GateOf(s.gates, gate), grid));
    case CallerReceives(m) => BackKeepsHome(s, m);
    case CallerTimesOut(p, rid) =>
      if CallerKey(p, rid) in s.waiting {
        CallbackKeepsHome(s, CallerKey(p, rid));
      }
    case _ => OthersKeepHome(s, e);
  }

  lemma {:induction false} RunKeepsHome(es: seq<Event>)
    requires CarefulRun(es)
    ensures HomeInv(Run(es).value)
    decreases |es|
  {
    if es == [] {
    } else {
      var n := |es| - 1;
      RunKeepsHome(es[..n]);
      RunKeepsInv(es[..n]);
      StepKeepsHome(Run(es[..n]).value, es[n]);
    }
  }

  /** End-to-end correlation: in every careful run, so in particular where no connection id passes to
      another process while a call is pending under it, every callback that runs with an answer runs
      with the reply made for exactly the call it was given to. */
  lemma EndToEndCorrelation(es: seq<Event>, x: Got)
    requires CarefulRun(es) && x in Run(es).value.got
    ensures x.ans.call == x.call
  {
    RunKeepsHome(es);
    CorrelationIff(es, x);
  }

  // ---- The condition is exact ----

  /** A callback ran with the reply to another call. */
  ghost predicate MixedUp(s: State) {
    exists x :: x in s.got && x.call != x.ans.call
  }

  /** A step that opens no connection and takes in no request. */
  predicate Quiet(e: Event) {
    !e.Open? && !e.GateRoutes?
  }

  ghost predicate AllQuiet(fs: seq<Event>) {
    forall i :: 0 <= i < |fs| ==> Quiet(fs[i])
  }

  ghost predicate LeadsToMixUp(es: seq<Event>, fs: seq<Event>) {
    AllQuiet(fs) && Run(es + fs).Some? && MixedUp(Run(es + fs).value)
  }

  lemma {:induction false} QuietStaysCareful(es: seq<Event>, fs: seq<Event>)
    requires CarefulRun(es) && Run(es + fs).Some? && AllQuiet(fs)
    ensures CarefulRun(es + fs)
    decreases |fs|
  {
    if fs == [] {
      assert es + fs == es;
    } else {
      var n := |fs| - 1;
      assert (es + fs)[..|es + fs| - 1] == es + fs[..n];
      QuietStaysCareful(es, fs[..n]);
    }
  }

  /** Every GRid was passed on in a message. */
  ghost predicate PassedSent(h: History, net: set<Msg>) {
    forall k :: k in h.passed ==> CallMsg(k.gate, k.grid, h.passed[k]) in net
  }

  lemma {:induction false} RunSendsPassed(es: seq<Event>)
    requires Run(es).Some?
    ensures PassedSent(Run(es).value.h, Run(es).value.net)
    decreases |es|
  {
    if es == [] {
    } else {
      RunSendsPassed(es[..|es| - 1]);
      StepSendsPassed(Run(es[..|es| - 1]).value, es[|es| - 1]);
    }
  }

  lemma StepSendsPassed(s: State, e: Event)
    requires Enabled(s, e) && PassedSent(s.h, s.net)
    ensures PassedSent(Do(s, e).h, Do(s, e).net)
  {
    if e.GateRoutes? {
      RouteSendsPassed(s, e.m, e.target);
    } else {
      assert Do(s, e).h.passed == s.h.passed && s.net <= Do(s, e).net;
    }
  }

  lemma RouteSendsPassed(s: State, m: Msg, target: bool)
    requires Enabled(s, GateRoutes(m, target)) && PassedSent(s.h, s.net)
    ensures PassedSent(OnRoute(s, m, target).h, OnRoute(s, m, target).net)
  {
  }

  /** An entry whose id is in use by a process that did not make its call. */
  ghost predicate Astray(s: State, g: GateId, id: uint32) {
    && g in s.gates && id in s.gates[g].cbMap
    && var k := ConnKey(g, s.gates[g].cbMap[id].connID);
       k in s.live && s.live[k] < |s.h.conns| && !IsOf(s.h, g, id, s.h.conns[s.live[k]].owner)
  }

  /** The process that has the id now. */
  ghost function Holder(s: State, g: GateId, id: uint32): Proc
    requires Astray(s, g, id)
  {
    s.h.conns[s.live[ConnKey(g, s.gates[g].cbMap[id].connID)]].owner
  }

  ghost predicate CanMixUp(es: seq<Event>) {
    exists fs :: LeadsToMixUp(es, fs)
  }

  lemma StepThenMixUp(es: seq<Event>, e: Event)
    requires Quiet(e) && CanMixUp(es + [e])
    ensures CanMixUp(es)
  {
    var fs :| LeadsToMixUp(es + [e], fs);
    assert es + [e] + fs == es + ([e] + fs);
    assert LeadsToMixUp(es, [e] + fs);
  }

  lemma NowMixedUp(es: seq<Event>)
    requires Run(es).Some? && MixedUp(Run(es).value)
    ensures CanMixUp(es)
  {
    assert es + [] == es;
    assert LeadsToMixUp(es, []);
  }

  /** A response under way to a process that waits under its rid but for another call. */
  lemma BackMixesUp(es: seq<Event>, s: State, m: Msg)
    requires Run(es) == Some(s) && m in s.net && m.BackMsg? && m.conn < |s.h.conns| && !Home(s.h, m.conn, m.ans.call)
    requires CallerKey(s.h.conns[m.conn].owner, m.rid) in s.waiting
    ensures CanMixUp(es)
  {
    RunKeepsInv(es);
    WrongCallback(s, m);
    var t := Extend(es, s, CallerReceives(m));
    NowMixedUp(es + [CallerReceives(m)]);
    StepThenMixUp(es, CallerReceives(m));
  }

  lemma WrongCallback(s: State, m: Msg)
    requires Inv(s) && m in s.net && m.BackMsg? && m.conn < |s.h.conns| && !Home(s.h, m.conn, m.ans.call)
    requires CallerKey(s.h.conns[m.conn].owner, m.rid) in s.waiting
    ensures MixedUp(OnBack(s, m))
  {
    assert MsgOk(s.h, m);
    var k := CallerKey(s.h.conns[m.conn].owner, m.rid);
    var x := Got(s.waiting[k], m.ans, m.conn);
    assert x in OnBack(s, m).got && s.h.calls[s.waiting[k]].proc == k.proc;
  }

  /** An astray entry under whose rid the new holder of its id waits: the service's answer runs the
      wrong callback. */
  lemma AstrayMixesUp(es: seq<Event>, s: State, g: GateId, id: uint32)
    requires Run(es) == Some(s) && Astray(s, g, id)
    requires CallerKey(Holder(s, g, id), s.gates[g].cbMap[id].rid) in s.waiting
    ensures CanMixUp(es)
  {
    RunKeepsInv(es);
    RunSendsPassed(es);
    var e1, e2, t, ans := AnsweredAstray(s, g, id);
    var s1 := Extend(es, s, e1);
    var s2 := Extend(es + [e1], s1, e2);
    ReturnMixesUp(es + [e1] + [e2], t, g, id, ans);
    StepThenMixUp(es + [e1], e2);
    StepThenMixUp(es, e1);
  }

  lemma AnsweredAstray(s: State, g: GateId, id: uint32) returns (e1: Event, e2: Event, t: State, ans: Answer)
    requires Inv(s) && PassedSent(s.h, s.net) && Astray(s, g, id)
    ensures Quiet(e1) && Quiet(e2) && Enabled(s, e1) && Enabled(Do(s, e1), e2) && t == Do(Do(s, e1), e2)
    ensures Astray(t, g, id) && Holder(t, g, id) == Holder(s, g, id) && t.gates == s.gates && t.waiting == s.waiting
    ensures RspMsg(g, id, ans) in t.net && GridKey(g, id) in t.h.passed && t.h.passed[GridKey(g, id)] == ans.call
  {
    assert Remembers(s.h, g, id, s.gates[g].cbMap[id]);
    var msg := CallMsg(g, id, s.h.passed[GridKey(g, id)]);
    Answers(s, msg);
    e1, e2 := ServiceReads({msg}), ServiceReplies(TaskOf(|s.errs|, msg), true);
    ans := AnswerOf(Do(s, e1), e2.task, true);
    t := Do(Do(s, e1), e2);
  }

  /** A service reads one request and answers it, which changes nothing at gates and callers. */
  lemma Answers(s: State, msg: Msg)
    requires msg in s.net && msg.CallMsg? && msg.grid != 0
    ensures Enabled(s, ServiceReads({msg}))
    ensures var s1, task := Do(s, ServiceReads({msg})), TaskOf(|s.errs|, msg);
      && Enabled(s1, ServiceReplies(task, true))
      && var s2 := Do(s1, ServiceReplies(task, true));
         && RspMsg(msg.gate, msg.grid, AnswerOf(s1, task, true)) in s2.net
         && s2.gates == s.gates && s2.live == s.live && s2.gids == s.gids && s2.waiting == s.waiting
         && s2.h.passed == s.h.passed && s2.h.calls == s.h.calls && s2.h.conns == s.h.conns
  {
    var s1, task := OnRead(s, {msg}), TaskOf(|s.errs|, msg);
    assert msg in {msg};
    assert task in s1.tasks;
  }

  lemma ReturnMixesUp(es: seq<Event>, s: State, g: GateId, id: uint32, ans: Answer)
    requires Run(es) == Some(s) && Astray(s, g, id)
    requires GridKey(g, id) in s.h.passed && s.h.passed[GridKey(g, id)] == ans.call
    requires CallerKey(Holder(s, g, id), s.gates[g].cbMap[id].rid) in s.waiting && RspMsg(g, id, ans) in s.net
    ensures CanMixUp(es)
  {
    var e := GateReturns(RspMsg(g, id, ans));
    var back := ReturnedAstray(s, g, id, ans);
    var t := Extend(es, s, e);
    BackMixesUp(es + [e], t, back);
    StepThenMixUp(es, e);
  }

  lemma ReturnedAstray(s: State, g: GateId, id: uint32, ans: Answer) returns (back: Msg)
    requires Astray(s, g, id) && GridKey(g, id) in s.h.passed && s.h.passed[GridKey(g, id)] == ans.call
    ensures var t := OnReturn(s, RspMsg(g, id, ans));
      && t.h == s.h && t.waiting == s.waiting
      && back in t.net && back.BackMsg? && back.conn < |s.h.conns| && !Home(s.h, back.conn, back.ans.call)
      && s.h.conns[back.conn].owner == Holder(s, g, id) && back.rid == s.gates[g].cbMap[id].rid
  {
    var info := s.gates[g].cbMap[id];
    assert info.connID in LiveAt(s.live, g);
    back := BackMsg(s.live[ConnKey(g, info.connID)], info.rid, ans);
  }

  /** And one under a rid that the new holder has still to use: it goes on calling until it waits
      under that rid. */
  lemma {:induction false} AstrayComesToMixUp(es: seq<Event>, s: State, g: GateId, id: uint32, p: Proc, rid: uint32)
    requires Run(es) == Some(s) && Astray(s, g, id) && Holder(s, g, id) == p && s.gates[g].cbMap[id].rid == rid
    requires !Past(CallersOf(s), p, rid)
    ensures CanMixUp(es)
    decreases rid - GidOf(s.gids, p)
  {
    if CallerKey(p, rid) in s.waiting {
      AstrayMixesUp(es, s, g, id);
    } else {
      var e, t := HolderCalls(es, s, g, id);
      AstrayComesToMixUp(es + [e], t, g, id, p, rid);
      StepThenMixUp(es, e);
    }
  }

  lemma HolderCalls(es: seq<Event>, s: State, g: GateId, id: uint32) returns (e: Event, t: State)
    requires Run(es) == Some(s) && Astray(s, g, id) && GidOf(s.gids, Holder(s, g, id)) < s.gates[g].cbMap[id].rid
    ensures Quiet(e) && Run(es + [e]) == Some(t)
    ensures Astray(t, g, id) && Holder(t, g, id) == Holder(s, g, id) && t.gates == s.gates
    ensures var p := Holder(s, g, id); GidOf(t.gids, p) == GidOf(s.gids, p) + 1 && !Past(CallersOf(t), p, s.gates[g].cbMap[id].rid)
  {
    RunKeepsInv(es);
    var conn := s.live[ConnKey(g, s.gates[g].cbMap[id].connID)];
    e := MakeCall(conn, true);
    CallKeepsAstray(s, g, id, conn);
    CallComesNearer(s, conn, s.gates[g].cbMap[id].rid);
    t := Extend(es, s, e);
  }

  lemma CallKeepsAstray(s: State, g: GateId, id: uint32, conn: nat)
    requires Inv(s) && Astray(s, g, id) && Enabled(s, MakeCall(conn, true)) && s.h.conns[conn].owner == Holder(s, g, id)
    ensures var t := OnCall(s, conn, true);
      && Astray(t, g, id) && Holder(t, g, id) == Holder(s, g, id) && t.gates == s.gates
  {
    assert Remembers(s.h, g, id, s.gates[g].cbMap[id]);
  }

  /** A rid above those used is not past after the next call either. */
  lemma CallComesNearer(s: State, conn: nat, rid: uint32)
    requires Enabled(s, MakeCall(conn, true)) && GidOf(s.gids, s.h.conns[conn].owner) < rid
    ensures var t, p := OnCall(s, conn, true), s.h.conns[conn].owner;
      GidOf(t.gids, p) == GidOf(s.gids, p) + 1 && !Past(CallersOf(t), p, rid)
  {
    var t, p := OnCall(s, conn, true), s.h.conns[conn].owner;
    assert CallerKey(p, GidOf(t.gids, p)) in t.waiting;
  }

  lemma CarelessGoesAstray(s: State, e: Event) returns (g: GateId, id: uint32)
    requires Inv(s) && Enabled(s, e) && !Careful(s, e)
    ensures var t := Do(s, e);
      Astray(t, g, id) && !Past(CallersOf(t), Holder(t, g, id), t.gates[g].cbMap[id].rid)
  {
    var t := Do(s, e);
    match e
    case Open(gate, connID, p) =>
      g := gate;
      var cbMap := GateOf(s.gates, g).cbMap;
      id :| id in cbMap && cbMap[id].connID == connID && !IsOf(s.h, g, id, p) && !Past(CallersOf(s), p, cbMap[id].rid);
      assert t.h.conns[t.live[ConnKey(g, connID)]].owner == p;
    case GateRoutes(m, target) =>
      assert MsgOk(s.h, m);
      var c := s.h.conns[m.conn];
      g, id := c.gate, Gid.Next(GateOf(s.gates, c.gate).gid);
      assert t.gates[g].cbMap[id] == CbInfo(m.rid, c.connID);
      assert IsOf(t.h, g, id, c.owner);
  }

  /** Careful is exact. After any careful run, a step is careful exactly if no further run, by steps
      that open no connection and take in no request, comes to a callback that runs with the reply to
      another call. */
  lemma CarefulIff(es: seq<Event>, s: State, e: Event)
    requires CarefulRun(es) && Run(es) == Some(s) && Enabled(s, e)
    ensures Careful(s, e) <==> !exists fs :: LeadsToMixUp(es + [e], fs)
  {
    RunKeepsInv(es);
    var t := Extend(es, s, e);
    if Careful(s, e) {
      assert (es + [e])[..|es|] == es;
      forall fs ensures !LeadsToMixUp(es + [e], fs) {
        if AllQuiet(fs) && Run(es + [e] + fs).Some? {
          QuietStaysCareful(es + [e], fs);
          NeverMixedUp(es + [e] + fs);
        }
      }
    } else {
      var g, id := CarelessGoesAstray(s, e);
      AstrayComesToMixUp(es + [e], t, g, id, Holder(t, g, id), t.gates[g].cbMap[id].rid);
    }
  }

  lemma NeverMixedUp(es: seq<Event>)
    requires CarefulRun(es)
    ensures !MixedUp(Run(es).value)
  {
    forall x | x in Run(es).value.got ensures x.call == x.ans.call {
      EndToEndCorrelation(es, x);
    }
  }

  // ---- A run in which an id passes on while a call is pending under it ----

  const ID := "1.1.1.1:5"

  ghost predicate Crossed(s: State) {
    && GateOf(s.gates, "gate") == Gate(1, map[1 := CbInfo(1, ID)])
    && s.h.conns == [Conn("gate", ID, "p"), Conn("gate", ID, "q")]
    && s.live == map[ConnKey("gate", ID) := 1]
    && CallerKey("q", 1) in s.waiting && s.waiting[CallerKey("q", 1)] == 1
  }

  /** p asks over a connection to the gate. */
  lemma FirstAsks() returns (es: seq<Event>, s: State)
    ensures Run(es) == Some(s) && CallMsg("gate", 1, 0) in s.net && s.errs == []
    ensures GateOf(s.gates, "gate") == Gate(1, map[1 := CbInfo(1, ID)])
    ensures s.h.conns == [Conn("gate", ID, "p")] && s.live == map[ConnKey("gate", ID) := 0]
    ensures |s.h.calls| == 1 && GidOf(s.gids, "q") == 0
  {
    var s1 := Extend([], INIT, Open("gate", ID, "p"));
    es := [] + [Open("gate", ID, "p")];
    var s2 := Extend(es, s1, MakeCall(0, true));
    es := es + [MakeCall(0, true)];
    s := Extend(es, s2, GateRoutes(RouteMsg(0, 1, 0), true));
    es := es + [GateRoutes(RouteMsg(0, 1, 0), true)];
  }

  /** Then q opens one under the same id and asks too. */
  lemma CrossedRun() returns (es: seq<Event>, s: State)
    ensures Run(es) == Some(s) && Crossed(s) && CallMsg("gate", 1, 0) in s.net && s.errs == []
  {
    var s3: State;
    es, s3 := FirstAsks();
    var s4 := Extend(es, s3, Open("gate", ID, "q"));
    es := es + [Open("gate", ID, "q")];
    s := Extend(es, s4, MakeCall(1, true));
    es := es + [MakeCall(1, true)];
  }

  /** The service answers p's call. */
  lemma CrossedAnswer() returns (es: seq<Event>, s: State, ans: Answer)
    ensures Run(es) == Some(s) && Crossed(s) && RspMsg("gate", 1, ans) in s.net && ans.call == 0
  {
    var s0: State;
    es, s0 := CrossedRun();
    var call, task := CallMsg("gate", 1, 0), Task(0, "gate", 1, 0, false);
    var t := Extend(es, s0, ServiceReads({call}));
    assert task == TaskOf(0, call);
    es := es + [ServiceReads({call})];
    ans := AnswerOf(t, task, false);
    s := Extend(es, t, ServiceReplies(task, false));
    es := es + [ServiceReplies(task, false)];
  }

  lemma CrossedReturn(s: State, ans: Answer)
    requires Crossed(s) && RspMsg("gate", 1, ans) in s.net
    ensures BackMsg(1, 1, ans) in OnReturn(s, RspMsg("gate", 1, ans)).net
  {
    assert ConnKey("gate", ID) in s.live;
    assert ID in LiveAt(s.live, "gate");
  }

  /** Where an id passes on while a response is under way, the callback of another process's call
      can run with that response. */
  lemma ReusedConnectionMisdelivers() returns (es: seq<Event>, x: Got)
    ensures Run(es).Some? && x in Run(es).value.got && x.call != x.ans.call
    ensures !CarefulRun(es)
  {
    var s: State, ans: Answer;
    es, s, ans := CrossedAnswer();
    CrossedReturn(s, ans);
    var t := Extend(es, s, GateReturns(RspMsg("gate", 1, ans)));
    es := es + [GateReturns(RspMsg("gate", 1, ans))];
    var u := Extend(es, t, CallerReceives(BackMsg(1, 1, ans)));
    es := es + [CallerReceives(BackMsg(1, 1, ans))];
    x := Got(1, ans, 1);
    if CarefulRun(es) {
      EndToEndCorrelation(es, x);
    }
  }

  // ---- Whose error text an answer carries ----

  /** A task that is still there has not been answered, and is there once. */
  ghost predicate Unanswered(tasks: set<Task>, net: set<Msg>) {
    && (forall t, m :: t in tasks && m in net && m.RspMsg? ==>
          !(m.gate == t.gate && m.grid == t.grid && m.ans.call == t.call && m.ans.sess == Some(t.sess)))
    && (forall t :: t in tasks && t.ran ==> t.(ran := false) !in tasks)
  }

  lemma StepKeepsUnanswered(s: State, e: Event)
    requires Inv(s) && Enabled(s, e) && Unanswered(s.tasks, s.net)
    ensures Unanswered(Do(s, e).tasks, Do(s, e).net)
  {
    match e
    case ServiceReads(batch) => ReadKeepsUnanswered(s, batch);
    case HandlerRuns(task, setsErr) => HandlerKeepsUnanswered(s, task, setsErr);
    case ServiceReplies(task, own) => ReplyKeepsUnanswered(s, task, own);
    case _ => StepElsewhere(s, e);
  }

  predicate AtService(e: Event) {
    e.ServiceReads? || e.HandlerRuns? || e.ServiceReplies?
  }

  /** Gates and callers neither touch tasks nor answer for a service. */
  lemma StepElsewhere(s: State, e: Event)
    requires Enabled(s, e) && !AtService(e)
    ensures var t := Do(s, e);
      t.tasks == s.tasks && t.errs == s.errs && forall m :: m in t.net && m.RspMsg? ==> m in s.net
  {
    match e
    case GateRoutes(m, target) => RouteElsewhere(s, m, target);
    case GateReturns(m) => ReturnElsewhere(s, m);
    case _ =>
  }

  lemma RouteElsewhere(s: State, m: Msg, target: bool)
    requires m.RouteMsg? && m.conn < |s.h.conns|
    ensures var t := OnRoute(s, m, target);
      t.tasks == s.tasks && t.errs == s.errs && forall m :: m in t.net && m.RspMsg? ==> m in s.net
  {
  }

  lemma ReturnElsewhere(s: State, m: Msg)
    requires m.RspMsg?
    ensures var t := OnReturn(s, m);
      t.tasks == s.tasks && t.errs == s.errs && forall m :: m in t.net && m.RspMsg? ==> m in s.net
  {
  }

  lemma HandlerKeepsUnanswered(s: State, task: Task, setsErr: bool)
    requires Enabled(s, HandlerRuns(task, setsErr)) && Unanswered(s.tasks, s.net)
    ensures var t := Do(s, HandlerRuns(task, setsErr)); Unanswered(t.tasks, t.net)
  {
  }

  lemma ReplyKeepsUnanswered(s: State, task: Task, own: bool)
    requires Enabled(s, ServiceReplies(task, own)) && Unanswered(s.tasks, s.net)
    ensures var t := Do(s, ServiceReplies(task, own)); Unanswered(t.tasks, t.net)
  {
    var t := Do(s, ServiceReplies(task, own));
    assert task !in t.tasks && task.(ran := !task.ran) !in t.tasks;
  }

  lemma ReadKeepsUnanswered(s: State, batch: set<Msg>)
    requires Inv(s) && Enabled(s, ServiceReads(batch)) && Unanswered(s.tasks, s.net)
    ensures Unanswered(OnRead(s, batch).tasks, s.net)
  {
    var t := OnRead(s, batch);
    forall x | x in t.tasks && x !in s.tasks ensures x.sess == |s.errs| && !x.ran {
    }
    forall x, m | x in t.tasks && m in s.net && m.RspMsg?
      ensures !(m.gate == x.gate && m.grid == x.grid && m.ans.call == x.call && m.ans.sess == Some(x.sess))
    {
      assert MsgOk(s.h, m);
    }
    forall x | x in t.tasks && x.ran ensures x.(ran := false) !in t.tasks {
      assert TaskOk(s.h, x);
    }
  }

  lemma {:induction false} RunKeepsUnanswered(es: seq<Event>)
    requires Run(es).Some?
    ensures Unanswered(Run(es).value.tasks, Run(es).value.net)
    decreases |es|
  {
    if es == [] {
    } else {
      var n := |es| - 1;
      RunKeepsUnanswered(es[..n]);
      RunKeepsInv(es[..n]);
      StepKeepsUnanswered(Run(es[..n]).value, es[n]);
    }
  }

  /** An answer to that request is under way with the error text of another call. */
  ghost predicate CarriesForeign(net: set<Msg>, b: Task) {
    exists m :: m in net && ForeignAnswer(m, b)
  }

  predicate ForeignAnswer(m: Msg, b: Task) {
    && m.RspMsg? && m.gate == b.gate && m.grid == b.grid && m.ans.call == b.call && m.ans.sess == Some(b.sess)
    && m.ans.err.Some? && m.ans.err.value != b.call
  }

  /** The session holds another call's text, or another call's handler is still to run in it. */
  ghost predicate Exposed(s: State, b: Task)
    requires b.sess < |s.errs|
  {
    || (s.errs[b.sess].Some? && s.errs[b.sess].value != b.call)
    || (exists a :: a in s.tasks && a.sess == b.sess && a.call != b.call && !a.ran)
  }

  lemma StepKeepsSheltered(s: State, e: Event, b: Task)
    requires Inv(s) && Enabled(s, e) && b.sess < |s.errs| && !Exposed(s, b) && !CarriesForeign(s.net, b)
    ensures var t := Do(s, e); b.sess < |t.errs| && !Exposed(t, b) && !CarriesForeign(t.net, b)
  {
    match e
    case ServiceReads(batch) => ReadKeepsSheltered(s, batch, b);
    case HandlerRuns(task, setsErr) => HandlerKeepsSheltered(s, task, setsErr, b);
    case ServiceReplies(task, own) => ReplyKeepsSheltered(s, task, own, b);
    case _ => StepElsewhere(s, e);
  }

  lemma ReadKeepsSheltered(s: State, batch: set<Msg>, b: Task)
    requires Enabled(s, ServiceReads(batch)) && b.sess < |s.errs| && !Exposed(s, b)
    ensures !Exposed(OnRead(s, batch), b)
  {
    assert forall x :: x in OnRead(s, batch).tasks && x !in s.tasks ==> x.sess == |s.errs|;
  }

  lemma HandlerKeepsSheltered(s: State, task: Task, setsErr: bool, b: Task)
    requires Enabled(s, HandlerRuns(task, setsErr)) && b.sess < |s.errs| && !Exposed(s, b)
    ensures var t := Do(s, HandlerRuns(task, setsErr)); t.net == s.net && b.sess < |t.errs| && !Exposed(t, b)
  {
    assert task.sess == b.sess ==> task.call == b.call;
  }

  lemma ReplyKeepsSheltered(s: State, task: Task, own: bool, b: Task)
    requires Enabled(s, ServiceReplies(task, own)) && b.sess < |s.errs| && !Exposed(s, b) && !CarriesForeign(s.net, b)
    ensures var t := Do(s, ServiceReplies(task, own)); t.errs == s.errs && !Exposed(t, b) && !CarriesForeign(t.net, b)
  {
    var t := Do(s, ServiceReplies(task, own));
    forall m | m in t.net ensures !ForeignAnswer(m, b) {
      assert m in s.net || m == RspMsg(task.gate, task.grid, AnswerOf(s, task, own));
    }
  }

  lemma {:induction false} ShelteredStays(es: seq<Event>, s: State, all: seq<Event>, b: Task)
    requires es <= all && Run(es) == Some(s) && Run(all).Some?
    requires b.sess < |s.errs| && !Exposed(s, b) && !CarriesForeign(s.net, b)
    ensures var t := Run(all).value; b.sess < |t.errs| && !Exposed(t, b) && !CarriesForeign(t.net, b)
    decreases |all|
  {
    if all == es {
    } else {
      var before := all[..|all| - 1];
      ShelteredStays(es, s, before, b);
      RunKeepsInv(before);
      StepKeepsSheltered(Run(before).value, all[|all| - 1], b);
    }
  }

  ghost predicate CanCarryForeign(es: seq<Event>, b: Task) {
    exists fs :: Run(es + fs).Some? && CarriesForeign(Run(es + fs).value.net, b)
  }

  lemma StepThenForeign(es: seq<Event>, e: Event, b: Task)
    requires CanCarryForeign(es + [e], b)
    ensures CanCarryForeign(es, b)
  {
    var fs :| Run(es + [e] + fs).Some? && CarriesForeign(Run(es + [e] + fs).value.net, b);
    assert es + [e] + fs == es + ([e] + fs);
  }

  /** A task whose handler ran answers with what the session holds. */
  lemma RanCarries(es: seq<Event>, s: State, b: Task, asked: Task)
    requires Run(es) == Some(s) && b in s.tasks && b.ran && b.grid != 0 && b.sess < |s.errs|
    requires s.errs[b.sess].Some? && s.errs[b.sess].value != b.call && (asked == b || asked == b.(ran := false))
    ensures CanCarryForeign(es, asked)
  {
    var e := ServiceReplies(b, false);
    var m := RspMsg(b.gate, b.grid, AnswerOf(s, b, false));
    var t := Extend(es, s, e);
    assert m in t.net && ForeignAnswer(m, asked);
    assert es + [e] + [] == es + [e];
    StepThenForeign(es, e, asked);
  }

  lemma HeldCarries(es: seq<Event>, s: State, b: Task)
    requires Run(es) == Some(s) && b in s.tasks && b.grid != 0 && b.sess < |s.errs|
    requires s.errs[b.sess].Some? && s.errs[b.sess].value != b.call
    ensures CanCarryForeign(es, b)
  {
    if b.ran {
      RanCarries(es, s, b, b);
    } else {
      var e := HandlerRuns(b, false);
      var t := Extend(es, s, e);
      RanCarries(es + [e], t, b.(ran := true), b);
      StepThenForeign(es, e, b);
    }
  }

  /** At every point of every run, the answer to a task that is still to come can carry the error text
      of another call exactly if the session holds one already, or the handler of another call of the
      same decode call is still to run. */
  lemma ForeignTextIff(es: seq<Event>, s: State, b: Task)
    requires Run(es) == Some(s) && b in s.tasks && b.grid != 0
    ensures b.sess < |s.errs|
    ensures CanCarryForeign(es, b) <==> Exposed(s, b)
  {
    RunKeepsInv(es);
    RunKeepsUnanswered(es);
    assert TaskOk(s.h, b);
    if !Exposed(s, b) {
      assert !CarriesForeign(s.net, b);
      forall fs | Run(es + fs).Some? ensures !CarriesForeign(Run(es + fs).value.net, b) {
        ShelteredStays(es, s, es + fs, b);
      }
    } else if s.errs[b.sess].Some? && s.errs[b.sess].value != b.call {
      HeldCarries(es, s, b);
    } else {
      var a :| a in s.tasks && a.sess == b.sess && a.call != b.call && !a.ran;
      OtherRunsFirst(es, s, a, b);
    }
  }

  lemma OtherRunsFirst(es: seq<Event>, s: State, a: Task, b: Task)
    requires Run(es) == Some(s) && a in s.tasks && b in s.tasks && b.grid != 0
    requires a.sess == b.sess < |s.errs| && a.call != b.call && !a.ran
    ensures CanCarryForeign(es, b)
  {
    var e := HandlerRuns(a, true);
    var t := Extend(es, s, e);
    HeldCarries(es + [e], t, b);
    StepThenForeign(es, e, b);
  }

  lemma Extend(es: seq<Event>, s: State, e: Event) returns (t: State)
    requires Run(es) == Some(s) && Enabled(s, e)
    ensures Run(es + [e]) == Some(t) && t == Do(s, e)
  {
    assert (es + [e])[..|es|] == es;
    t := Do(s, e);
  }
}
