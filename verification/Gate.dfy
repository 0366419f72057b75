/** The routing handlers of the gate, ms_gate/src/rpc_handler.go: a request with a rid is passed on
    under a fresh GRid, and a response under that GRid goes back under the rid. */
module GateRouting {
  import opened Options
  import opened MachineInts
  import Gid

  type ConnId = string

  /** What the gate remembers of a routed request. */
  datatype CbInfo = CbInfo(rid: uint32, connID: ConnId)

  /** The id counter and the callback map. */
  datatype Gate = Gate(gid: uint32, cbMap: map<uint32, CbInfo>)

  const NEW_GATE := Gate(0, map[])

  datatype Routed =
    | Refused        // error response on the connection the request came from
    | Ignored        // the same, but nobody asked for a response
    | Passed(grid: uint32)

  /** RpcC2GRpcRouteHandler.Process: target says whether the request passed the permission check
      and ChoiceRemote found a remote. */
  function Route(g: Gate, rid: uint32, connID: ConnId, target: bool): (Gate, Routed) {
    if !target then (g, if rid != 0 then Refused else Ignored)
    else if rid == 0 then (g, Passed(0))
    else
      var grid := Gid.Next(g.gid);
      (Gate(grid, g.cbMap[grid := CbInfo(rid, connID)]), Passed(grid))
  }

  datatype Returned =
    | Unknown                  // no such GRid, or no longer
    | Dropped                  // its connection is gone
    | Forwarded(info: CbInfo)

  /** RpcS2GRpcRspHandler.Process: live are the connections of clients and remotes. */
  function Return(g: Gate, grid: uint32, live: set<ConnId>): (Gate, Returned) {
    if grid !in g.cbMap then (g, Unknown)
    else
      var info := g.cbMap[grid];
      (g.(cbMap := g.cbMap - {grid}), if info.connID in live then Forwarded(info) else Dropped)
  }

  /** A tick takes the GRid out; there is nothing to call. */
  function Expire(g: Gate, grid: uint32): Gate {
    g.(cbMap := g.cbMap - {grid})
  }

  // ---- Conservation ----

  datatype Event =
    | Request(rid: uint32, connID: ConnId, target: bool)
    | Response(grid: uint32, live: set<ConnId>)
    | Expiry(grid: uint32)

  /** What has been seen happening: how many requests wanted a response, how many were refused at
      once, the GRids passed on, and what became of each. */
  datatype Ledger = Ledger(
    requests: nat, refused: nat, issued: multiset<uint32>,
    forwarded: multiset<uint32>, dropped: multiset<uint32>, expired: multiset<uint32>)

  const NEW_LEDGER := Ledger(0, 0, multiset{}, multiset{}, multiset{}, multiset{})

  datatype Watched = Watched(gate: Gate, book: Ledger)

  function Step(w: Watched, e: Event): Watched {
    match e
    case Request(rid, connID, target) =>
      var (g, action) := Route(w.gate, rid, connID, target);
      var b := w.book.(requests := w.book.requests + if rid != 0 then 1 else 0);
      Watched(g, match action
                 case Refused => b.(refused := b.refused + 1)
                 case Ignored => b
                 case Passed(grid) => if rid != 0 then b.(issued := b.issued + multiset{grid}) else b)
    case Response(grid, live) =>
      var (g, action) := Return(w.gate, grid, live);
      Watched(g, match action
                 case Unknown => w.book
                 case Dropped => w.book.(dropped := w.book.dropped + multiset{grid})
                 case Forwarded(_) => w.book.(forwarded := w.book.forwarded + multiset{grid}))
    case Expiry(grid) =>
      Watched(Expire(w.gate, grid),
              if grid in w.gate.cbMap then w.book.(expired := w.book.expired + multiset{grid}) else w.book)
  }

  function Run(es: seq<Event>): Watched {
    if es == [] then Watched(NEW_GATE, NEW_LEDGER) else Step(Run(es[..|es| - 1]), es[|es| - 1])
  }

  /** In how many places a GRid is. */
  function Places(w: Watched, id: uint32): nat {
    w.book.forwarded[id] + w.book.dropped[id] + w.book.expired[id] + if id in w.gate.cbMap then 1 else 0
  }

  ghost predicate Inv(w: Watched) {
    && w.book.requests == w.book.refused + |w.book.issued|
    && |w.book.issued| == w.gate.gid
    && (forall id: uint32 :: w.book.issued[id] == if 1 <= id <= w.gate.gid then 1 else 0)
    && (forall id: uint32 :: Places(w, id) == w.book.issued[id])
  }

  /** A request takes a GRid if it wants a response and has a target. */
  predicate TakesGrid(e: Event) {
    e.Request? && e.rid != 0 && e.target
  }

  lemma RequestKeepsInv(w: Watched, e: Event)
    requires Inv(w) && e.Request? && (TakesGrid(e) ==> w.gate.gid < TWO_32 - 1)
    ensures Inv(Step(w, e))
  {
    var v := Step(w, e);
    forall id: uint32
      ensures v.book.issued[id] == if 1 <= id <= v.gate.gid then 1 else 0
      ensures Places(v, id) == v.book.issued[id]
    {
      assert w.book.issued[id] == if 1 <= id <= w.gate.gid then 1 else 0;
      assert Places(w, id) == w.book.issued[id];
    }
  }

  lemma ReturnKeepsInv(w: Watched, e: Event)
    requires Inv(w) && !e.Request?
    ensures Inv(Step(w, e))
  {
    var v := Step(w, e);
    assert v.book.issued == w.book.issued && v.gate.gid == w.gate.gid;
    forall id: uint32 ensures Places(v, id) == w.book.issued[id] {
      assert Places(w, id) == w.book.issued[id];
    }
  }

  function Wanting(es: seq<Event>): nat {
    if es == [] then 0
    else Wanting(es[..|es| - 1]) + if es[|es| - 1].Request? && es[|es| - 1].rid != 0 then 1 else 0
  }

  function PassedOn(es: seq<Event>): nat {
    if es == [] then 0 else PassedOn(es[..|es| - 1]) + if TakesGrid(es[|es| - 1]) then 1 else 0
  }

  /** In every run, however long, the books count the requests and the counter the GRids taken. */
  lemma {:induction false} RunCounts(es: seq<Event>)
    ensures var w := Run(es);
      && w.book.requests == Wanting(es)
      && |w.book.issued| == PassedOn(es)
      && w.gate.gid == Gid.Nth(PassedOn(es))
    decreases |es|
  {
    if es == [] {
    } else {
      RunCounts(es[..|es| - 1]);
      StepCounts(Run(es[..|es| - 1]), es[|es| - 1]);
    }
  }

  lemma StepCounts(w: Watched, e: Event)
    ensures var v := Step(w, e);
      && v.book.requests == w.book.requests + (if e.Request? && e.rid != 0 then 1 else 0)
      && |v.book.issued| == |w.book.issued| + (if TakesGrid(e) then 1 else 0)
      && v.gate.gid == if TakesGrid(e) then Gid.Next(w.gate.gid) else w.gate.gid
  {
  }

  lemma {:induction false} RunKeepsInv(es: seq<Event>)
    requires PassedOn(es) < TWO_32
    ensures Inv(Run(es))
    decreases |es|
  {
    if es == [] {
    } else {
      var n := |es| - 1;
      var w, e := Run(es[..n]), es[n];
      RunKeepsInv(es[..n]);
      RunCounts(es[..n]);
      if e.Request? {
        RequestKeepsInv(w, e);
      } else {
        ReturnKeepsInv(w, e);
      }
    }
  }

  /** Conservation: at every point of every run in which fewer than 2^32 requests took a GRid, each
      request that wants a response was refused at once or passed on under a GRid of its own, never
      zero; and each GRid passed on is pending, or was forwarded, or dropped, or expired, exactly
      one of these and exactly once. So the five counts add up. */
  lemma GateConservation(es: seq<Event>)
    requires PassedOn(es) < TWO_32
    ensures var w := Run(es);
      && (forall id: uint32 :: w.book.issued[id] == if 1 <= id <= |w.book.issued| then 1 else 0)
      && multiset(w.gate.cbMap.Keys) + w.book.forwarded + w.book.dropped + w.book.expired == w.book.issued
      && Wanting(es) ==
           w.book.refused + |w.gate.cbMap| + |w.book.forwarded| + |w.book.dropped| + |w.book.expired|
  {
    RunKeepsInv(es);
    RunCounts(es);
    var w := Run(es);
    var pending := multiset(w.gate.cbMap.Keys);
    assert pending + w.book.forwarded + w.book.dropped + w.book.expired == w.book.issued by {
      forall id: uint32 ensures (pending + w.book.forwarded + w.book.dropped + w.book.expired)[id] == w.book.issued[id] {
        assert Places(w, id) == w.book.issued[id];
      }
    }
    assert |pending| == |w.gate.cbMap.Keys| == |w.gate.cbMap|;
  }

  ghost predicate DistinctNonZero(ids: multiset<uint32>) {
    forall id: uint32 :: ids[id] <= if id == 0 then 0 else 1
  }

  /** The GRids of a run are distinct and not zero exactly while fewer than 2^32 were taken. */
  lemma GridsDistinctIff(es: seq<Event>)
    ensures DistinctNonZero(Run(es).book.issued) <==> PassedOn(es) < TWO_32
  {
    RunCounts(es);
    if PassedOn(es) < TWO_32 {
      RunKeepsInv(es);
      InvDistinct(Run(es));
    }
    if DistinctNonZero(Run(es).book.issued) {
      AtMostOneEach(Run(es).book.issued, TWO_32 - 1);
    }
  }

  lemma InvDistinct(w: Watched)
    requires Inv(w)
    ensures DistinctNonZero(w.book.issued)
  {
  }

  /** The 2^32-th GRid is zero, which a service takes for a request without response. */
  lemma GridsRunOut(es: seq<Event>)
    requires PassedOn(es) == TWO_32
    ensures Run(es).gate.gid == 0
  {
    RunCounts(es);
    Gid.NthWraps();
  }

  /** Distinct ids from 1 to n are at most n. */
  lemma {:induction false} AtMostOneEach(ids: multiset<uint32>, n: nat)
    requires n < TWO_32 && forall id: uint32 :: ids[id] <= if 1 <= id <= n then 1 else 0
    ensures |ids| <= n
    decreases n
  {
    if n == 0 {
      assert ids == multiset{};
    } else {
      var last: uint32 := n;
      var rest := ids[last := 0];
      AtMostOneEach(rest, n - 1);
      assert ids == rest + multiset{last}[last := ids[last]];
    }
  }
}

/** The gate's process: the handlers as they change its state and write to its connections. */
module GateProcess {
  import opened Options
  import opened MachineInts
  import Gid
  import opened GateRouting

  type Bytes = seq<int>

  datatype RouteReq = RouteReq(nameSpace: string, service: string, rid: uint32, isOrdered: bool, rpcName: string, innerRpc: Bytes)

  datatype Sent =
    | RpcRsp(connID: ConnId, rid: uint32, error: string, reply: Option<Bytes>)
    | RpcCall(remote: ConnId, ordered: bool, grid: uint32, innerRpc: Bytes)

  /** Whether a client may call this rpc: only what its service reported as open. */
  predicate Permitted(access: map<string, map<string, bool>>, req: RouteReq) {
    var key := req.nameSpace + ":" + req.service;
    key in access && req.rpcName in access[key] && access[key][req.rpcName]
  }

  /** One access report: a service's key and its rpcs, open to clients or not. */
  datatype Report = Report(serviceKey: string, open: map<string, bool>)

  function AccessAfter(reports: seq<Report>): map<string, map<string, bool>> {
    if reports == [] then map[]
    else
      var last := reports[|reports| - 1];
      AccessAfter(reports[..|reports| - 1])[last.serviceKey := last.open]
  }

  ghost predicate IsLastOf(reports: seq<Report>, key: string, i: nat) {
    i < |reports| && reports[i].serviceKey == key && forall j :: i < j < |reports| ==> reports[j].serviceKey != key
  }

  ghost predicate Unreported(reports: seq<Report>, key: string) {
    forall i :: 0 <= i < |reports| ==> reports[i].serviceKey != key
  }

  /** After any reports, an rpc is open to clients exactly if the last report of its service says so;
      so before any report of a service none of its rpcs is. */
  lemma {:induction false} LastReportDecides(reports: seq<Report>, req: RouteReq)
    ensures var key := req.nameSpace + ":" + req.service;
      && (Unreported(reports, key) ==> !Permitted(AccessAfter(reports), req))
      && forall i: nat :: IsLastOf(reports, key, i) ==>
           (Permitted(AccessAfter(reports), req) <==> req.rpcName in reports[i].open && reports[i].open[req.rpcName])
    decreases |reports|
  {
    if reports == [] {
    } else {
      var n := |reports| - 1;
      var key := req.nameSpace + ":" + req.service;
      LastReportDecides(reports[..n], req);
      forall i: nat | IsLastOf(reports, key, i)
        ensures Permitted(AccessAfter(reports), req) <==> req.rpcName in reports[i].open && reports[i].open[req.rpcName]
      {
        if i < n {
          assert IsLastOf(reports[..n], key, i);
        }
      }
    }
  }

  class GateServer {
    const isClientGate: bool
    var access: map<string, map<string, bool>>
    var gid: uint32
    var cbMap: map<uint32, CbInfo>
    var clients: set<ConnId>
    var remotes: set<ConnId>
    var sent: seq<Sent>

    function Value(): Gate
      reads this
    {
      Gate(gid, cbMap)
    }

    constructor (isClientGate: bool)
      ensures Value() == NEW_GATE && sent == [] && access == AccessAfter([]) && clients == {} && remotes == {}
      ensures forall req :: !Permitted(access, req)
      ensures this.isClientGate == isClientGate
    {
      this.isClientGate := isClientGate;
      access, gid, cbMap, clients, remotes, sent := map[], 0, map[], {}, {}, [];
    }

    /** From then on the service's rpcs are open to clients exactly as this report says, whatever
        was reported before, and those of the other services as before. */
    method AccessReport(serviceKey: string, open: map<string, bool>)
      modifies `access
      ensures access == old(access)[serviceKey := open]
      ensures forall req :: Permitted(access, req) <==>
        if req.nameSpace + ":" + req.service == serviceKey then req.rpcName in open && open[req.rpcName]
        else Permitted(old(access), req)
    {
      access := access[serviceKey := open];
    }

    /** remote is what ChoiceRemote answers. */
    method ProcessRoute(conn: ConnId, isTcpClient: bool, req: RouteReq, remote: Option<ConnId>)
      modifies `gid, `cbMap, `sent
      ensures var target := remote.Some? && (isClientGate && isTcpClient ==> Permitted(access, req));
        var (g, action) := Route(old(Value()), req.rid, conn, target);
        && Value() == g
        && match action
           case Ignored => sent == old(sent)
           case Refused => |sent| == |old(sent)| + 1 && old(sent) <= sent &&
               var m := sent[|sent| - 1]; m.RpcRsp? && m.connID == conn && m.rid == req.rid && m.error != "" && m.reply == None
           case Passed(grid) => sent == old(sent) + [RpcCall(remote.value, req.isOrdered, grid, req.innerRpc)]
      ensures remote.Some? && (isClientGate && isTcpClient ==> Permitted(access, req)) ==>
        && sent == old(sent) + [RpcCall(remote.value, req.isOrdered, if req.rid == 0 then 0 else gid, req.innerRpc)]
        && if req.rid == 0 then gid == old(gid) && cbMap == old(cbMap)
           else gid == Gid.Next(old(gid)) && cbMap == old(cbMap)[gid := CbInfo(req.rid, conn)]
      ensures remote.None? || (isClientGate && isTcpClient && !Permitted(access, req)) ==>
        && gid == old(gid) && cbMap == old(cbMap) && old(sent) <= sent
        && (forall i :: |old(sent)| <= i < |sent| ==> sent[i].RpcRsp? && sent[i].connID == conn)
        && |sent| == |old(sent)| + if req.rid == 0 then 0 else 1
    {
      if isClientGate && isTcpClient {
        var err := "";
        var key := req.nameSpace + ":" + req.service;
        if key !in access {
          err := "service " + key + " not exist";
        } else if req.rpcName !in access[key] || !access[key][req.rpcName] {
          err := "rpc " + key + ":" + req.rpcName + " not allow";
        }
        if |err| != 0 {
          if req.rid != 0 {
            sent := sent + [RpcRsp(conn, req.rid, err, None)];
          }
          return;
        }
      }
      if remote.Some? {
        var grid: uint32 := 0;
        if req.rid != 0 {
          gid := Gid.Next(gid);
          grid := gid;
          cbMap := cbMap[grid := CbInfo(req.rid, conn)];
        }
        sent := sent + [RpcCall(remote.value, req.isOrdered, grid, req.innerRpc)];
      } else {
        var err := "service " + req.nameSpace + ":" + req.service + " not exist";
        if req.rid != 0 {
          sent := sent + [RpcRsp(conn, req.rid, err, None)];
        }
      }
    }

    method ProcessRsp(grid: uint32, error: string, reply: Option<Bytes>)
      modifies `cbMap, `sent
      ensures var (g, action) := Return(old(Value()), grid, clients + remotes);
        && Value() == g
        && sent == if action.Forwarded? then old(sent) + [RpcRsp(action.info.connID, action.info.rid, error, reply)] else old(sent)
      ensures cbMap == old(cbMap) - {grid}
      ensures old(sent) <= sent
      ensures forall i :: |old(sent)| <= i < |sent| ==> sent[i].connID in clients || sent[i].connID in remotes
      ensures grid in old(cbMap) && (old(cbMap)[grid].connID in clients || old(cbMap)[grid].connID in remotes) ==>
        sent == old(sent) + [RpcRsp(old(cbMap)[grid].connID, old(cbMap)[grid].rid, error, reply)]
    {
      if grid !in cbMap {
        return;
      }
      var cbInfo := cbMap[grid];
      cbMap := cbMap - {grid};
      if cbInfo.connID !in clients && cbInfo.connID !in remotes {
        return;
      }
      sent := sent + [RpcRsp(cbInfo.connID, cbInfo.rid, error, reply)];
    }

    method OnTimeOut(grid: uint32)
      modifies `cbMap
      ensures Value() == Expire(old(Value()), grid)
    {
      cbMap := cbMap - {grid};
    }
  }
}
