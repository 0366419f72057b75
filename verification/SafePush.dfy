/** Safe push: push_service/src/rpc_handler.go, the gate's push handler in ms_gate/src/rpc_handler.go
    and the receiver's in clientsdk/gate_proxy.go. */
module SafePush {
  import opened Options
  import opened AddressText

  type Pid = seq<int>   // the bytes of a record id; empty for an unsafe push

  datatype Record = Record(client: string, typ: string, body: seq<int>, arrived: bool)

  /** What a push looks up: login values by redis key, gate connections by listen address, and the
      gate connections that are open. */
  datatype Directory = Directory(redis: map<string, string>, gates: map<string, string>, live: set<string>)

  datatype Target = Target(gate: string, conn: string)

  datatype Msg =
    | ToGate(gate: string, conn: string, pid: Pid, body: seq<int>)
    | ToClient(conn: string, pid: Pid, body: seq<int>)
    | Reply(pid: Pid)

  const ID_LEN := 12

  /** The fixed-size id a reply's bytes are copied into. */
  function ToObjectID(pid: Pid): Pid {
    seq(ID_LEN, i requires 0 <= i => if i < |pid| then pid[i] else 0)
  }

  lemma ObjectIDKeeps(pid: Pid)
    ensures ToObjectID(pid) == pid <==> |pid| == ID_LEN
  {
    if |pid| == ID_LEN {
      assert forall i :: 0 <= i < ID_LEN ==> ToObjectID(pid)[i] == pid[i];
    }
  }

  function RedisKey(typ: string, client: string): Option<string> {
    if typ == "server" then Some("s_" + client)
    else if typ == "client" then Some("c_" + client)
    else None
  }

  function Find(d: Directory, client: string, typ: string): Option<Target> {
    var key := RedisKey(typ, client);
    if key.None? || key.value !in d.redis then None
    else
      var login := SplitLogin(d.redis[key.value]);
      if login.None? || login.value.0 !in d.gates || d.gates[login.value.0] !in d.live then None
      else Some(Target(d.gates[login.value.0], login.value.1))
  }

  /** The lookup comes on a login value that does not split: the source panics. */
  predicate Panics(d: Directory, client: string, typ: string) {
    var key := RedisKey(typ, client);
    key.Some? && key.value in d.redis && '/' !in d.redis[key.value]
  }

  /** A client that logged in at a gate is found exactly if the gate has told its listen address and
      its connection is open; and then at that gate, on the connection it logged in on. */
  lemma LoggedInIsFound(d: Directory, client: string, typ: string, key: string, addr: string, connID: string)
    requires (typ == "server" && key == "s_" + client) || (typ == "client" && key == "c_" + client)
    requires key in d.redis && d.redis[key] == LoginValue(addr, connID) && '/' !in addr && '/' !in connID
    ensures Find(d, client, typ) ==
      if addr in d.gates && d.gates[addr] in d.live then Some(Target(d.gates[addr], connID)) else None
    ensures !Panics(d, client, typ)
  {
    LoginRoundTripIff(addr, connID);
    SplitLoginIff(LoginValue(addr, connID));
  }

  function Sent(d: Directory, client: string, typ: string, body: seq<int>, pid: Pid): seq<Msg> {
    var t := Find(d, client, typ);
    if t.None? then [] else [ToGate(t.value.gate, t.value.conn, pid, body)]
  }

  /** The records a restore of `client` is for. */
  predicate Pending(db: map<Pid, Record>, client: string, pid: Pid) {
    pid in db && db[pid].client == client && !db[pid].arrived
  }

  /** A record as a query returns it. */
  datatype Doc = Doc(pid: Pid, client: string, typ: string, body: seq<int>)

  function DocOf(db: map<Pid, Record>, pid: Pid): Doc
    requires pid in db
  {
    Doc(pid, db[pid].client, db[pid].typ, db[pid].body)
  }

  /** `docs` is a result of the restore query: the pending records, each once, in any order. */
  ghost predicate Lists(docs: seq<Doc>, db: map<Pid, Record>, client: string) {
    && (forall i :: 0 <= i < |docs| ==> Pending(db, client, docs[i].pid) && docs[i] == DocOf(db, docs[i].pid))
    && (forall p :: Pending(db, client, p) ==> DocOf(db, p) in docs)
    && DistinctPids(docs)
  }

  ghost predicate DistinctPids(docs: seq<Doc>) {
    forall i, j :: 0 <= i < j < |docs| ==> docs[i].pid != docs[j].pid
  }

  function SentDoc(d: Directory, doc: Doc): seq<Msg> {
    Sent(d, doc.client, doc.typ, doc.body, doc.pid)
  }

  /** What is sent for records that are looked up one after another, each in the directory as it is
      by then. */
  function SentForAll(views: seq<Directory>, docs: seq<Doc>): seq<Msg>
    requires |views| == |docs|
  {
    if docs == [] then []
    else
      var n := |docs| - 1;
      SentForAll(views[..n], docs[..n]) + SentDoc(views[n], docs[n])
  }

  function SetArrived(db: map<Pid, Record>, pid: Pid): map<Pid, Record> {
    if pid in db then db[pid := db[pid].(arrived := true)] else db
  }

  class PushService {
    var records: map<Pid, Record>
    var dir: Directory
    var outbox: seq<Msg>

    /** From then on a client is looked for on this connection exactly if its login value names this
        listen address, and otherwise where it was. */
    method RspListenAddr(addr: string, conn: string)
      modifies `dir
      ensures dir == old(dir).(gates := old(dir).gates[addr := conn])
      ensures forall client, typ :: NamesGate(dir, client, typ, addr) ==>
        Find(dir, client, typ) == if conn in dir.live then Some(Target(conn, LoginConn(dir, client, typ))) else None
      ensures forall client, typ :: !NamesGate(dir, client, typ, addr) ==>
        Find(dir, client, typ) == Find(old(dir), client, typ)
    {
      dir := dir.(gates := dir.gates[addr := conn]);
    }

    /** The message goes to the gate and the connection that the value under the key was made from,
        if that gate can be reached; and nothing goes out where there is no value. */
    ghost predicate GoesWhereStored(key: string, body: seq<int>, pid: Pid, ok: bool, before: seq<Msg>)
      reads this
    {
      && (key !in dir.redis ==> ok && outbox == before)
      && (forall addr, conn ::
            key in dir.redis && dir.redis[key] == LoginValue(addr, conn) && '/' !in addr && '/' !in conn ==>
            && ok
            && outbox == before +
                 if addr in dir.gates && dir.gates[addr] in dir.live then [ToGate(dir.gates[addr], conn, pid, body)] else [])
    }

    /** ok is false where the source panics. */
    method PushToGate(client: string, typ: string, body: seq<int>, pid: Pid) returns (ok: bool)
      modifies `outbox
      ensures ok == !Panics(dir, client, typ)
      ensures outbox == old(outbox) + Sent(dir, client, typ, body, pid)
      ensures typ == "server" ==> GoesWhereStored("s_" + client, body, pid, ok, old(outbox))
      ensures typ == "client" ==> GoesWhereStored("c_" + client, body, pid, ok, old(outbox))
      ensures typ != "server" && typ != "client" ==> ok && outbox == old(outbox)
    {
      forall addr, conn | '/' !in addr && '/' !in conn
        ensures SplitLogin(LoginValue(addr, conn)) == Some((addr, conn))
      {
        LoginRoundTripIff(addr, conn);
      }
      var key;
      if "server" == typ {
        key := "s_" + client;
      } else if "client" == typ {
        key := "c_" + client;
      } else {
        return true;
      }
      if key !in dir.redis {
        return true;
      }
      SplitLoginIff(dir.redis[key]);
      var login := SplitLogin(dir.redis[key]);
      if login.None? {
        return false;
      }
      if login.value.0 !in dir.gates {
        return true;
      }
      var gate := dir.gates[login.value.0];
      if gate !in dir.live {
        return true;
      }
      outbox := outbox + [ToGate(gate, login.value.1, pid, body)];
      return true;
    }

    /** `inserted` is the id the database gave the record, None if the insert failed. */
    method S2PPush(client: string, typ: string, isSafe: bool, body: seq<int>, inserted: Option<Pid>)
      requires inserted.Some? ==> |inserted.value| == ID_LEN && inserted.value !in records
      modifies `records, `outbox
      ensures !isSafe ==> records == old(records) && outbox == old(outbox) + Sent(dir, client, typ, body, [])
      ensures isSafe && inserted.None? ==> records == old(records) && outbox == old(outbox)
      ensures isSafe && inserted.Some? ==>
                && records == old(records)[inserted.value := Record(client, typ, body, false)]
                && outbox == old(outbox) + Sent(dir, client, typ, body, inserted.value)
    {
      var pid: Pid := [];
      if isSafe {
        if inserted.None? {
          return;
        }
        pid := inserted.value;
        records := records[pid := Record(client, typ, body, false)];
      }
      var ok := PushToGate(client, typ, body, pid);
    }

    method PushReply(pid: Pid, updated: bool)
      modifies `records
      ensures records == if updated then SetArrived(old(records), ToObjectID(pid)) else old(records)
    {
      var id := ToObjectID(pid);
      if updated && id in records {
        records := records[id := records[id].(arrived := true)];
      }
    }

    /** `docs` is what the query found, None if it failed, and views what the directory has become
        when it is each record's turn. The loop attempts the records in order, all of them unless a
        lookup panics; then it ends there. */
    method PushRestore(client: string, docs: Option<seq<Doc>>, views: seq<Directory>) returns (done: nat)
      requires docs.Some? ==> Lists(docs.value, records, client) && |views| == |docs.value|
      modifies `dir, `outbox
      ensures docs.None? ==> outbox == old(outbox)
      ensures docs.Some? ==> var ds := docs.value;
        done == Reached(views, ds) && outbox == old(outbox) + RestoreSent(views, ds)
    {
      done := 0;
      if docs.None? {
        return;
      }
      var ds := docs.value;
      while done < |ds|
        invariant done <= |ds| && done <= Reached(views, ds)
        invariant outbox == old(outbox) + SentForAll(views[..done], ds[..done])
      {
        var ok := Attempt(ds[done], views[done]);
        TurnOf(views, ds, done);
        if !ok {
          return;
        }
        done := done + 1;
      }
    }

    /** One turn of the loop, in the directory as it is by then. */
    method Attempt(doc: Doc, view: Directory) returns (ok: bool)
      modifies `dir, `outbox
      ensures ok == !Panics(view, doc.client, doc.typ) && outbox == old(outbox) + SentDoc(view, doc)
    {
      dir := view;
      ok := PushToGate(doc.client, doc.typ, doc.body, doc.pid);
    }
  }

  /** What the turn of record n adds, and whether the restore gets beyond it. */
  lemma TurnOf(views: seq<Directory>, docs: seq<Doc>, n: nat)
    requires |views| == |docs| && n < |docs| && n <= Reached(views, docs)
    ensures SentForAll(views[..n + 1], docs[..n + 1]) == SentForAll(views[..n], docs[..n]) + SentDoc(views[n], docs[n])
    ensures Panics(views[n], docs[n].client, docs[n].typ) <==> n == Reached(views, docs)
    ensures Panics(views[n], docs[n].client, docs[n].typ) ==> SentDoc(views[n], docs[n]) == []
  {
    SentOneMore(views, docs, n);
    NothingSent(views[n], docs[n].client, docs[n].typ, docs[n].body, docs[n].pid);
  }

  lemma SentOneMore(views: seq<Directory>, docs: seq<Doc>, n: nat)
    requires |views| == |docs| && n < |docs|
    ensures SentForAll(views[..n + 1], docs[..n + 1]) == SentForAll(views[..n], docs[..n]) + SentDoc(views[n], docs[n])
  {
    assert views[..n + 1][..n] == views[..n] && docs[..n + 1][..n] == docs[..n];
  }

  predicate NamesGate(d: Directory, client: string, typ: string, addr: string) {
    var key := RedisKey(typ, client);
    key.Some? && key.value in d.redis && SplitLogin(d.redis[key.value]).Some? && SplitLogin(d.redis[key.value]).value.0 == addr
  }

  function LoginConn(d: Directory, client: string, typ: string): string
    requires exists addr :: NamesGate(d, client, typ, addr)
  {
    SplitLogin(d.redis[RedisKey(typ, client).value]).value.1
  }

  lemma NothingSent(d: Directory, client: string, typ: string, body: seq<int>, pid: Pid)
    ensures Panics(d, client, typ) ==> Sent(d, client, typ, body, pid) == []
  {
    if Panics(d, client, typ) {
      SplitLoginIff(d.redis[RedisKey(typ, client).value]);
    }
  }

  /** Whatever order the query gives, a restore sends exactly the messages of the listed records that
      have a target at their turn: one for each. */
  lemma RestoreSends(views: seq<Directory>, docs: seq<Doc>)
    requires |views| == |docs| && DistinctPids(docs)
    ensures forall m :: m in SentForAll(views, docs) <==> exists i :: 0 <= i < |docs| && m in SentDoc(views[i], docs[i])
    ensures forall m :: multiset(SentForAll(views, docs))[m] <= 1
  {
    forall m ensures m in SentForAll(views, docs) <==> exists i :: 0 <= i < |docs| && m in SentDoc(views[i], docs[i]) {
      SentIsOfDoc(views, docs, m);
    }
    SentOnce(views, docs);
  }

  lemma {:induction false} SentIsOfDoc(views: seq<Directory>, docs: seq<Doc>, m: Msg)
    requires |views| == |docs|
    ensures m in SentForAll(views, docs) <==> exists i :: 0 <= i < |docs| && m in SentDoc(views[i], docs[i])
    decreases |docs|
  {
    if docs == [] {
    } else {
      var n := |docs| - 1;
      SentIsOfDoc(views[..n], docs[..n], m);
      AmongFirst(views, docs, m);
    }
  }

  lemma {:induction false} SentOnce(views: seq<Directory>, docs: seq<Doc>)
    requires |views| == |docs| && DistinctPids(docs)
    ensures forall m :: multiset(SentForAll(views, docs))[m] <= 1
    decreases |docs|
  {
    if docs == [] {
    } else {
      var n := |docs| - 1;
      SentOnce(views[..n], docs[..n]);
      var before, last := SentForAll(views[..n], docs[..n]), SentDoc(views[n], docs[n]);
      forall m | m in before ensures m !in last {
        NotOfLast(views, docs, m);
      }
      OnceEach(before, last);
    }
  }

  lemma NotOfLast(views: seq<Directory>, docs: seq<Doc>, m: Msg)
    requires |views| == |docs| && docs != [] && DistinctPids(docs)
    requires m in SentForAll(views[..|docs| - 1], docs[..|docs| - 1])
    ensures m !in SentDoc(views[|docs| - 1], docs[|docs| - 1])
  {
    var n := |docs| - 1;
    SentIsOfDoc(views[..n], docs[..n], m);
    var i :| 0 <= i < n && m in SentDoc(views[..n][i], docs[..n][i]);
    SentHasPid(views[i], docs[i], m);
    if m in SentDoc(views[n], docs[n]) {
      SentHasPid(views[n], docs[n], m);
    }
  }

  lemma AmongFirst(views: seq<Directory>, docs: seq<Doc>, m: Msg)
    requires |views| == |docs| && docs != []
    ensures var n := |docs| - 1;
      (exists i :: 0 <= i < |docs| && m in SentDoc(views[i], docs[i])) <==>
      m in SentDoc(views[n], docs[n]) || exists i :: 0 <= i < n && m in SentDoc(views[..n][i], docs[..n][i])
  {
    var n := |docs| - 1;
    if i :| 0 <= i < |docs| && m in SentDoc(views[i], docs[i]) {
      assert i < n ==> views[..n][i] == views[i] && docs[..n][i] == docs[i];
    }
  }

  lemma OnceEach(before: seq<Msg>, last: seq<Msg>)
    requires |last| <= 1 && (forall m :: multiset(before)[m] <= 1) && forall m :: m in before ==> m !in last
    ensures forall m :: multiset(before + last)[m] <= 1
  {
    assert multiset(before + last) == multiset(before) + multiset(last);
    forall m ensures multiset(before + last)[m] <= 1 {
      assert m in multiset(before) <==> m in before;
      assert m in multiset(last) <==> m in last;
      assert |last| == 1 ==> last == [last[0]];
    }
  }

  // ---- Whole runs: messages may be lost, repeated and overtaken ----

  datatype Handled = Handled(conn: string, pid: Pid, body: seq<int>)

  /** `net` holds every message ever sent, `ran` the runs of the receivers' handlers and `seen` the
      directories that pushes used. */
  datatype State = State(db: map<Pid, Record>, net: set<Msg>, ran: seq<Handled>, seen: set<Directory>)

  datatype Event =
    | Push(client: string, typ: string, safe: bool, body: seq<int>, inserted: Option<Pid>, d: Directory)
    | Restore(client: string, docs: seq<Doc>, views: seq<Directory>)
    | Forward(m: Msg, open: bool)
    | Receive(m: Msg, handles: bool)
    | Answer(m: Msg, updated: bool)

  function Elems(ms: seq<Msg>): set<Msg> {
    set m | m in ms
  }

  /** How many records a restore gets to: the lookup of the next one panics, if there is one. */
  function Reached(views: seq<Directory>, docs: seq<Doc>): (n: nat)
    requires |views| == |docs|
    ensures n <= |docs|
    ensures forall i :: 0 <= i < n ==> !Panics(views[i], docs[i].client, docs[i].typ)
    ensures n < |docs| ==> Panics(views[n], docs[n].client, docs[n].typ)
  {
    if docs == [] then 0
    else
      var n := |docs| - 1;
      var before := Reached(views[..n], docs[..n]);
      if before < n || Panics(views[n], docs[n].client, docs[n].typ) then before else n + 1
  }

  ghost predicate Enabled(s: State, e: Event) {
    match e
    case Push(_, _, _, _, inserted, _) => inserted.Some? ==> |inserted.value| == ID_LEN && inserted.value !in s.db
    case Restore(client, docs, views) =>
      Lists(docs, s.db, client) && |views| == |docs|
    case Forward(m, _) => m in s.net && m.ToGate?
    case Receive(m, _) => m in s.net && m.ToClient?
    case Answer(m, _) => m in s.net && m.Reply?
  }

  function OnPush(s: State, client: string, typ: string, pid: Pid, body: seq<int>, d: Directory): State {
    s.(net := s.net + Elems(Sent(d, client, typ, body, pid)), seen := s.seen + {d})
  }

  function OnReceive(s: State, m: Msg): State
    requires m.ToClient?
  {
    s.(ran := s.ran + [Handled(m.conn, m.pid, m.body)],
       net := if m.pid != [] then s.net + {Reply(m.pid)} else s.net)
  }

  ghost function Do(s: State, e: Event): State
    requires Enabled(s, e)
  {
    match e
    case Push(client, typ, safe, body, inserted, d) =>
      if !safe then OnPush(s, client, typ, [], body, d)
      else if inserted.None? then s
      else OnPush(s.(db := s.db[inserted.value := Record(client, typ, body, false)]), client, typ, inserted.value, body, d)
    case Restore(client, docs, views) =>
      var n := Reached(views, docs);
      s.(net := s.net + Elems(SentForAll(views[..n], docs[..n])), seen := s.seen + set d | d in views[..n])
    case Forward(m, open) =>
      if open then s.(net := s.net + {ToClient(m.conn, m.pid, m.body)}) else s
    case Receive(m, handles) =>
      if handles then OnReceive(s, m) else s
    case Answer(m, updated) =>
      if updated then s.(db := SetArrived(s.db, ToObjectID(m.pid))) else s
  }

  ghost predicate Runs(s: State, es: seq<Event>)
    decreases |es|
  {
    es == [] || (Enabled(s, es[0]) && Runs(Do(s, es[0]), es[1..]))
  }

  ghost function After(s: State, es: seq<Event>): State
    requires Runs(s, es)
    decreases |es|
  {
    if es == [] then s else After(Do(s, es[0]), es[1..])
  }

  const FRESH := State(map[], {}, [], {})

  lemma Then(s: State, e: Event, es: seq<Event>)
    requires Enabled(s, e) && Runs(Do(s, e), es)
    ensures Runs(s, [e] + es) && After(s, [e] + es) == After(Do(s, e), es)
  {
    assert ([e] + es)[1..] == es;
  }

  // ---- The invariant ----

  /** Some push found `conn` as the place of that client. */
  ghost predicate Named(seen: set<Directory>, client: string, typ: string, conn: string) {
    exists d :: d in seen && Find(d, client, typ).Some? && Find(d, client, typ).value.conn == conn
  }

  /** What carries a record's id carries its body, to a connection its client was found on. */
  ghost predicate Backed(db: map<Pid, Record>, seen: set<Directory>, conn: string, pid: Pid, body: seq<int>) {
    pid == [] || (pid in db && db[pid].body == body && Named(seen, db[pid].client, db[pid].typ, conn))
  }

  /** The receiver's handler ran for that record: its id, its body, at a place of its client. */
  ghost predicate Delivered(db: map<Pid, Record>, ran: seq<Handled>, seen: set<Directory>, pid: Pid) {
    pid in db && exists h :: h in ran && h.pid == pid && h.body == db[pid].body && Named(seen, db[pid].client, db[pid].typ, h.conn)
  }

  ghost predicate MsgInv(s: State, m: Msg) {
    match m
    case ToGate(_, conn, pid, body) => Backed(s.db, s.seen, conn, pid, body)
    case ToClient(conn, pid, body) => Backed(s.db, s.seen, conn, pid, body)
    case Reply(pid) => Delivered(s.db, s.ran, s.seen, pid)
  }

  ghost predicate Inv(s: State) {
    && (forall p :: p in s.db ==> |p| == ID_LEN)
    && (forall m :: m in s.net ==> MsgInv(s, m))
    && (forall p :: p in s.db && s.db[p].arrived ==> Delivered(s.db, s.ran, s.seen, p))
  }

  /** What one step, and so a run, can only add to. */
  ghost predicate Grows(s: State, t: State) {
    && (forall p :: p in s.db ==> p in t.db && t.db[p] in {s.db[p], s.db[p].(arrived := true)})
    && s.net <= t.net && s.ran <= t.ran && s.seen <= t.seen
  }

  lemma NamedGrows(s: State, t: State, client: string, typ: string, conn: string)
    requires Grows(s, t) && Named(s.seen, client, typ, conn)
    ensures Named(t.seen, client, typ, conn)
  {
    var d :| d in s.seen && Find(d, client, typ).Some? && Find(d, client, typ).value.conn == conn;
    assert d in t.seen;
  }

  lemma DeliveredGrows(s: State, t: State, pid: Pid)
    requires Grows(s, t) && Delivered(s.db, s.ran, s.seen, pid)
    ensures Delivered(t.db, t.ran, t.seen, pid)
  {
    var r := s.db[pid];
    var h :| h in s.ran && h.pid == pid && h.body == r.body && Named(s.seen, r.client, r.typ, h.conn);
    NamedGrows(s, t, r.client, r.typ, h.conn);
    assert h in t.ran;
  }

  lemma MsgGrows(s: State, t: State, m: Msg)
    requires Grows(s, t) && MsgInv(s, m)
    ensures MsgInv(t, m)
  {
    if m.Reply? {
      DeliveredGrows(s, t, m.pid);
    } else if m.pid != [] {
      NamedGrows(s, t, s.db[m.pid].client, s.db[m.pid].typ, m.conn);
    }
  }

  lemma StepGrows(s: State, e: Event)
    requires Enabled(s, e)
    ensures Grows(s, Do(s, e))
  {
  }

  /** What a push puts on the network is backed. */
  lemma SentBacked(db: map<Pid, Record>, seen: set<Directory>, d: Directory, pid: Pid)
    requires pid in db && d in seen
    ensures forall m :: m in SentDoc(d, DocOf(db, pid)) ==> m.ToGate? && Backed(db, seen, m.conn, m.pid, m.body)
  {
  }

  lemma NewMsg(s: State, e: Event, m: Msg)
    requires Inv(s) && Enabled(s, e)
    requires m in Do(s, e).net && m !in s.net
    ensures MsgInv(Do(s, e), m)
  {
    var t := Do(s, e);
    match e
    case Push(client, typ, safe, body, inserted, d) =>
      if safe {
        SentBacked(t.db, t.seen, d, inserted.value);
        assert m in SentDoc(d, DocOf(t.db, inserted.value));
      }
    case Restore(client, docs, views) =>
      var n := Reached(views, docs);
      SentIsOfDoc(views[..n], docs[..n], m);
      var i :| 0 <= i < n && m in SentDoc(views[..n][i], docs[..n][i]);
      assert views[i] in views[..n];
      SentBacked(t.db, t.seen, views[i], docs[i].pid);
    case Forward(m0, open) =>
      assert MsgInv(s, m0);
    case Receive(m0, handles) =>
      assert MsgInv(s, m0);
      assert Handled(m0.conn, m0.pid, m0.body) in t.ran;
    case Answer(m0, updated) =>
  }

  lemma StepKeepsInv(s: State, e: Event)
    requires Inv(s) && Enabled(s, e)
    ensures Inv(Do(s, e))
  {
    var t := Do(s, e);
    StepGrows(s, e);
    forall m | m in t.net ensures MsgInv(t, m) {
      if m in s.net { MsgGrows(s, t, m); } else { NewMsg(s, e, m); }
    }
    forall p | p in t.db && t.db[p].arrived ensures Delivered(t.db, t.ran, t.seen, p) {
      if p in s.db && s.db[p].arrived {
        DeliveredGrows(s, t, p);
      } else {
        NewlyArrived(s, e, p);
      }
    }
  }

  /** A record is marked only by a reply, and every reply is for a run of the handler. */
  lemma NewlyArrived(s: State, e: Event, p: Pid)
    requires Inv(s) && Enabled(s, e)
    requires p in Do(s, e).db && Do(s, e).db[p].arrived && !(p in s.db && s.db[p].arrived)
    ensures Delivered(Do(s, e).db, Do(s, e).ran, Do(s, e).seen, p)
  {
    assert e.Answer? && MsgInv(s, e.m);
    ObjectIDKeeps(e.m.pid);
    StepGrows(s, e);
    DeliveredGrows(s, Do(s, e), p);
  }

  lemma {:induction false} RunKeepsInv(s: State, es: seq<Event>)
    requires Inv(s) && Runs(s, es)
    ensures Inv(After(s, es)) && Grows(s, After(s, es))
    decreases |es|
  {
    if es == [] {
    } else {
      StepKeepsInv(s, es[0]);
      StepGrows(s, es[0]);
      RunKeepsInv(Do(s, es[0]), es[1..]);
    }
  }

  // ---- Main results ----

  /** In every run a record marked ARRIVED was handled by its receiver, with its own body and on a
      connection the directory gave for its client; and a reply is only ever for such a record. */
  lemma ArrivedWasDelivered(es: seq<Event>, pid: Pid)
    requires Runs(FRESH, es)
    ensures var s := After(FRESH, es);
            && (pid in s.db && s.db[pid].arrived ==> Delivered(s.db, s.ran, s.seen, pid))
            && (Reply(pid) in s.net ==> |pid| == ID_LEN && Delivered(s.db, s.ran, s.seen, pid))
  {
    RunKeepsInv(FRESH, es);
    var s := After(FRESH, es);
    assert Reply(pid) in s.net ==> MsgInv(s, Reply(pid));
  }

  /** No later step drops a record, changes what it says or takes ARRIVED back. */
  lemma ArrivedStays(es: seq<Event>, more: seq<Event>, pid: Pid)
    requires Runs(FRESH, es) && Runs(After(FRESH, es), more)
    requires pid in After(FRESH, es).db
    ensures var was := After(FRESH, es).db[pid];
            var db := After(After(FRESH, es), more).db;
            && pid in db && db[pid].client == was.client && db[pid].typ == was.typ && db[pid].body == was.body
            && (was.arrived ==> db[pid].arrived)
  {
    RunKeepsInv(FRESH, es);
    RunKeepsInv(After(FRESH, es), more);
  }

  /** What a restore sends. */
  function RestoreSent(views: seq<Directory>, docs: seq<Doc>): seq<Msg>
    requires |views| == |docs|
  {
    var n := Reached(views, docs);
    SentForAll(views[..n], docs[..n])
  }

  /** A restore attempts the pending records of its client in the order listed, all of them unless a
      lookup panics: at the turn of a record its message is sent exactly when the directory has a
      target for it, and behind a panic nothing is. */
  lemma RestoreReaches(s: State, client: string, docs: seq<Doc>, views: seq<Directory>, i: nat)
    requires Enabled(s, Restore(client, docs, views)) && i < |docs|
    ensures var sent, t := RestoreSent(views, docs), Find(views[i], docs[i].client, docs[i].typ);
      && ((exists m :: m in sent && m.pid == docs[i].pid) <==> i < Reached(views, docs) && t.Some?)
      && (i < Reached(views, docs) && t.Some? ==> ToGate(t.value.gate, t.value.conn, docs[i].pid, docs[i].body) in sent)
  {
    var n := Reached(views, docs);
    if i < n {
      SentAtTurn(views[..n], docs[..n], i);
    } else {
      NotReached(views, docs, n, i);
    }
  }

  lemma NotReached(views: seq<Directory>, docs: seq<Doc>, n: nat, i: nat)
    requires |views| == |docs| && DistinctPids(docs) && n <= i < |docs|
    ensures forall m :: m in SentForAll(views[..n], docs[..n]) ==> m.pid != docs[i].pid
  {
    forall m | m in SentForAll(views[..n], docs[..n]) ensures m.pid != docs[i].pid {
      SentIsOfDoc(views[..n], docs[..n], m);
      var k :| 0 <= k < n && m in SentDoc(views[..n][k], docs[..n][k]);
      SentHasPid(views[k], docs[k], m);
    }
  }

  lemma SentAtTurn(views: seq<Directory>, docs: seq<Doc>, i: nat)
    requires |views| == |docs| && DistinctPids(docs) && i < |docs|
    ensures var sent, t := SentForAll(views, docs), Find(views[i], docs[i].client, docs[i].typ);
      && ((exists m :: m in sent && m.pid == docs[i].pid) <==> t.Some?)
      && (t.Some? ==> ToGate(t.value.gate, t.value.conn, docs[i].pid, docs[i].body) in sent)
  {
    RestoreSends(views, docs);
    var sent, t := SentForAll(views, docs), Find(views[i], docs[i].client, docs[i].typ);
    if t.Some? {
      var m := ToGate(t.value.gate, t.value.conn, docs[i].pid, docs[i].body);
      assert SentDoc(views[i], docs[i]) == [m];
      assert m in sent && m.pid == docs[i].pid;
    }
    forall m | m in sent && m.pid == docs[i].pid ensures t.Some? {
      var k :| 0 <= k < |docs| && m in SentDoc(views[k], docs[k]);
      SentHasPid(views[k], docs[k], m);
    }
  }

  lemma SentHasPid(d: Directory, doc: Doc, m: Msg)
    requires m in SentDoc(d, doc)
    ensures m.pid == doc.pid && Find(d, doc.client, doc.typ).Some?
  {
  }

  /** And none for a record that is not pending. */
  lemma RestoreSparesOthers(s: State, client: string, docs: seq<Doc>, views: seq<Directory>, pid: Pid)
    requires Enabled(s, Restore(client, docs, views)) && !Pending(s.db, client, pid)
    ensures forall m :: m in RestoreSent(views, docs) ==> m.pid != pid
  {
    var n := Reached(views, docs);
    forall m | m in SentForAll(views[..n], docs[..n]) ensures m.pid != pid {
      SentIsOfDoc(views[..n], docs[..n], m);
      var k :| 0 <= k < n && m in SentDoc(views[..n][k], docs[..n][k]);
      SentHasPid(views[k], docs[k], m);
    }
  }

  /** A directory with a target for that client. */
  function Online(client: string, typ: string): Directory
    requires RedisKey(typ, client).Some?
  {
    Directory(map[RedisKey(typ, client).value := LoginValue("g", "c")], map["g" := "x"], {"x"})
  }

  lemma OnlineFound(client: string, typ: string)
    requires RedisKey(typ, client).Some?
    ensures Find(Online(client, typ), client, typ) == Some(Target("x", "c")) && !Panics(Online(client, typ), client, typ)
  {
    LoginRoundTripIff("g", "c");
    assert LoginValue("g", "c")[1] == '/';
  }

  /** A message for a record that is on its way to a gate can be delivered, and the record marked. */
  lemma Delivers(s: State, m: Msg) returns (es: seq<Event>)
    requires m in s.net && m.ToGate? && m.pid in s.db && |m.pid| == ID_LEN
    ensures Runs(s, es) && m.pid in After(s, es).db && After(s, es).db[m.pid].arrived
  {
    ObjectIDKeeps(m.pid);
    var to := ToClient(m.conn, m.pid, m.body);
    var e1, e2, e3 := Forward(m, true), Receive(to, true), Answer(Reply(m.pid), true);
    es := [e1, e2, e3];
    var s1 := Do(s, e1);
    var s2 := Do(s1, e2);
    Then(s2, e3, []);
    Then(s1, e2, [e3]);
    Then(s, e1, [e2, e3]);
  }

  /** A query has a result. */
  lemma {:induction false} Listed(db: map<Pid, Record>, pids: set<Pid>) returns (docs: seq<Doc>)
    requires pids <= db.Keys
    ensures forall i :: 0 <= i < |docs| ==> docs[i].pid in pids && docs[i] == DocOf(db, docs[i].pid)
    ensures forall p :: p in pids ==> DocOf(db, p) in docs
    ensures DistinctPids(docs)
    decreases |pids|
  {
    if pids == {} {
      docs := [];
    } else {
      var p :| p in pids;
      var rest := Listed(db, pids - {p});
      docs := rest + [DocOf(db, p)];
      assert docs[|rest|] == DocOf(db, p);
    }
  }

  lemma Redelivers(s: State, pid: Pid) returns (es: seq<Event>)
    requires Inv(s) && pid in s.db && !s.db[pid].arrived
    requires RedisKey(s.db[pid].typ, s.db[pid].client).Some?
    ensures Runs(s, es) && pid in After(s, es).db && After(s, es).db[pid].arrived
  {
    var r := s.db[pid];
    var e, m := CanRestore(s, pid);
    var more := Delivers(Do(s, e), m);
    Then(s, e, more);
    es := [e] + more;
  }

  lemma CanRestore(s: State, pid: Pid) returns (e: Event, m: Msg)
    requires pid in s.db && !s.db[pid].arrived && RedisKey(s.db[pid].typ, s.db[pid].client).Some?
    ensures Enabled(s, e) && m in Do(s, e).net && m.ToGate? && m.pid == pid && Do(s, e).db == s.db
  {
    var r := s.db[pid];
    var docs := Listed(s.db, set p | p in s.db && Pending(s.db, r.client, p));
    assert Pending(s.db, r.client, pid);
    var i :| 0 <= i < |docs| && docs[i] == DocOf(s.db, pid);
    var views := AllOnline(docs);
    e := Restore(r.client, docs, views);
    RestoreReaches(s, r.client, docs, views, i);
    var t := Find(views[i], r.client, r.typ);
    m := ToGate(t.value.gate, t.value.conn, pid, r.body);
    assert m in RestoreSent(views, docs);
  }

  /** Directories in which everybody can be found who can be found at all. */
  lemma AllOnline(docs: seq<Doc>) returns (views: seq<Directory>)
    ensures |views| == |docs| && Reached(views, docs) == |docs|
    ensures forall i :: 0 <= i < |docs| && RedisKey(docs[i].typ, docs[i].client).Some? ==>
      Find(views[i], docs[i].client, docs[i].typ).Some?
  {
    views := seq(|docs|, i requires 0 <= i < |docs| => OnlineFor(docs[i]));
    forall i | 0 <= i < |docs|
      ensures !Panics(views[i], docs[i].client, docs[i].typ)
      ensures RedisKey(docs[i].typ, docs[i].client).Some? ==> Find(views[i], docs[i].client, docs[i].typ).Some?
    {
      if RedisKey(docs[i].typ, docs[i].client).Some? {
        OnlineFound(docs[i].client, docs[i].typ);
      }
    }
  }

  function OnlineFor(doc: Doc): Directory {
    if RedisKey(doc.typ, doc.client).Some? then Online(doc.client, doc.typ) else Directory(map[], map[], {})
  }

  lemma ArrivedHasType(s: State, pid: Pid)
    requires Inv(s) && pid in s.db && s.db[pid].arrived
    ensures s.db[pid].typ == "server" || s.db[pid].typ == "client"
  {
    assert Delivered(s.db, s.ran, s.seen, pid);
  }

  ghost predicate CanArrive(s: State, pid: Pid) {
    exists more :: Runs(s, more) && pid in After(s, more).db && After(s, more).db[pid].arrived
  }

  /** The promise that a safe push always arrives holds of a record in the only sense a lossy network
      allows (from wherever the run stands, it can still arrive) exactly when its type is one of the
      two the service knows. A record of any other type is stored and never sent. */
  lemma CanArriveIff(es: seq<Event>, pid: Pid)
    requires Runs(FRESH, es) && pid in After(FRESH, es).db
    ensures var s := After(FRESH, es);
            CanArrive(s, pid) <==> s.db[pid].typ == "server" || s.db[pid].typ == "client"
  {
    var s := After(FRESH, es);
    RunKeepsInv(FRESH, es);
    if CanArrive(s, pid) {
      var more :| Runs(s, more) && pid in After(s, more).db && After(s, more).db[pid].arrived;
      RunKeepsInv(s, more);
      ArrivedHasType(After(s, more), pid);
    } else if !s.db[pid].arrived && (s.db[pid].typ == "server" || s.db[pid].typ == "client") {
      var more := Redelivers(s, pid);
    } else {
      assert Runs(s, []) && After(s, []) == s;
    }
  }

  /** A handler may run more than once for one record, as the documentation warns. */
  lemma DeliveryRepeats(s: State, m: Msg)
    requires m in s.net && m.ToClient?
    ensures Runs(s, [Receive(m, true), Receive(m, true)])
    ensures After(s, [Receive(m, true), Receive(m, true)]).ran
            == s.ran + [Handled(m.conn, m.pid, m.body), Handled(m.conn, m.pid, m.body)]
  {
    var e := Receive(m, true);
    Then(Do(s, e), e, []);
    Then(s, e, [e]);
  }

  // ---- What a push can come to ----

  /** An unsafe push leaves no record, and can be handled on the connection the directory gave, if the
      gate finds that open, and otherwise goes no further; nobody replies to it. */
  lemma UnsafeIsHandled(s: State, client: string, typ: string, body: seq<int>, d: Directory)
    requires Find(d, client, typ).Some?
    ensures var e1, t := Push(client, typ, false, body, None, d), Find(d, client, typ).value;
      var s1 := Do(s, e1);
      var e2 := Forward(ToGate(t.gate, t.conn, [], body), true);
      && s1.db == s.db && Enabled(s1, e2) && Do(s1, e2.(open := false)) == s1
      && var s2, e3 := Do(s1, e2), Receive(ToClient(t.conn, [], body), true);
         && Enabled(s2, e3) && Do(s2, e3).ran == s.ran + [Handled(t.conn, [], body)] && Do(s2, e3).db == s.db
         && forall m :: m in Do(s2, e3).net && m.Reply? ==> m in s.net
  {
    var t := Find(d, client, typ).value;
    assert Sent(d, client, typ, body, []) == [ToGate(t.gate, t.conn, [], body)];
    assert ToGate(t.gate, t.conn, [], body) in Elems([ToGate(t.gate, t.conn, [], body)]);
  }

  /** A safe push to a party that is found is stored, handled with its body and marked ARRIVED by the
      reply, if nothing is lost on the way. */
  lemma SafeIsHandled(s: State, client: string, typ: string, body: seq<int>, pid: Pid, d: Directory)
    returns (es: seq<Event>, t: State)
    requires Find(d, client, typ).Some? && |pid| == ID_LEN && pid !in s.db
    ensures |es| == 4 && Runs(s, es) && t == After(s, es)
    ensures t.db == s.db[pid := Record(client, typ, body, true)]
    ensures t.ran == s.ran + [Handled(Find(d, client, typ).value.conn, pid, body)]
  {
    var to := Find(d, client, typ).value;
    var m1, m2 := ToGate(to.gate, to.conn, pid, body), ToClient(to.conn, pid, body);
    var e1, e2, e3, e4 := Push(client, typ, true, body, Some(pid), d), Forward(m1, true), Receive(m2, true), Answer(Reply(pid), true);
    assert Sent(d, client, typ, body, pid) == [m1];
    assert m1 in Elems([m1]);
    ObjectIDKeeps(pid);
    var s1 := Do(s, e1);
    var s2 := Do(s1, e2);
    var s3 := Do(s2, e3);
    t := Do(s3, e4);
    Then(s3, e4, []);
    Then(s2, e3, [e4] + []);
    Then(s1, e2, [e3] + ([e4] + []));
    Then(s, e1, [e2] + ([e3] + ([e4] + [])));
    es := [e1] + ([e2] + ([e3] + ([e4] + [])));
  }
}
