/** The way of ordered requests: a client's connection to the gate, the gate's task pool
    (ms_framework/msf_simple_rpc.go, ms_framework/msf_task_pool_new.go), the pin of
    ms_framework/msf_remote_mgr.go, the connection to the service, and the separate goroutine there.

    A connection is a sequence: what is sent last arrives last. The reader of a service, waiting to
    hand over a request, holds the first of its sequence (see TaskPool.OrderedTasksKeepOrder). A pin
    is what RoutingTables.Choose makes of an ordered request: none is given up but by Unpin, the
    remote disappearing or the client's connection closing (see ChoiceIsPick and OthersKeepPins). */
module OrderedRequests {
  import opened Options
  import RoutingTables

  type Client = RoutingTables.Client
  type Service = RoutingTables.Service
  type Addr = RoutingTables.Addr

  datatype Key = Key(c: Client, r: Service)

  /** The n-th ordered request of a client to a service. */
  datatype Req = Req(key: Key, n: nat)

  /** A worker of the gate's pool: it has taken a request, and has then chosen its remote. */
  datatype Work = Taken(req: Req) | Routed(req: Req, to: Addr)

  const WORKERS := 500
  const QUEUE_SIZE := 10000000

  datatype State = State(
    sent: map<Key, nat>,           // how many each client has sent to each service
    up: map<Client, seq<Req>>,     // on the way to the gate
    queue: seq<Req>,               // the gate's pool: requests waiting
    workers: map<nat, Work>,       //   and requests with a worker
    pins: map<Key, Addr>,
    down: map<Addr, seq<Req>>,     // on the way to each service
    running: map<Addr, Req>,       // what each separate goroutine runs
    started: seq<Req>)             // in the order the handlers started

  const INIT := State(map[], map[], [], map[], map[], map[], map[], [])

  datatype Event =
    | Send(key: Key)
    | Read(c: Client)
    | Take(w: nat)
    | Pick(w: nat, to: Option<Addr>)
    | Forward(w: nat)
    | Start(a: Addr)
    | Finish(a: Addr)
    | Unpin(key: Key)

  function Up(s: State, c: Client): seq<Req> { if c in s.up then s.up[c] else [] }
  function Down(s: State, a: Addr): seq<Req> { if a in s.down then s.down[a] else [] }
  function SentBy(s: State, k: Key): nat { if k in s.sent then s.sent[k] else 0 }

  predicate Enabled(s: State, e: Event) {
    match e
    case Send(_) => true
    case Read(c) => Up(s, c) != [] && |s.queue| < QUEUE_SIZE
    case Take(w) => w < WORKERS && w !in s.workers && s.queue != []
    case Pick(w, to) => w in s.workers && s.workers[w].Taken? && (s.workers[w].req.key in s.pins ==> to == Some(s.pins[s.workers[w].req.key]))
    case Forward(w) => w in s.workers && s.workers[w].Routed?
    case Start(a) => Down(s, a) != [] && a !in s.running
    case Finish(a) => a in s.running
    case Unpin(_) => true
  }

  function Do(s: State, e: Event): State
    requires Enabled(s, e)
  {
    match e
    case Send(k) =>
      s.(sent := s.sent[k := SentBy(s, k) + 1], up := s.up[k.c := Up(s, k.c) + [Req(k, SentBy(s, k))]])
    case Read(c) => s.(up := s.up[c := Up(s, c)[1..]], queue := s.queue + [Up(s, c)[0]])
    case Take(w) => s.(queue := s.queue[1..], workers := s.workers[w := Taken(s.queue[0])])
    case Pick(w, to) =>
      var q := s.workers[w].req;
      if to.None? then s.(workers := s.workers - {w})
      else s.(workers := s.workers[w := Routed(q, to.value)], pins := s.pins[q.key := to.value])
    case Forward(w) =>
      var a := s.workers[w].to;
      s.(workers := s.workers - {w}, down := s.down[a := Down(s, a) + [s.workers[w].req]])
    case Start(a) =>
      var q := Down(s, a)[0];
      s.(down := s.down[a := Down(s, a)[1..]], running := s.running[a := q], started := s.started + [q])
    case Finish(a) => s.(running := s.running - {a})
    case Unpin(k) => s.(pins := s.pins - {k})
  }

  function Run(es: seq<Event>): Option<State> {
    if es == [] then Some(INIT)
    else
      var n := |es| - 1;
      var before := Run(es[..n]);
      if before.Some? && Enabled(before.value, es[n]) then Some(Do(before.value, es[n])) else None
  }

  // ---- The routing tables give such pins ----

  ghost predicate HasPins(t: RoutingTables.Tables, pins: map<Key, Addr>) {
    forall k :: k in pins ==> RoutingTables.Pinned(t, k.c, k.r, pins[k])
  }

  /** An ordered choice is a Pick. */
  lemma ChoiceIsPick(t: RoutingTables.Tables, pins: map<Key, Addr>, k: Key)
    requires HasPins(t, pins)
    ensures var (to, u) := RoutingTables.Choose(t, k.r, true, k.c);
      && (k in pins ==> to == Some(pins[k]))
      && HasPins(u, if to.Some? then pins[k := to.value] else pins)
  {
    RoutingTables.ChoicePins(t, k.r, k.c);
    RoutingTables.ChooseTouches(t, k.r, true, k.c);
    if k in pins {
      RoutingTables.CacheHit(t, k.r, k.c, pins[k]);
    }
  }

  /** Anything else leaves the pins, but for those it unpins: of an address that disappears or a client
      that closes. */
  lemma OthersKeepPins(t: RoutingTables.Tables, pins: map<Key, Addr>, e: RoutingTables.Event)
    requires HasPins(t, pins) && RoutingTables.Step(t, e).Some?
    ensures HasPins(RoutingTables.Step(t, e).value,
      map k | k in pins && !(e.Disappeared? && e.a == pins[k]) && !(e.Closed? && e.c == k.c) :: pins[k])
  {
    forall k | k in pins && !(e.Disappeared? && e.a == pins[k]) && !(e.Closed? && e.c == k.c)
      ensures RoutingTables.Pinned(RoutingTables.Step(t, e).value, k.c, k.r, pins[k])
    {
      RoutingTables.StepKeepsPin(t, e, k.c, k.r, pins[k]);
    }
  }

  // ---- Order ----

  /** The numbers of the requests of one key along a line. */
  function Numbers(line: seq<Req>, k: Key): seq<nat> {
    if line == [] then []
    else
      var n := |line| - 1;
      Numbers(line[..n], k) + Some1(line[n], k)
  }

  ghost predicate Rising(ns: seq<nat>) {
    forall i, j :: 0 <= i < j < |ns| ==> ns[i] < ns[j]
  }

  /** The handlers of the key's requests started in the order the requests were sent. */
  ghost predicate InOrder(s: State, k: Key) {
    Rising(Numbers(s.started, k))
  }

  /** In the gate's pool. */
  ghost predicate Pooled(s: State, q: Req) {
    q in s.queue || exists w :: Has(s, w, q)
  }

  predicate Has(s: State, w: nat, q: Req) {
    w in s.workers && s.workers[w].req == q
  }

  ghost predicate PoolHas(s: State, k: Key) {
    exists q :: Pooled(s, q) && q.key == k
  }

  /** Chosen a remote for, and not started. */
  ghost predicate UnderWay(s: State, k: Key) {
    || (exists w :: w in s.workers && s.workers[w].Routed? && s.workers[w].req.key == k)
    || (exists a, q :: a in s.down && q in s.down[a] && q.key == k)
  }

  /** A request is read into the pool only when none of its key is there, and a pin is lost only when
      none of its key is under way. */
  ghost predicate Careful(s: State, e: Event, k: Key)
    requires Enabled(s, e)
  {
    && (e.Read? && Up(s, e.c)[0].key == k ==> !PoolHas(s, k))
    && (e.Unpin? && e.key == k ==> !UnderWay(s, k))
  }

  ghost predicate CarefulRun(es: seq<Event>, k: Key) {
    && Run(es).Some?
    && (es != [] ==>
          var n := |es| - 1;
          Run(es[..n]).Some? && CarefulRun(es[..n], k) && Enabled(Run(es[..n]).value, es[n]) && Careful(Run(es[..n]).value, es[n], k))
  }

  /** A worker takes a request only when no other worker has one of its key, and again a pin is lost
      only when none of its key is under way. */
  ghost predicate InTurn(s: State, e: Event, k: Key)
    requires Enabled(s, e)
  {
    && (e.Take? && s.queue[0].key == k ==> NoWorker(s.workers, k))
    && (e.Unpin? && e.key == k ==> !UnderWay(s, k))
  }

  ghost predicate InTurnRun(es: seq<Event>, k: Key) {
    && Run(es).Some?
    && (es != [] ==>
          var n := |es| - 1;
          Run(es[..n]).Some? && InTurnRun(es[..n], k) && Enabled(Run(es[..n]).value, es[n]) && InTurn(Run(es[..n]).value, es[n], k))
  }

  // ---- Careful runs are in turn ----

  /** The pool has at most one request of the key. */
  ghost predicate Few(s: State, k: Key) {
    && (forall i, j :: 0 <= i < j < |s.queue| && s.queue[i].key == k ==> s.queue[j].key != k)
    && (NoWorker(s.workers, k) || forall q :: q in s.queue ==> q.key != k)
  }

  lemma StepKeepsFew(s: State, e: Event, k: Key)
    requires Few(s, k) && Enabled(s, e) && Careful(s, e, k)
    ensures Few(Do(s, e), k) && InTurn(s, e, k)
  {
    match e
    case Read(c) => ReadKeepsFew(s, c, k);
    case Take(w) => TakeKeepsFew(s, w, k);
    case _ => FewerWorkers(s, Do(s, e), k);
  }

  lemma ReadKeepsFew(s: State, c: Client, k: Key)
    requires Few(s, k) && Enabled(s, Read(c)) && Careful(s, Read(c), k)
    ensures Few(Do(s, Read(c)), k)
  {
    if Up(s, c)[0].key == k {
      assert forall i :: 0 <= i < |s.queue| ==> Pooled(s, s.queue[i]);
      forall w | w in s.workers ensures s.workers[w].req.key != k {
        assert Has(s, w, s.workers[w].req) && Pooled(s, s.workers[w].req);
      }
    }
  }

  lemma TakeKeepsFew(s: State, w: nat, k: Key)
    requires Few(s, k) && Enabled(s, Take(w))
    ensures Few(Do(s, Take(w)), k) && InTurn(s, Take(w), k)
  {
    var t := Do(s, Take(w));
    assert s.queue[0] in s.queue;
    assert forall i :: 0 <= i < |t.queue| ==> t.queue[i] == s.queue[i + 1];
  }

  lemma FewerWorkers(s: State, t: State, k: Key)
    requires Few(s, k) && t.queue == s.queue && t.workers.Keys <= s.workers.Keys
    requires forall w :: w in t.workers ==> t.workers[w].req == s.workers[w].req
    ensures Few(t, k)
  {
  }

  lemma {:induction false} CarefulIsInTurn(es: seq<Event>, k: Key)
    requires CarefulRun(es, k)
    ensures InTurnRun(es, k) && Few(Run(es).value, k)
    decreases |es|
  {
    if es == [] {
    } else {
      var n := |es| - 1;
      CarefulIsInTurn(es[..n], k);
      StepKeepsFew(Run(es[..n]).value, es[n], k);
    }
  }

  // ---- Numbers along a line ----

  function Some1(q: Req, k: Key): seq<nat> {
    if q.key == k then [q.n] else []
  }

  lemma NumbersAppend(line: seq<Req>, q: Req, k: Key)
    ensures Numbers(line + [q], k) == Numbers(line, k) + Some1(q, k)
  {
    assert (line + [q])[..|line|] == line;
  }

  lemma {:induction false} NumbersFirst(line: seq<Req>, k: Key)
    requires line != []
    ensures Numbers(line, k) == Some1(line[0], k) + Numbers(line[1..], k)
    decreases |line|
  {
    var n := |line| - 1;
    if n == 0 {
      assert line[..0] == [] && line[1..] == [];
    } else {
      NumbersFirst(line[..n], k);
      var mid := line[..n][1..];
      assert mid == line[1..][..n - 1];
      Regroup(Some1(line[0], k), Numbers(mid, k), Some1(line[n], k));
    }
  }

  lemma Regroup(a: seq<nat>, b: seq<nat>, c: seq<nat>)
    ensures (a + b) + c == a + (b + c)
  {
  }

  lemma {:induction false} NumbersEmpty(line: seq<Req>, k: Key)
    ensures Numbers(line, k) == [] <==> forall q :: q in line ==> q.key != k
  {
    if line == [] {
    } else {
      var n := |line| - 1;
      NumbersEmpty(line[..n], k);
      assert line == line[..n] + [line[n]];
    }
  }

  lemma {:induction false} NumbersHave(line: seq<Req>, q: Req)
    requires q in line
    ensures q.n in Numbers(line, q.key)
  {
    var n := |line| - 1;
    assert line == line[..n] + [line[n]];
    if q in line[..n] {
      NumbersHave(line[..n], q);
    } else {
      assert Numbers(line, q.key)[|Numbers(line, q.key)| - 1] == q.n;
    }
  }

  // ---- The invariant, for one key ----

  ghost predicate OneWorker(workers: map<nat, Work>, k: Key) {
    forall v, w :: v in workers && w in workers && workers[v].req.key == k && workers[w].req.key == k ==> v == w
  }

  ghost predicate NoWorker(workers: map<nat, Work>, k: Key) {
    forall w :: w in workers ==> workers[w].req.key != k
  }

  /** The number of the key's request that is with a worker, if one is. */
  ghost function Held(workers: map<nat, Work>, k: Key): seq<nat> {
    if w :| w in workers && workers[w].req.key == k then [workers[w].req.n] else []
  }

  lemma HeldIs(workers: map<nat, Work>, k: Key, w: nat)
    requires OneWorker(workers, k) && w in workers && workers[w].req.key == k
    ensures Held(workers, k) == [workers[w].req.n]
  {
  }

  lemma HeldNone(workers: map<nat, Work>, k: Key)
    ensures Held(workers, k) == [] <==> NoWorker(workers, k)
  {
  }

  /** How the numbers of a key are read off a line, as far as the invariant needs it. */
  type Numbering = seq<Req> -> seq<nat>

  ghost predicate AppendLaw(f: Numbering, line: seq<Req>, q: Req, k: Key) {
    f(line + [q]) == f(line) + Some1(q, k)
  }

  ghost predicate FirstLaw(f: Numbering, line: seq<Req>, k: Key) {
    line != [] ==> f(line) == Some1(line[0], k) + f(line[1..])
  }

  ghost predicate EmptyLaw(f: Numbering, line: seq<Req>, k: Key) {
    f(line) == [] <==> forall q :: q in line ==> q.key != k
  }

  ghost predicate Numbered(f: Numbering, k: Key) {
    && (forall line, q :: AppendLaw(f, line, q, k))
    && (forall line :: FirstLaw(f, line, k))
    && (forall line :: EmptyLaw(f, line, k))
  }

  function NumbersOf(k: Key): Numbering {
    line => Numbers(line, k)
  }

  lemma NumbersNumbered(k: Key)
    ensures Numbered(NumbersOf(k), k)
  {
    var f := NumbersOf(k);
    forall line, q ensures AppendLaw(f, line, q, k) {
      NumbersAppend(line, q, k);
    }
    forall line ensures FirstLaw(f, line, k) {
      if line != [] {
        NumbersFirst(line, k);
      }
    }
    forall line ensures EmptyLaw(f, line, k) {
      NumbersEmpty(line, k);
    }
  }

  function DownOf(s: State, k: Key, f: Numbering): seq<nat> {
    if k in s.pins then f(Down(s, s.pins[k])) else []
  }

  /** The numbers of the key at each stage of their way. */
  datatype Stages = Stages(started: seq<nat>, down: seq<nat>, held: seq<nat>, queue: seq<nat>, up: seq<nat>)

  ghost function StagesOf(s: State, k: Key, f: Numbering): Stages {
    Stages(f(s.started), DownOf(s, k, f), Held(s.workers, k), f(s.queue), f(Up(s, k.c)))
  }

  /** One after the other, from those started to those just sent. */
  function Line(g: Stages): seq<nat> {
    g.started + g.down + g.held + g.queue + g.up
  }

  ghost predicate LineOk(line: seq<nat>, bound: nat) {
    Rising(line) && forall i :: 0 <= i < |line| ==> line[i] < bound
  }

  // A number moves on from one stage to the next, and the line is the same; or it is new, or left out.

  lemma UpToQueue(g: Stages, h: Stages, n: nat)
    requires g.up == [n] + h.up && h == g.(queue := g.queue + [n], up := h.up)
    ensures Line(h) == Line(g)
  {
  }

  lemma QueueToHeld(g: Stages, h: Stages, n: nat)
    requires g.held == [] && g.queue == [n] + h.queue && h == g.(held := [n], queue := h.queue)
    ensures Line(h) == Line(g)
  {
  }

  lemma HeldToDown(g: Stages, h: Stages, n: nat)
    requires g.held == [n] && h == g.(down := g.down + [n], held := [])
    ensures Line(h) == Line(g)
  {
  }

  lemma DownToStarted(g: Stages, h: Stages, n: nat)
    requires g.down == [n] + h.down && h == g.(started := g.started + [n], down := h.down)
    ensures Line(h) == Line(g)
  {
  }

  lemma NewInUp(g: Stages, h: Stages, n: nat)
    requires LineOk(Line(g), n) && h == g.(up := g.up + [n])
    ensures LineOk(Line(h), n + 1)
  {
    assert Line(h) == Line(g) + [n];
  }

  lemma HeldOut(g: Stages, h: Stages, n: nat, bound: nat)
    requires LineOk(Line(g), bound) && g.held == [n] && h == g.(held := [])
    ensures LineOk(Line(h), bound)
  {
    var all, some, at := Line(g), Line(h), |g.started + g.down|;
    assert all == g.started + g.down + [n] + (g.queue + g.up) && some == g.started + g.down + (g.queue + g.up);
    assert forall i :: 0 <= i < |some| ==> some[i] == all[if i < at then i else i + 1];
  }

  lemma StartedRises(g: Stages)
    requires Rising(Line(g))
    ensures Rising(g.started)
  {
    assert forall i :: 0 <= i < |g.started| ==> Line(g)[i] == g.started[i];
  }

  /** Only the client's own connection carries its requests. */
  ghost predicate UpOk(up: map<Client, seq<Req>>, k: Key, f: Numbering) {
    forall c :: c in up && c != k.c ==> f(up[c]) == []
  }

  /** What is under way is under way to the pinned address. */
  ghost predicate PinOk(workers: map<nat, Work>, pins: map<Key, Addr>, down: map<Addr, seq<Req>>, k: Key, f: Numbering) {
    && (forall w :: w in workers && workers[w].Routed? && workers[w].req.key == k ==> k in pins && pins[k] == workers[w].to)
    && (forall a :: a in down && !(k in pins && pins[k] == a) ==> f(down[a]) == [])
  }

  /** At most one worker has a request of the key, and its requests are on its own lines. */
  ghost predicate Placed(s: State, k: Key, f: Numbering) {
    && f([]) == []
    && OneWorker(s.workers, k)
    && UpOk(s.up, k, f) && PinOk(s.workers, s.pins, s.down, k, f)
  }

  ghost predicate Inv(s: State, k: Key, f: Numbering) {
    LineOk(Line(StagesOf(s, k, f)), SentBy(s, k)) && Placed(s, k, f)
  }

  lemma SendMoves(s: State, key: Key, k: Key, f: Numbering)
    requires Numbered(f, k) && Placed(s, k, f)
    ensures var t, g := Do(s, Send(key)), StagesOf(s, k, f);
      Placed(t, k, f) && StagesOf(t, k, f) == if key == k then g.(up := g.up + [SentBy(s, k)]) else g
  {
    assert AppendLaw(f, Up(s, key.c), Req(key, SentBy(s, key)), k);
  }

  lemma SendKeepsInv(s: State, key: Key, k: Key, f: Numbering)
    requires Numbered(f, k) && Inv(s, k, f)
    ensures Inv(Do(s, Send(key)), k, f)
  {
    SendMoves(s, key, k, f);
    if key == k {
      NewInUp(StagesOf(s, k, f), StagesOf(Do(s, Send(key)), k, f), SentBy(s, k));
    }
  }

  lemma ReadMoves(s: State, c: Client, k: Key, f: Numbering)
    requires Numbered(f, k) && Placed(s, k, f) && Enabled(s, Read(c))
    ensures var t, g, n := Do(s, Read(c)), StagesOf(s, k, f), Up(s, c)[0].n;
      var h := StagesOf(t, k, f);
      && Placed(t, k, f)
      && if Up(s, c)[0].key == k then g.up == [n] + h.up && h == g.(queue := g.queue + [n], up := h.up)
         else h == g
  {
    assert FirstLaw(f, Up(s, c), k);
    assert AppendLaw(f, s.queue, Up(s, c)[0], k);
    ReadStages(s, c, Up(s, c)[1..], s.queue + [Up(s, c)[0]], Up(s, c)[0], k, f);
  }

  lemma ReadStages(s: State, c: Client, rest: seq<Req>, queue: seq<Req>, x: Req, k: Key, f: Numbering)
    requires Placed(s, k, f) && f(Up(s, c)) == Some1(x, k) + f(rest)
    requires f(queue) == f(s.queue) + Some1(x, k)
    ensures var t, g := s.(up := s.up[c := rest], queue := queue), StagesOf(s, k, f);
      var h := StagesOf(t, k, f);
      && Placed(t, k, f)
      && if x.key == k then g.up == [x.n] + h.up && h == g.(queue := g.queue + [x.n], up := h.up) else h == g
  {
    assert x.key == k ==> c == k.c;
  }

  lemma ReadKeepsInv(s: State, c: Client, k: Key, f: Numbering)
    requires Numbered(f, k) && Inv(s, k, f) && Enabled(s, Read(c))
    ensures Inv(Do(s, Read(c)), k, f)
  {
    ReadMoves(s, c, k, f);
    if Up(s, c)[0].key == k {
      UpToQueue(StagesOf(s, k, f), StagesOf(Do(s, Read(c)), k, f), Up(s, c)[0].n);
    }
  }

  lemma TakeMoves(s: State, w: nat, k: Key, f: Numbering)
    requires Numbered(f, k) && Placed(s, k, f) && Enabled(s, Take(w)) && InTurn(s, Take(w), k)
    ensures var t, g, n := Do(s, Take(w)), StagesOf(s, k, f), s.queue[0].n;
      var h := StagesOf(t, k, f);
      && Placed(t, k, f)
      && if s.queue[0].key == k then g.held == [] && g.queue == [n] + h.queue && h == g.(held := [n], queue := h.queue)
         else h == g
  {
    assert FirstLaw(f, s.queue, k);
    TakeStages(s, w, s.queue[0], s.queue[1..], k, f);
  }

  lemma TakeStages(s: State, w: nat, q: Req, rest: seq<Req>, k: Key, f: Numbering)
    requires Placed(s, k, f) && w !in s.workers && f(s.queue) == Some1(q, k) + f(rest)
    requires q.key == k ==> NoWorker(s.workers, k)
    ensures var t, g := s.(queue := rest, workers := s.workers[w := Taken(q)]), StagesOf(s, k, f);
      var h := StagesOf(t, k, f);
      && Placed(t, k, f)
      && if q.key == k then g.held == [] && h == g.(held := [q.n], queue := h.queue) else h == g
  {
    HeldNone(s.workers, k);
    TakeHeld(s.workers, w, q, k);
  }

  lemma TakeKeepsInv(s: State, w: nat, k: Key, f: Numbering)
    requires Numbered(f, k) && Inv(s, k, f) && Enabled(s, Take(w)) && InTurn(s, Take(w), k)
    ensures Inv(Do(s, Take(w)), k, f)
  {
    TakeMoves(s, w, k, f);
    if s.queue[0].key == k {
      QueueToHeld(StagesOf(s, k, f), StagesOf(Do(s, Take(w)), k, f), s.queue[0].n);
    }
  }

  lemma TakeHeld(workers: map<nat, Work>, w: nat, q: Req, k: Key)
    requires w !in workers && OneWorker(workers, k) && (q.key == k ==> Held(workers, k) == [])
    ensures var after := workers[w := Taken(q)];
      OneWorker(after, k) && Held(after, k) == if q.key == k then [q.n] else Held(workers, k)
  {
    var after := workers[w := Taken(q)];
    HeldNone(workers, k);
    HeldNone(after, k);
    if q.key == k {
      HeldIs(after, k, w);
    } else if !NoWorker(workers, k) {
      var v :| v in workers && workers[v].req.key == k;
      HeldIs(workers, k, v);
      HeldIs(after, k, v);
    }
  }

  /** A worker is free again. */
  lemma FreeHeld(workers: map<nat, Work>, w: nat, k: Key)
    requires w in workers && OneWorker(workers, k)
    ensures var after := workers - {w};
      OneWorker(after, k) && Held(after, k) == if workers[w].req.key == k then [] else Held(workers, k)
  {
    var after := workers - {w};
    HeldNone(workers, k);
    HeldNone(after, k);
    if workers[w].req.key != k && !NoWorker(workers, k) {
      var v :| v in workers && workers[v].req.key == k;
      HeldIs(workers, k, v);
      HeldIs(after, k, v);
    }
  }

  /** A worker goes on with the same request. */
  lemma SameHeld(workers: map<nat, Work>, w: nat, work: Work, k: Key)
    requires w in workers && work.req == workers[w].req && OneWorker(workers, k)
    ensures var after := workers[w := work]; OneWorker(after, k) && Held(after, k) == Held(workers, k)
  {
    var after := workers[w := work];
    HeldNone(workers, k);
    HeldNone(after, k);
    if !NoWorker(workers, k) {
      var v :| v in workers && workers[v].req.key == k;
      HeldIs(workers, k, v);
      HeldIs(after, k, v);
    }
  }

  lemma RefuseMoves(s: State, w: nat, k: Key, f: Numbering)
    requires Numbered(f, k) && Placed(s, k, f) && Enabled(s, Pick(w, None))
    ensures var t, g := Do(s, Pick(w, None)), StagesOf(s, k, f);
      && Placed(t, k, f)
      && if s.workers[w].req.key == k then g.held == [s.workers[w].req.n] && StagesOf(t, k, f) == g.(held := [])
         else StagesOf(t, k, f) == g
  {
    FreeHeld(s.workers, w, k);
    if s.workers[w].req.key == k {
      HeldIs(s.workers, k, w);
    }
  }

  lemma RefuseKeepsInv(s: State, w: nat, k: Key, f: Numbering)
    requires Numbered(f, k) && Inv(s, k, f) && Enabled(s, Pick(w, None))
    ensures Inv(Do(s, Pick(w, None)), k, f)
  {
    RefuseMoves(s, w, k, f);
    if s.workers[w].req.key == k {
      HeldOut(StagesOf(s, k, f), StagesOf(Do(s, Pick(w, None)), k, f), s.workers[w].req.n, SentBy(s, k));
    }
  }

  lemma PickKeepsInv(s: State, w: nat, a: Addr, k: Key, f: Numbering)
    requires Numbered(f, k) && Inv(s, k, f) && Enabled(s, Pick(w, Some(a)))
    ensures Inv(Do(s, Pick(w, Some(a))), k, f)
  {
    SameHeld(s.workers, w, Routed(s.workers[w].req, a), k);
    assert DownOf(Do(s, Pick(w, Some(a))), k, f) == DownOf(s, k, f);
    assert StagesOf(Do(s, Pick(w, Some(a))), k, f) == StagesOf(s, k, f);
  }

  lemma ForwardMoves(s: State, w: nat, k: Key, f: Numbering)
    requires Numbered(f, k) && Placed(s, k, f) && Enabled(s, Forward(w))
    ensures var t, g, n := Do(s, Forward(w)), StagesOf(s, k, f), s.workers[w].req.n;
      && Placed(t, k, f)
      && if s.workers[w].req.key == k then g.held == [n] && StagesOf(t, k, f) == g.(down := g.down + [n], held := [])
         else StagesOf(t, k, f) == g
  {
    assert AppendLaw(f, Down(s, s.workers[w].to), s.workers[w].req, k);
    ForwardStages(s, w, Down(s, s.workers[w].to) + [s.workers[w].req], k, f);
  }

  lemma ForwardStages(s: State, w: nat, line: seq<Req>, k: Key, f: Numbering)
    requires Placed(s, k, f) && Enabled(s, Forward(w))
    requires f(line) == f(Down(s, s.workers[w].to)) + Some1(s.workers[w].req, k)
    ensures var t := s.(workers := s.workers - {w}, down := s.down[s.workers[w].to := line]);
      var g, n := StagesOf(s, k, f), s.workers[w].req.n;
      && Placed(t, k, f)
      && if s.workers[w].req.key == k then g.held == [n] && StagesOf(t, k, f) == g.(down := g.down + [n], held := [])
         else StagesOf(t, k, f) == g
  {
    FreeHeld(s.workers, w, k);
    if s.workers[w].req.key == k {
      HeldIs(s.workers, k, w);
    }
  }

  lemma ForwardKeepsInv(s: State, w: nat, k: Key, f: Numbering)
    requires Numbered(f, k) && Inv(s, k, f) && Enabled(s, Forward(w))
    ensures Inv(Do(s, Forward(w)), k, f)
  {
    ForwardMoves(s, w, k, f);
    if s.workers[w].req.key == k {
      HeldToDown(StagesOf(s, k, f), StagesOf(Do(s, Forward(w)), k, f), s.workers[w].req.n);
    }
  }

  lemma StartMoves(s: State, a: Addr, k: Key, f: Numbering)
    requires Numbered(f, k) && Placed(s, k, f) && Enabled(s, Start(a))
    ensures var t, g, n := Do(s, Start(a)), StagesOf(s, k, f), Down(s, a)[0].n;
      var h := StagesOf(t, k, f);
      && Placed(t, k, f)
      && if Down(s, a)[0].key == k then g.down == [n] + h.down && h == g.(started := g.started + [n], down := h.down)
         else h == g
  {
    assert FirstLaw(f, Down(s, a), k);
    assert AppendLaw(f, s.started, Down(s, a)[0], k);
    StartStages(s, a, Down(s, a)[0], Down(s, a)[1..], s.started + [Down(s, a)[0]], k, f);
  }

  lemma StartStages(s: State, a: Addr, q: Req, rest: seq<Req>, started: seq<Req>, k: Key, f: Numbering)
    requires Placed(s, k, f) && f(Down(s, a)) == Some1(q, k) + f(rest)
    requires f(started) == f(s.started) + Some1(q, k)
    ensures var t, g := s.(down := s.down[a := rest], running := s.running[a := q], started := started), StagesOf(s, k, f);
      var h := StagesOf(t, k, f);
      && Placed(t, k, f)
      && if q.key == k then g.down == [q.n] + h.down && h == g.(started := g.started + [q.n], down := h.down) else h == g
  {
  }

  lemma StartKeepsInv(s: State, a: Addr, k: Key, f: Numbering)
    requires Numbered(f, k) && Inv(s, k, f) && Enabled(s, Start(a))
    ensures Inv(Do(s, Start(a)), k, f)
  {
    StartMoves(s, a, k, f);
    if Down(s, a)[0].key == k {
      DownToStarted(StagesOf(s, k, f), StagesOf(Do(s, Start(a)), k, f), Down(s, a)[0].n);
    }
  }

  lemma UnpinKeepsInv(s: State, key: Key, k: Key, f: Numbering)
    requires Numbered(f, k) && Inv(s, k, f) && InTurn(s, Unpin(key), k)
    ensures Inv(Do(s, Unpin(key)), k, f)
  {
    if key == k {
      forall a | a in s.down ensures f(s.down[a]) == [] {
        assert EmptyLaw(f, s.down[a], k);
      }
      assert DownOf(s, k, f) == [];
    }
    assert StagesOf(Do(s, Unpin(key)), k, f) == StagesOf(s, k, f);
  }

  lemma StepKeepsInv(s: State, e: Event, k: Key, f: Numbering)
    requires Numbered(f, k) && Inv(s, k, f) && Enabled(s, e) && InTurn(s, e, k)
    ensures Inv(Do(s, e), k, f)
  {
    match e
    case Send(key) => SendKeepsInv(s, key, k, f);
    case Read(c) => ReadKeepsInv(s, c, k, f);
    case Take(w) => TakeKeepsInv(s, w, k, f);
    case Pick(w, None) => RefuseKeepsInv(s, w, k, f);
    case Pick(w, Some(a)) => PickKeepsInv(s, w, a, k, f);
    case Forward(w) => ForwardKeepsInv(s, w, k, f);
    case Start(a) => StartKeepsInv(s, a, k, f);
    case Finish(a) => assert StagesOf(Do(s, e), k, f) == StagesOf(s, k, f);
    case Unpin(key) => UnpinKeepsInv(s, key, k, f);
  }

  lemma {:induction false} RunKeepsInv(es: seq<Event>, k: Key, f: Numbering)
    requires Numbered(f, k) && InTurnRun(es, k)
    ensures Inv(Run(es).value, k, f)
    decreases |es|
  {
    if es == [] {
      assert EmptyLaw(f, [], k);
      HeldNone(map[], k);
    } else {
      var n := |es| - 1;
      RunKeepsInv(es[..n], k, f);
      StepKeepsInv(Run(es[..n]).value, es[n], k, f);
    }
  }

  /** Ordered requests keep their order: in every run in turn, with any number of them in the pool at
      a time, the handlers of a client's requests to a service start in the order the client sent
      them. */
  lemma OrderKeptInTurn(es: seq<Event>, k: Key)
    requires InTurnRun(es, k)
    ensures InOrder(Run(es).value, k)
  {
    NumbersNumbered(k);
    RunKeepsInv(es, k, NumbersOf(k));
    StartedRises(StagesOf(Run(es).value, k, NumbersOf(k)));
  }

  /** So they do in every careful run. */
  lemma OrderKept(es: seq<Event>, k: Key)
    requires CarefulRun(es, k)
    ensures InOrder(Run(es).value, k)
  {
    CarefulIsInTurn(es, k);
    OrderKeptInTurn(es, k);
  }

  // ---- The condition is exact ----

  /** A step that neither reads a request into the pool nor gives up a pin. */
  predicate Quiet(e: Event) {
    !e.Read? && !e.Unpin?
  }

  ghost predicate AllQuiet(fs: seq<Event>) {
    forall i :: 0 <= i < |fs| ==> Quiet(fs[i])
  }

  ghost predicate LeadsToSwap(es: seq<Event>, fs: seq<Event>, k: Key) {
    AllQuiet(fs) && Run(es + fs).Some? && !InOrder(Run(es + fs).value, k)
  }

  ghost predicate CanSwap(es: seq<Event>, k: Key) {
    exists fs :: LeadsToSwap(es, fs, k)
  }

  lemma StepThenSwap(es: seq<Event>, e: Event, k: Key)
    requires Quiet(e) && CanSwap(es + [e], k)
    ensures CanSwap(es, k)
  {
    var fs :| LeadsToSwap(es + [e], fs, k);
    assert es + [e] + fs == es + ([e] + fs);
    assert LeadsToSwap(es, [e] + fs, k);
  }

  lemma {:induction false} QuietStaysCareful(es: seq<Event>, fs: seq<Event>, k: Key)
    requires CarefulRun(es, k) && Run(es + fs).Some? && AllQuiet(fs)
    ensures CarefulRun(es + fs, k)
    decreases |fs|
  {
    if fs == [] {
      assert es + fs == es;
    } else {
      var n := |fs| - 1;
      assert (es + fs)[..|es + fs| - 1] == es + fs[..n];
      QuietStaysCareful(es, fs[..n], k);
    }
  }

  lemma Extend(es: seq<Event>, s: State, e: Event) returns (t: State)
    requires Run(es) == Some(s) && Enabled(s, e)
    ensures Run(es + [e]) == Some(t) && t == Do(s, e)
  {
    assert (es + [e])[..|es|] == es;
    t := Do(s, e);
  }

  /** Two requests of one client to one service, x sent before y. */
  predicate Earlier(x: Req, y: Req) {
    x.key == y.key && x.n < y.n
  }

  /** An address ChoiceRemote may answer for this key. */
  function Choice(s: State, k: Key): Option<Addr> {
    Some(if k in s.pins then s.pins[k] else "")
  }

  /** y has started and x starts now. */
  lemma StartsSwapped(s: State, x: Req, y: Req, a: Addr)
    requires Earlier(x, y) && y in s.started && Enabled(s, Start(a)) && Down(s, a)[0] == x
    ensures !InOrder(Do(s, Start(a)), x.key)
  {
    NumbersHave(s.started, y);
    NumbersAppend(s.started, x, x.key);
    var before, after := Numbers(s.started, x.key), Numbers(s.started + [x], x.key);
    var i :| 0 <= i < |before| && before[i] == y.n;
    assert after[i] == y.n && after[|before|] == x.n;
  }

  lemma SwapsNow(es: seq<Event>, s: State, x: Req, y: Req, a: Addr)
    requires Run(es) == Some(s) && Earlier(x, y) && y in s.started && Enabled(s, Start(a)) && Down(s, a)[0] == x
    ensures CanSwap(es + [Start(a)], x.key)
  {
    var t := Extend(es, s, Start(a));
    StartsSwapped(s, x, y, a);
    assert es + [Start(a)] + [] == es + [Start(a)];
    assert LeadsToSwap(es + [Start(a)], [], x.key);
  }

  /** y has started while x is on the way to a service. */
  lemma {:induction false} DownSwaps(es: seq<Event>, s: State, x: Req, y: Req, a: Addr)
    requires Run(es) == Some(s) && Earlier(x, y) && y in s.started && x in Down(s, a)
    ensures CanSwap(es, x.key)
    decreases |Down(s, a)|, a in s.running
  {
    if a in s.running {
      var t := Frees(es, s, a);
      DownSwaps(es + [Finish(a)], t, x, y, a);
      StepThenSwap(es, Finish(a), x.key);
    } else {
      var t := StartsNext(es, s, a);
      if Down(s, a)[0] == x {
        SwapsNow(es, s, x, y, a);
      } else {
        DownSwaps(es + [Start(a)], t, x, y, a);
      }
      StepThenSwap(es, Start(a), x.key);
    }
  }

  /** y has started while x is with a worker of the gate. */
  lemma {:induction false} HeldSwaps(es: seq<Event>, s: State, x: Req, y: Req, v: nat)
    requires Run(es) == Some(s) && Earlier(x, y) && y in s.started && Has(s, v, x)
    ensures CanSwap(es, x.key)
    decreases s.workers[v].Taken?
  {
    if s.workers[v].Taken? {
      var e := Pick(v, Choice(s, x.key));
      var t := Extend(es, s, e);
      HeldSwaps(es + [e], t, x, y, v);
      StepThenSwap(es, e, x.key);
    } else {
      var a := s.workers[v].to;
      var t := Extend(es, s, Forward(v));
      assert Down(t, a) == Down(s, a) + [x];
      DownSwaps(es + [Forward(v)], t, x, y, a);
      StepThenSwap(es, Forward(v), x.key);
    }
  }

  lemma Frees(es: seq<Event>, s: State, a: Addr) returns (t: State)
    requires Run(es) == Some(s) && a in s.running
    ensures Run(es + [Finish(a)]) == Some(t) && a !in t.running
    ensures t.workers == s.workers && t.started == s.started && Down(t, a) == Down(s, a)
  {
    t := Extend(es, s, Finish(a));
  }

  lemma StartsNext(es: seq<Event>, s: State, a: Addr) returns (t: State)
    requires Run(es) == Some(s) && a !in s.running && Down(s, a) != []
    ensures Run(es + [Start(a)]) == Some(t) && t.workers == s.workers
    ensures Down(s, a) == [Down(s, a)[0]] + Down(t, a) && t.started == s.started + [Down(s, a)[0]]
  {
    t := Extend(es, s, Start(a));
    assert Down(t, a) == Down(s, a)[1..];
  }

  /** y is on the way to a service while x is with a worker of the gate. */
  lemma {:induction false} DownOvertakes(es: seq<Event>, s: State, x: Req, y: Req, v: nat, a: Addr)
    requires Run(es) == Some(s) && Earlier(x, y) && Has(s, v, x) && y in Down(s, a)
    ensures CanSwap(es, x.key)
    decreases |Down(s, a)|, a in s.running
  {
    if a in s.running {
      var t := Frees(es, s, a);
      DownOvertakes(es + [Finish(a)], t, x, y, v, a);
      StepThenSwap(es, Finish(a), x.key);
    } else {
      var t := StartsNext(es, s, a);
      if Down(s, a)[0] == y {
        HeldSwaps(es + [Start(a)], t, x, y, v);
      } else {
        DownOvertakes(es + [Start(a)], t, x, y, v, a);
      }
      StepThenSwap(es, Start(a), x.key);
    }
  }

  /** Both are with a worker. */
  lemma {:induction false} HeldOvertakes(es: seq<Event>, s: State, x: Req, y: Req, v: nat, w: nat)
    requires Run(es) == Some(s) && Earlier(x, y) && Has(s, v, x) && Has(s, w, y)
    ensures CanSwap(es, x.key)
    decreases s.workers[w].Taken?
  {
    if s.workers[w].Taken? {
      var e := Pick(w, Choice(s, y.key));
      var t := Extend(es, s, e);
      HeldOvertakes(es + [e], t, x, y, v, w);
      StepThenSwap(es, e, x.key);
    } else {
      var a := s.workers[w].to;
      var t := Extend(es, s, Forward(w));
      assert Down(t, a) == Down(s, a) + [y];
      DownOvertakes(es + [Forward(w)], t, x, y, v, a);
      StepThenSwap(es, Forward(w), x.key);
    }
  }

  function Busy(s: State, w: nat): nat {
    if w !in s.workers then 0 else if s.workers[w].Routed? then 1 else 2
  }

  /** The step by which a busy worker gets on with its request. */
  function GetsOn(s: State, w: nat): Event
    requires w in s.workers
  {
    if s.workers[w].Routed? then Forward(w) else Pick(w, Choice(s, s.workers[w].req.key))
  }

  lemma GetsOnOk(s: State, w: nat)
    requires w in s.workers
    ensures Enabled(s, GetsOn(s, w)) && Quiet(GetsOn(s, w))
    ensures var t := Do(s, GetsOn(s, w));
      t.queue == s.queue && Busy(t, w) < Busy(s, w) && forall v, q :: v != w ==> (Has(t, v, q) <==> Has(s, v, q))
  {
  }

  /** A worker that x does not depend on: one of the first two. */
  function Spare(s: State, x: Req): nat {
    if Has(s, 0, x) then 1 else 0
  }

  /** y is the last in the queue while x is in the pool: one worker holds on to x, another one works
      off the queue. */
  lemma {:induction false} QueueOvertakes(es: seq<Event>, s: State, x: Req, y: Req)
    requires Run(es) == Some(s) && Earlier(x, y) && Pooled(s, x) && s.queue != [] && s.queue[|s.queue| - 1] == y
    ensures CanSwap(es, x.key)
    decreases |s.queue|, Busy(s, Spare(s, x))
  {
    var w := Spare(s, x);
    if w in s.workers {
      var e := GetsOn(s, w);
      GetsOnOk(s, w);
      var t := Extend(es, s, e);
      StillPooled(s, t, x, w);
      QueueOvertakes(es + [e], t, x, y);
      StepThenSwap(es, e, x.key);
    } else {
      var t := Extend(es, s, Take(w));
      TakeKeepsPooled(s, w, x);
      if |s.queue| == 1 {
        assert s.queue == [y] && t.queue == [];
        var v :| Has(t, v, x);
        HeldOvertakes(es + [Take(w)], t, x, y, v, w);
      } else {
        QueueOvertakes(es + [Take(w)], t, x, y);
      }
      StepThenSwap(es, Take(w), x.key);
    }
  }

  lemma StillPooled(s: State, t: State, x: Req, w: nat)
    requires Pooled(s, x) && w == Spare(s, x) && t.queue == s.queue
    requires forall v, q :: v != w ==> (Has(t, v, q) <==> Has(s, v, q))
    requires Busy(t, w) < Busy(s, w) && (w in t.workers ==> t.workers[w].req == s.workers[w].req)
    ensures Pooled(t, x) && Spare(t, x) == w
  {
  }

  lemma TakeKeepsPooled(s: State, w: nat, x: Req)
    requires Enabled(s, Take(w)) && Pooled(s, x)
    ensures Pooled(Do(s, Take(w)), x)
  {
    var t := Do(s, Take(w));
    if v :| Has(s, v, x) {
      assert Has(t, v, x);
    } else {
      assert s.queue == [s.queue[0]] + t.queue;
      assert x == s.queue[0] ==> Has(t, w, x);
    }
  }

  /** What is in the pool was sent before what is on its way there. */
  lemma PooledIsEarlier(s: State, x: Req, y: Req)
    requires Inv(s, x.key, NumbersOf(x.key)) && Pooled(s, x) && x.key == y.key && Up(s, y.key.c) != [] && Up(s, y.key.c)[0] == y
    ensures Earlier(x, y)
  {
    var k := x.key;
    NumbersFirst(Up(s, k.c), k);
    if x in s.queue {
      NumbersHave(s.queue, x);
    } else {
      var w :| Has(s, w, x);
      HeldIs(s.workers, k, w);
    }
    InMiddle(StagesOf(s, k, NumbersOf(k)), x.n, y.n);
  }

  lemma InMiddle(g: Stages, m: nat, n: nat)
    requires Rising(Line(g)) && (m in g.held || m in g.queue) && g.up != [] && g.up[0] == n
    ensures m < n
  {
    var all, at := Line(g), |g.started| + |g.down|;
    assert all[at + |g.held| + |g.queue|] == n;
    if m in g.held {
      var i :| 0 <= i < |g.held| && g.held[i] == m;
      assert all[at + i] == m;
    } else {
      var i :| 0 <= i < |g.queue| && g.queue[i] == m;
      assert all[at + |g.held| + i] == m;
    }
  }

  /** Careful is exact for reading. After any careful run, the gate's reader takes a further ordered
      request into the pool: then some further run, by steps that read nothing and give up no pin,
      starts requests of that client to that service out of order, exactly if the pool still had one. */
  lemma ReadSwapsIff(es: seq<Event>, s: State, c: Client)
    requires Run(es) == Some(s) && Enabled(s, Read(c)) && CarefulRun(es, Up(s, c)[0].key)
    ensures CanSwap(es + [Read(c)], Up(s, c)[0].key) <==> PoolHas(s, Up(s, c)[0].key)
  {
    var y := Up(s, c)[0];
    var k, t := y.key, Do(s, Read(c));
    if PoolHas(s, k) {
      var x :| Pooled(s, x) && x.key == k;
      NumbersNumbered(k);
      CarefulIsInTurn(es, k);
      RunKeepsInv(es, k, NumbersOf(k));
      NumbersHave(Up(s, c), y);
      PooledIsEarlier(s, x, y);
      var u := Extend(es, s, Read(c));
      ReadKeepsPooled(s, c, x);
      QueueOvertakes(es + [Read(c)], u, x, y);
    } else {
      assert (es + [Read(c)])[..|es|] == es;
      forall fs ensures !LeadsToSwap(es + [Read(c)], fs, k) {
        if AllQuiet(fs) && Run(es + [Read(c)] + fs).Some? {
          QuietStaysCareful(es + [Read(c)], fs, k);
          OrderKept(es + [Read(c)] + fs, k);
        }
      }
    }
  }

  lemma ReadKeepsPooled(s: State, c: Client, x: Req)
    requires Enabled(s, Read(c)) && Pooled(s, x)
    ensures Pooled(Do(s, Read(c)), x)
  {
    var t := Do(s, Read(c));
    if w :| Has(s, w, x) {
      assert Has(t, w, x);
    }
  }

  /** A client that sends two ordered requests in a row can see the second one handled first. */
  lemma TwoInARowSwap(k: Key) returns (es: seq<Event>)
    ensures Run(es).Some? && !InOrder(Run(es).value, k)
  {
    var e1, e2 := Send(k), Read(k.c);
    var s1 := Extend([], INIT, e1);
    var s2 := Extend([] + [e1], s1, e1);
    var s3 := Extend([] + [e1] + [e1], s2, e2);
    var s4 := Extend([] + [e1] + [e1] + [e2], s3, e2);
    var x, y := Req(k, 0), Req(k, 1);
    assert s4.queue == [x, y];
    es := [] + [e1] + [e1] + [e2] + [e2];
    QueueOvertakes(es, s4, x, y);
    var fs :| LeadsToSwap(es, fs, k);
    es := es + fs;
  }

  // ---- Lost pins ----

  /** A request that meets no other on its way comes to the address its client is pinned to, or to
      any address if it has no pin. */
  lemma GoesThrough(es: seq<Event>, s: State, k: Key, a: Addr) returns (fs: seq<Event>, t: State)
    requires Run(es) == Some(s) && Up(s, k.c) == [] && s.queue == [] && s.workers == map[]
    requires k in s.pins ==> s.pins[k] == a
    ensures Run(fs) == Some(t) && Up(t, k.c) == [] && t.queue == [] && t.workers == map[]
    ensures Down(t, a) == Down(s, a) + [Req(k, SentBy(s, k))] && forall b :: b != a ==> Down(t, b) == Down(s, b)
    ensures SentBy(t, k) == SentBy(s, k) + 1 && t.pins == s.pins[k := a] && t.running == s.running && t.started == s.started
  {
    fs, t := ComesToPool(es, s, k);
    fs, t := PoolRoutes(fs, t, Req(k, SentBy(s, k)), a);
  }

  lemma ComesToPool(es: seq<Event>, s: State, k: Key) returns (fs: seq<Event>, t: State)
    requires Run(es) == Some(s) && Up(s, k.c) == [] && s.queue == []
    ensures Run(fs) == Some(t) && Up(t, k.c) == [] && t.queue == [Req(k, SentBy(s, k))]
    ensures SentBy(t, k) == SentBy(s, k) + 1 && t.workers == s.workers && t.pins == s.pins
    ensures t.down == s.down && t.running == s.running && t.started == s.started
  {
    var u := Extend(es, s, Send(k));
    assert Up(u, k.c) == [Req(k, SentBy(s, k))];
    t := Extend(es + [Send(k)], u, Read(k.c));
    fs := es + [Send(k)] + [Read(k.c)];
  }

  lemma PoolRoutes(es: seq<Event>, s: State, x: Req, a: Addr) returns (fs: seq<Event>, t: State)
    requires Run(es) == Some(s) && s.queue == [x] && s.workers == map[] && (x.key in s.pins ==> s.pins[x.key] == a)
    ensures Run(fs) == Some(t) && t.queue == [] && t.workers == map[] && t.up == s.up
    ensures Down(t, a) == Down(s, a) + [x] && forall b :: b != a ==> Down(t, b) == Down(s, b)
    ensures t.sent == s.sent && t.pins == s.pins[x.key := a] && t.running == s.running && t.started == s.started
  {
    t := Extend(es, s, Take(0));
    fs := es + [Take(0)];
    t := Extend(fs, t, Pick(0, Some(a)));
    fs := fs + [Pick(0, Some(a))];
    t := Extend(fs, t, Forward(0));
    fs := fs + [Forward(0)];
    assert t.workers == map[];
  }

  /** For every client and service and any two addresses: a pin that is lost while a request is under
      way lets the next one overtake it, with one request in the pool at a time. */
  lemma LostPinSwaps(k: Key, a: Addr, b: Addr) returns (es: seq<Event>)
    requires a != b
    ensures Run(es).Some? && !InOrder(Run(es).value, k)
  {
    var fs, s := OneUnderWay(k, a);
    var gs, t := GoesThrough(fs, s, k, b);
    assert Down(t, b) == [] + [Req(k, 1)] == [Req(k, 1)];
    es := StartsLaterFirst(gs, t, Req(k, 0), Req(k, 1), a, b);
  }

  lemma OneUnderWay(k: Key, a: Addr) returns (es: seq<Event>, s: State)
    ensures Run(es) == Some(s) && Up(s, k.c) == [] && s.queue == [] && s.workers == map[]
    ensures Down(s, a) == [Req(k, 0)] && forall b :: b != a ==> Down(s, b) == []
    ensures SentBy(s, k) == 1 && k !in s.pins && s.running == map[]
  {
    var fs, t := GoesThrough([], INIT, k, a);
    assert Down(t, a) == [] + [Req(k, 0)] == [Req(k, 0)];
    s := Extend(fs, t, Unpin(k));
    es := fs + [Unpin(k)];
    forall b | b != a ensures Down(s, b) == [] {
      assert Down(t, b) == Down(INIT, b);
    }
  }

  lemma StartsLaterFirst(es: seq<Event>, s: State, x: Req, y: Req, a: Addr, b: Addr) returns (fs: seq<Event>)
    requires Run(es) == Some(s) && Earlier(x, y) && a != b && Down(s, a) == [x] && Down(s, b) == [y] && s.running == map[]
    ensures Run(fs).Some? && !InOrder(Run(fs).value, x.key)
  {
    var t := Extend(es, s, Start(b));
    assert y in t.started && Down(t, a) == [x];
    StartsSwapped(t, x, y, a);
    var u := Extend(es + [Start(b)], t, Start(a));
    fs := es + [Start(b)] + [Start(a)];
  }
}
