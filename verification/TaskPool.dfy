/** The task pool of ms_framework/msf_task_pool_new.go: a counter, a queue served by workers, and a
    hand-over channel served by one goroutine for requests that are to keep their order. */
module TaskPool {
  import opened Options
  import opened MachineInts

  const QUEUE_SIZE := 10000000
  const WORKERS := 500

  type Task = nat
  type Conn = nat

  /** A worker holds its task while it runs it and until it has lowered the counter. */
  datatype Holding = Holding(task: Task, running: bool)

  /** An ordered task and the connection its frame came on. */
  datatype Ordered = Ordered(conn: Conn, task: Task)

  /** A task and the worker that took it. */
  datatype Job = Job(worker: nat, task: Task)

  datatype Pool = Pool(
    size: int32,
    carries: int,                      // wraps of size
    counted: multiset<Task>,           // counted, but the sender still waits for room
    queue: seq<Task>,
    workers: map<nat, Holding>,        // workers that hold a task
    waiting: map<Conn, Task>,          // read goroutines waiting to hand over an ordered task
    separate: Option<Ordered>,         // what the separate goroutine holds
    separateRuns: bool)

  const NEW_POOL := Pool(0, 0, multiset{}, [], map[], map[], None, false)

  /** The history of ordered tasks, and of those for the workers. */
  datatype Log = Log(
    arrived: seq<Ordered>, started: seq<Ordered>, ended: seq<Ordered>,
    queued: seq<Task>, taken: seq<Job>, finished: seq<Job>)

  datatype State = State(pool: Pool, log: Log)

  const INIT := State(NEW_POOL, Log([], [], [], [], [], []))

  datatype Event =
    | Count(t: Task)                   // ProduceTask: the counter is raised
    | Enqueue(t: Task)                 //   and the task sent
    | Take(w: nat)
    | Finish(w: nat)
    | Lower(w: nat)
    | Arrive(c: Conn, t: Task)         // ProduceTaskSeparate: counted, and waiting to hand over
    | HandOver(c: Conn)
    | SeparateFinishes
    | SeparateLowers

  predicate Enabled(s: State, e: Event) {
    var p := s.pool;
    match e
    case Count(t) => true
    case Enqueue(t) => t in p.counted && |p.queue| < QUEUE_SIZE
    case Take(w) => w < WORKERS && w !in p.workers && p.queue != []
    case Finish(w) => w in p.workers && p.workers[w].running
    case Lower(w) => w in p.workers && !p.workers[w].running
    case Arrive(c, t) => c !in p.waiting
    case HandOver(c) => c in p.waiting && p.separate.None?
    case SeparateFinishes => p.separate.Some? && p.separateRuns
    case SeparateLowers => p.separate.Some? && !p.separateRuns
  }

  function Add(p: Pool, d: int): Pool
    requires -1 <= d <= 1
  {
    p.(size := Wrap32(p.size + d), carries := p.carries + Carry32(p.size + d))
  }

  function Do(s: State, e: Event): State
    requires Enabled(s, e)
  {
    var p, l := s.pool, s.log;
    match e
    case Count(t) => s.(pool := Add(p, 1).(counted := p.counted + multiset{t}))
    case Enqueue(t) =>
      State(p.(counted := p.counted - multiset{t}, queue := p.queue + [t]), l.(queued := l.queued + [t]))
    case Take(w) =>
      State(p.(queue := p.queue[1..], workers := p.workers[w := Holding(p.queue[0], true)]),
            l.(taken := l.taken + [Job(w, p.queue[0])]))
    case Finish(w) =>
      State(p.(workers := p.workers[w := p.workers[w].(running := false)]),
            l.(finished := l.finished + [Job(w, p.workers[w].task)]))
    case Lower(w) => s.(pool := Add(p, -1).(workers := p.workers - {w}))
    case Arrive(c, t) =>
      State(Add(p, 1).(waiting := p.waiting[c := t]), l.(arrived := l.arrived + [Ordered(c, t)]))
    case HandOver(c) =>
      var o := Ordered(c, p.waiting[c]);
      State(p.(waiting := p.waiting - {c}, separate := Some(o), separateRuns := true), l.(started := l.started + [o]))
    case SeparateFinishes =>
      State(p.(separateRuns := false), l.(ended := l.ended + [p.separate.value]))
    case SeparateLowers => s.(pool := Add(p, -1).(separate := None))
  }

  /** Tasks accepted and not yet done with. */
  function Load(p: Pool): nat {
    |p.counted| + |p.queue| + |p.workers| + |p.waiting| + if p.separate.Some? then 1 else 0
  }

  function OfConn(log: seq<Ordered>, c: Conn): seq<Task> {
    if log == [] then []
    else
      var n := |log| - 1;
      OfConn(log[..n], c) + if log[n].conn == c then [log[n].task] else []
  }

  ghost predicate CountOk(p: Pool) {
    p.size + p.carries * TWO_32 == Load(p)
  }

  function Held(p: Pool): seq<Ordered> {
    if p.separate.Some? && p.separateRuns then [p.separate.value] else []
  }

  function Pending(waiting: map<Conn, Task>, c: Conn): seq<Task> {
    if c in waiting then [waiting[c]] else []
  }

  /** The ordered tasks of each connection have started in arrival order, all but the one whose
      reader still waits; and every started one has ended, except the one that runs. */
  ghost predicate OrderOk(s: State) {
    && (forall c :: OfConn(s.log.arrived, c) == OfConn(s.log.started, c) + Pending(s.pool.waiting, c))
    && s.log.started == s.log.ended + Held(s.pool)
  }

  lemma MapSizes<K, V>(m: map<K, V>, k: K, v: V)
    ensures k !in m ==> |m[k := v]| == |m| + 1
    ensures k in m ==> |m[k := v]| == |m| && |m - {k}| == |m| - 1
  {
    assert m[k := v].Keys == m.Keys + {k};
    assert (m - {k}).Keys == m.Keys - {k};
    assert |m.Keys| == |m| && |m[k := v].Keys| == |m[k := v]| && |(m - {k}).Keys| == |m - {k}|;
  }

  lemma MapEmpty<K, V>(m: map<K, V>)
    ensures |m| == 0 ==> m == map[]
  {
  }

  lemma StepKeepsCount(s: State, e: Event)
    requires Enabled(s, e) && CountOk(s.pool)
    ensures CountOk(Do(s, e).pool)
  {
    var p := s.pool;
    match e
    case Take(w) => MapSizes(p.workers, w, Holding(p.queue[0], true));
    case Finish(w) => MapSizes(p.workers, w, p.workers[w].(running := false));
    case Lower(w) => MapSizes(p.workers, w, p.workers[w]);
    case Arrive(c, t) => MapSizes(p.waiting, c, t);
    case HandOver(c) => MapSizes(p.waiting, c, p.waiting[c]);
    case _ =>
  }

  lemma OfConnAppend(log: seq<Ordered>, o: Ordered, c: Conn)
    ensures OfConn(log + [o], c) == OfConn(log, c) + if o.conn == c then [o.task] else []
  {
    assert (log + [o])[..|log|] == log;
  }

  lemma StepKeepsOrder(s: State, e: Event)
    requires Enabled(s, e) && OrderOk(s)
    requires s.pool.separate.None? ==> !s.pool.separateRuns
    ensures OrderOk(Do(s, e)) && (Do(s, e).pool.separate.None? ==> !Do(s, e).pool.separateRuns)
  {
    var t := Do(s, e);
    forall c ensures OfConn(t.log.arrived, c) == OfConn(t.log.started, c) + Pending(t.pool.waiting, c) {
      StepKeepsOrderOf(s, e, c);
    }
  }

  lemma StepKeepsOrderOf(s: State, e: Event, c: Conn)
    requires Enabled(s, e) && OfConn(s.log.arrived, c) == OfConn(s.log.started, c) + Pending(s.pool.waiting, c)
    ensures var t := Do(s, e); OfConn(t.log.arrived, c) == OfConn(t.log.started, c) + Pending(t.pool.waiting, c)
  {
    match e
    case Arrive(d, x) => OfConnAppend(s.log.arrived, Ordered(d, x), c);
    case HandOver(d) => HandOverKeepsOrderOf(s, d, c);
    case _ =>
  }

  lemma HandOverKeepsOrderOf(s: State, d: Conn, c: Conn)
    requires Enabled(s, HandOver(d)) && OfConn(s.log.arrived, c) == OfConn(s.log.started, c) + Pending(s.pool.waiting, c)
    ensures var t := Do(s, HandOver(d)); OfConn(t.log.arrived, c) == OfConn(t.log.started, c) + Pending(t.pool.waiting, c)
  {
    OfConnAppend(s.log.started, Ordered(d, s.pool.waiting[d]), c);
  }

  // ---- Tasks for the workers ----

  function TasksOf(jobs: seq<Job>): seq<Task> {
    seq(|jobs|, i requires 0 <= i < |jobs| => jobs[i].task)
  }

  function OfWorker(jobs: seq<Job>, w: nat): seq<Task> {
    if jobs == [] then []
    else
      var n := |jobs| - 1;
      OfWorker(jobs[..n], w) + if jobs[n].worker == w then [jobs[n].task] else []
  }

  lemma OfWorkerAppend(jobs: seq<Job>, j: Job, w: nat)
    ensures OfWorker(jobs + [j], w) == OfWorker(jobs, w) + if j.worker == w then [j.task] else []
  {
    assert (jobs + [j])[..|jobs|] == jobs;
  }

  function Runs(workers: map<nat, Holding>, w: nat): seq<Task> {
    if w in workers && workers[w].running then [workers[w].task] else []
  }

  /** What was sent has been taken in that order, but for what is still queued. */
  ghost predicate QueueOk(queue: seq<Task>, l: Log) {
    l.queued == TasksOf(l.taken) + queue
  }

  /** A worker has finished what it took, but for what it runs. */
  ghost predicate WorkerOk(workers: map<nat, Holding>, l: Log, w: nat) {
    OfWorker(l.taken, w) == OfWorker(l.finished, w) + Runs(workers, w)
  }

  lemma StepKeepsQueue(s: State, e: Event)
    requires Enabled(s, e) && QueueOk(s.pool.queue, s.log)
    ensures QueueOk(Do(s, e).pool.queue, Do(s, e).log)
  {
    if e.Take? {
      var x := s.pool.queue[0];
      assert TasksOf(s.log.taken + [Job(e.w, x)]) == TasksOf(s.log.taken) + [x];
      assert s.pool.queue == [x] + s.pool.queue[1..];
    }
  }

  lemma TakeKeepsWorker(workers: map<nat, Holding>, l: Log, v: nat, x: Task, w: nat)
    requires v !in workers && WorkerOk(workers, l, w)
    ensures WorkerOk(workers[v := Holding(x, true)], l.(taken := l.taken + [Job(v, x)]), w)
  {
    OfWorkerAppend(l.taken, Job(v, x), w);
  }

  lemma FinishKeepsWorker(workers: map<nat, Holding>, l: Log, v: nat, w: nat)
    requires v in workers && workers[v].running && WorkerOk(workers, l, w)
    ensures WorkerOk(workers[v := workers[v].(running := false)], l.(finished := l.finished + [Job(v, workers[v].task)]), w)
  {
    OfWorkerAppend(l.finished, Job(v, workers[v].task), w);
  }

  lemma StepKeepsWorker(s: State, e: Event, w: nat)
    requires Enabled(s, e) && WorkerOk(s.pool.workers, s.log, w)
    ensures WorkerOk(Do(s, e).pool.workers, Do(s, e).log, w)
  {
    match e
    case Take(v) => TakeKeepsWorker(s.pool.workers, s.log, v, s.pool.queue[0], w);
    case Finish(v) => FinishKeepsWorker(s.pool.workers, s.log, v, w);
    case _ => assert OfWorker(Do(s, e).log.taken, w) == OfWorker(s.log.taken, w);
  }

  lemma {:induction false} RunKeepsWork(es: seq<Event>, w: nat)
    requires Run(es).Some?
    ensures var s := Run(es).value; QueueOk(s.pool.queue, s.log) && WorkerOk(s.pool.workers, s.log, w)
    decreases |es|
  {
    if es == [] {
    } else {
      var n := |es| - 1;
      RunKeepsWork(es[..n], w);
      StepKeepsQueue(Run(es[..n]).value, es[n]);
      StepKeepsWorker(Run(es[..n]).value, es[n], w);
    }
  }

  /** In every interleaving the workers take the tasks in the order they were sent, none is lost or
      taken twice, and each worker has finished, one after the other, what it took, all but the one
      that it runs. */
  lemma TakenInTurn(es: seq<Event>, w: nat)
    requires Run(es).Some?
    ensures var s := Run(es).value;
      && s.log.queued == TasksOf(s.log.taken) + s.pool.queue
      && OfWorker(s.log.taken, w) == OfWorker(s.log.finished, w) +
           if w in s.pool.workers && s.pool.workers[w].running then [s.pool.workers[w].task] else []
  {
    RunKeepsWork(es, w);
  }

  ghost predicate Inv(s: State) {
    CountOk(s.pool) && OrderOk(s) && (s.pool.separate.None? ==> !s.pool.separateRuns)
  }

  ghost function Run(es: seq<Event>): Option<State> {
    if es == [] then Some(INIT)
    else
      var n := |es| - 1;
      var before := Run(es[..n]);
      if before.Some? && Enabled(before.value, es[n]) then Some(Do(before.value, es[n])) else None
  }

  lemma {:induction false} RunKeepsInv(es: seq<Event>)
    requires Run(es).Some?
    ensures Inv(Run(es).value)
    decreases |es|
  {
    if es == [] {
    } else {
      var n := |es| - 1;
      RunKeepsInv(es[..n]);
      StepKeepsCount(Run(es[..n]).value, es[n]);
      StepKeepsOrder(Run(es[..n]).value, es[n]);
    }
  }

  /** Accounting: at every point of every interleaving the counter is the number of tasks waiting
      to be sent, queued, held by a worker or by the separate goroutine, modulo 2^32. So below 2^31
      such tasks it is that number, never negative, and zero tells that none is left. */
  lemma PoolAccounting(es: seq<Event>)
    requires Run(es).Some?
    ensures var p := Run(es).value.pool;
      && p.size + p.carries * TWO_32 == Load(p)
      && (Load(p) < TWO_31 ==> p.size == Load(p))
      && (p.size == 0 && Load(p) < TWO_32 ==>
            p.counted == multiset{} && p.queue == [] && p.workers == map[] && p.waiting == map[] && p.separate == None)
  {
    RunKeepsInv(es);
    CountMeans(Run(es).value.pool);
  }

  lemma CountMeans(p: Pool)
    requires CountOk(p)
    ensures Load(p) < TWO_31 ==> p.size == Load(p)
    ensures p.size == 0 && Load(p) < TWO_32 ==>
      p.counted == multiset{} && p.queue == [] && p.workers == map[] && p.waiting == map[] && p.separate == None
  {
    assert p.carries * TWO_32 == Load(p) - p.size;
    assert p.size == 0 && Load(p) < TWO_32 ==> Load(p) == 0;
    MapEmpty(p.workers);
    MapEmpty(p.waiting);
  }

  /** Order: the ordered tasks of a connection start in the order they arrived in, each after all
      that started before it, of any connection, have ended. */
  lemma OrderedTasksKeepOrder(es: seq<Event>, c: Conn)
    requires Run(es).Some?
    ensures var s := Run(es).value;
      && OfConn(s.log.started, c) <= OfConn(s.log.arrived, c)
      && |OfConn(s.log.arrived, c)| <= |OfConn(s.log.started, c)| + 1
      && s.log.ended <= s.log.started && |s.log.started| <= |s.log.ended| + 1
      && (s.log.started != s.log.ended ==> s.pool.separate == Some(s.log.started[|s.log.started| - 1]))
  {
    RunKeepsInv(es);
  }

  // ---- Progress ----

  ghost predicate Empty(p: Pool) {
    p.counted == multiset{} && p.queue == [] && p.workers == map[] && p.waiting == map[] && p.separate.None?
  }

  /** A step that brings in no task. */
  predicate Serves(e: Event) {
    !e.Count? && !e.Arrive?
  }

  ghost predicate Drains(es: seq<Event>, fs: seq<Event>) {
    (forall i :: 0 <= i < |fs| ==> Serves(fs[i])) && Run(es + fs).Some? && Empty(Run(es + fs).value.pool)
  }

  lemma Extend(es: seq<Event>, s: State, e: Event) returns (t: State)
    requires Run(es) == Some(s) && Enabled(s, e)
    ensures Run(es + [e]) == Some(t) && t == Do(s, e)
  {
    assert (es + [e])[..|es|] == es;
    t := Do(s, e);
  }

  lemma StepThenDrains(es: seq<Event>, e: Event, fs: seq<Event>) returns (gs: seq<Event>)
    requires Serves(e) && Drains(es + [e], fs)
    ensures Drains(es, gs)
  {
    gs := [e] + fs;
    Regroup(es, e, fs);
  }

  /** How far the pool is from empty: the steps its tasks still need. */
  function Separately(p: Pool): nat {
    if p.separate.None? then 0 else if p.separateRuns then 2 else 1
  }

  function Running(workers: map<nat, Holding>): set<nat> {
    set w | w in workers && workers[w].running
  }

  function Working(workers: map<nat, Holding>): (n: nat)
    ensures n == 0 <==> workers == map[]
  {
    |workers| + |Running(workers)|
  }

  lemma WorkerMoves(workers: map<nat, Holding>, w: nat)
    requires w in workers
    ensures workers[w].running ==> Working(workers[w := workers[w].(running := false)]) < Working(workers)
    ensures !workers[w].running ==> Working(workers - {w}) < Working(workers)
  {
    MapSizes(workers, w, workers[w].(running := false));
    assert Running(workers[w := workers[w].(running := false)]) == Running(workers) - {w};
    assert Running(workers - {w}) == Running(workers) - {w};
  }

  /** What a pool that is not empty can do next. */
  lemma ServingStep(s: State) returns (e: Event)
    requires !Empty(s.pool)
    ensures Enabled(s, e) && Serves(e)
    ensures var p, q := s.pool, Do(s, e).pool;
      || |q.counted| < |p.counted|
      || (q.counted == p.counted && |q.queue| < |p.queue|)
      || (q.counted == p.counted && q.queue == p.queue && |q.waiting| < |p.waiting|)
      || (q.counted == p.counted && q.queue == p.queue && q.waiting == p.waiting && Separately(q) < Separately(p))
      || (q.counted == p.counted && q.queue == p.queue && q.waiting == p.waiting && Separately(q) == Separately(p) &&
          Working(q.workers) < Working(p.workers))
  {
    var p := s.pool;
    if p.separate.Some? {
      e := if p.separateRuns then SeparateFinishes else SeparateLowers;
    } else if p.waiting != map[] {
      var c :| c in p.waiting;
      MapSizes(p.waiting, c, p.waiting[c]);
      e := HandOver(c);
    } else if p.workers != map[] {
      var w :| w in p.workers;
      WorkerMoves(p.workers, w);
      e := if p.workers[w].running then Finish(w) else Lower(w);
    } else if p.queue != [] {
      e := Take(0);
    } else {
      var t :| t in p.counted;
      e := Enqueue(t);
    }
  }

  /** After any run the pool can be drained without further tasks coming in; then nothing is left
      anywhere and the counter is back at 0, up to its wraps. */
  lemma {:induction false} PoolDrains(es: seq<Event>, s: State) returns (fs: seq<Event>)
    requires Run(es) == Some(s)
    ensures Drains(es, fs)
    ensures var p := Run(es + fs).value.pool; p.size + p.carries * TWO_32 == 0
    decreases |s.pool.counted|, |s.pool.queue|, |s.pool.waiting|, Separately(s.pool), Working(s.pool.workers)
  {
    if Empty(s.pool) {
      fs := [];
      assert es + fs == es;
      PoolAccounting(es);
    } else {
      var e := ServingStep(s);
      var t := Extend(es, s, e);
      var gs := PoolDrains(es + [e], t);
      fs := StepThenDrains(es, e, gs);
      PoolAccounting(es + fs);
    }
  }

  /** Accepted: counted or sent already. */
  predicate Accepted(s: State, x: Task) {
    x in s.pool.counted || x in s.log.queued
  }

  predicate Came(s: State, o: Ordered) {
    o in s.log.arrived
  }

  lemma {:induction false} StaysAccepted(es: seq<Event>, fs: seq<Event>, x: Task, o: Ordered)
    requires Run(es).Some? && Run(es + fs).Some?
    ensures Accepted(Run(es).value, x) ==> Accepted(Run(es + fs).value, x)
    ensures Came(Run(es).value, o) ==> Came(Run(es + fs).value, o)
    decreases |fs|
  {
    if fs == [] {
      assert es + fs == es;
    } else {
      var n := |fs| - 1;
      assert (es + fs)[..|es + fs| - 1] == es + fs[..n];
      StaysAccepted(es, fs[..n], x, o);
      StepKeepsAccepted(Run(es + fs[..n]).value, fs[n], x, o);
    }
  }

  lemma StepKeepsAccepted(s: State, e: Event, x: Task, o: Ordered)
    requires Enabled(s, e)
    ensures Accepted(s, x) ==> Accepted(Do(s, e), x)
    ensures Came(s, o) ==> Came(Do(s, e), o)
  {
  }

  /** One step more, and then the pool is drained. */
  lemma DrainsAfter(es: seq<Event>, s: State, e: Event, x: Task, o: Ordered) returns (fs: seq<Event>, t: State)
    requires Run(es) == Some(s) && Enabled(s, e)
    ensures Run(es + fs) == Some(t) && Empty(t.pool)
    ensures Accepted(Do(s, e), x) ==> Accepted(t, x)
    ensures Came(Do(s, e), o) ==> Came(t, o)
  {
    var s1 := Extend(es, s, e);
    var gs := PoolDrains(es + [e], s1);
    StaysAccepted(es + [e], gs, x, o);
    fs, t := [e] + gs, Run(es + [e] + gs).value;
    Regroup(es, e, gs);
  }

  lemma Regroup(es: seq<Event>, e: Event, fs: seq<Event>)
    ensures es + ([e] + fs) == es + [e] + fs
  {
  }

  lemma {:induction false} OfWorkerHas(jobs: seq<Job>, j: Job)
    ensures j.task in OfWorker(jobs, j.worker) <==> j in jobs
    decreases |jobs|
  {
    if jobs == [] {
    } else {
      var n := |jobs| - 1;
      OfWorkerHas(jobs[..n], j);
      assert jobs == jobs[..n] + [jobs[n]];
    }
  }

  lemma {:induction false} OfConnHas(log: seq<Ordered>, o: Ordered)
    ensures o.task in OfConn(log, o.conn) <==> o in log
    decreases |log|
  {
    if log == [] {
    } else {
      var n := |log| - 1;
      OfConnHas(log[..n], o);
      assert log == log[..n] + [log[n]];
    }
  }

  /** In an empty pool every accepted task has been finished by a worker. */
  lemma EmptyHasFinished(es: seq<Event>, s: State, x: Task)
    requires Run(es) == Some(s) && Empty(s.pool) && Accepted(s, x)
    ensures exists w :: Job(w, x) in s.log.finished
  {
    RunKeepsWork(es, 0);
    assert TasksOf(s.log.taken) == s.log.queued;
    var i :| 0 <= i < |s.log.queued| && s.log.queued[i] == x;
    var j := s.log.taken[i];
    RunKeepsWork(es, j.worker);
    OfWorkerHas(s.log.taken, j);
    OfWorkerHas(s.log.finished, j);
    assert Job(j.worker, x) in s.log.finished;
  }

  lemma EmptyHasEnded(es: seq<Event>, s: State, o: Ordered)
    requires Run(es) == Some(s) && Empty(s.pool) && Came(s, o)
    ensures o in s.log.ended
  {
    RunKeepsInv(es);
    OfConnHas(s.log.arrived, o);
    OfConnHas(s.log.started, o);
    assert OfConn(s.log.arrived, o.conn) == OfConn(s.log.started, o.conn);
    assert s.log.started == s.log.ended;
  }

  /** After any run a further task can be handed in and comes to be finished by a worker. */
  lemma TaskIsRun(es: seq<Event>, s: State, x: Task) returns (fs: seq<Event>, t: State)
    requires Run(es) == Some(s)
    ensures Run(es + fs) == Some(t) && exists w :: Job(w, x) in t.log.finished
  {
    fs, t := DrainsAfter(es, s, Count(x), x, Ordered(0, x));
    EmptyHasFinished(es + fs, t, x);
  }

  /** And so an ordered one of any connection whose reader is free, by the separate goroutine. */
  lemma OrderedTaskIsRun(es: seq<Event>, s: State, c: Conn, x: Task) returns (fs: seq<Event>, t: State)
    requires Run(es) == Some(s) && c !in s.pool.waiting
    ensures Run(es + fs) == Some(t) && Ordered(c, x) in t.log.ended
  {
    fs, t := DrainsAfter(es, s, Arrive(c, x), x, Ordered(c, x));
    EmptyHasEnded(es + fs, t, Ordered(c, x));
  }
}
