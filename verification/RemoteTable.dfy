/** The gate's routing tables, ms_framework/msf_remote_mgr.go: the live remotes, a load balancer
    for each service, and the cache that keeps a client's ordered requests on one remote. */
module RoutingTables {
  import opened Options
  import opened LoadBalancing
  import opened RoundRobin

  type Addr = string     // CONN_ID of a remote, "ip:port"
  type Service = string  // REMOTE_ID, "namespace:service"
  type Client = string   // CONN_ID of a client

  datatype Tables = Tables(
    remotes: map<Addr, Service>,
    lbs: map<Service, Balancer>,
    orderedCache: map<Client, map<Service, Addr>>)

  const EMPTY_TABLES := Tables(map[], map[], map[])

  function BalancerOf(t: Tables, r: Service): Balancer {
    if r in t.lbs then t.lbs[r] else EMPTY
  }

  /** ConnectRemote after the dial succeeded: an address already known is closed again, and one
      the balancer refuses is not entered. */
  function Connect(t: Tables, r: Service, a: Addr): Tables {
    if a in t.remotes then t
    else
      var lb := BalancerOf(t, r);
      if a in lb.elements then t
      else t.(lbs := t.lbs[r := Add(lb, a)], remotes := t.remotes[a := r])
  }

  /** OnRemoteDisappear; None is the panic on a service without a balancer. */
  function Disappear(t: Tables, r: Service, a: Addr): Option<Tables> {
    if a !in t.remotes then Some(t)
    else if r !in t.lbs then None
    else Some(t.(remotes := t.remotes - {a}, lbs := t.lbs[r := Del(t.lbs[r], a)]))
  }

  function Cached(t: Tables, c: Client, r: Service): Option<Addr> {
    if c in t.orderedCache && r in t.orderedCache[c] then Some(t.orderedCache[c][r]) else None
  }

  function Forget(t: Tables, c: Client, r: Service): Tables {
    if c in t.orderedCache then t.(orderedCache := t.orderedCache[c := t.orderedCache[c] - {r}]) else t
  }

  function Pin(t: Tables, c: Client, r: Service, a: Addr): Tables {
    var cache := if c in t.orderedCache then t.orderedCache[c] else map[];
    t.(orderedCache := t.orderedCache[c := cache[r := a]])
  }

  /** ChoiceRemote as one step: the address chosen, if any, and the tables left behind. */
  ghost function Choose(t: Tables, r: Service, ordered: bool, c: Client): (Option<Addr>, Tables) {
    var b := BalancerOf(t, r);
    ChooseWith(t, r, ordered, c, Choice(b), Balance(b))
  }

  /** The same, if the balancer, should it come to be asked, answers a and is left as lb. */
  function ChooseWith(t: Tables, r: Service, ordered: bool, c: Client, a: Addr, lb: Balancer): (Option<Addr>, Tables) {
    var cached := if ordered then Cached(t, c, r) else None;
    if cached.Some? && cached.value in t.remotes then (cached, t)
    else
      var t1 := if cached.Some? then Forget(t, c, r) else t;
      if r !in t1.lbs then (None, t1) else Take(t1, r, ordered, c, a, lb)
  }

  /** What ChoiceRemote makes of the balancer's answer a, which left the balancer as lb. */
  function Take(t: Tables, r: Service, ordered: bool, c: Client, a: Addr, lb: Balancer): (Option<Addr>, Tables) {
    var u := t.(lbs := t.lbs[r := lb]);
    if a !in u.remotes then (None, u)
    else (Some(a), if ordered then Pin(u, c, r, a) else u)
  }

  /** DelRemoteOrderCache, when a client's connection closes. */
  function Close(t: Tables, c: Client): Tables {
    t.(orderedCache := t.orderedCache - {c})
  }

  // ---- Agreement ----

  /** An address is entered for a service exactly when that service's balancer has it (so no other
      balancer has), and no address is empty. */
  ghost predicate Agree(t: Tables) {
    && (forall a, r :: a in t.remotes && t.remotes[a] == r <==> r in t.lbs && a in t.lbs[r].elements)
    && "" !in t.remotes
  }

  lemma ConnectAgrees(t: Tables, r: Service, a: Addr)
    requires Agree(t) && a != ""
    ensures Agree(Connect(t, r, a))
    ensures a in Connect(t, r, a).remotes
    ensures a !in t.remotes ==> a !in BalancerOf(t, r).elements
  {
    var u := Connect(t, r, a);
    if a !in t.remotes {
      assert a !in BalancerOf(t, r).elements;
      forall x, s ensures x in u.remotes && u.remotes[x] == s <==> s in u.lbs && x in u.lbs[s].elements {
        assert x in t.remotes && t.remotes[x] == s <==> s in t.lbs && x in t.lbs[s].elements;
      }
    }
  }

  /** Taking a live address out keeps the tables in agreement exactly when it is taken out under
      the service it was entered for; otherwise the process panics, or the balancer of its own
      service is left with an address that is gone. */
  lemma DisappearAgreesIff(t: Tables, r: Service, a: Addr)
    requires Agree(t) && a in t.remotes
    ensures var u := Disappear(t, r, a); u.Some? && Agree(u.value) <==> t.remotes[a] == r
  {
    var u := Disappear(t, r, a);
    var s := t.remotes[a];
    assert s in t.lbs && a in t.lbs[s].elements;
    if s == r {
      forall x, y
        ensures x in u.value.remotes && u.value.remotes[x] == y <==> y in u.value.lbs && x in u.value.lbs[y].elements
      {
        assert x in t.remotes && t.remotes[x] == y <==> y in t.lbs && x in t.lbs[y].elements;
      }
    } else if u.Some? {
      assert s in u.value.lbs && a in u.value.lbs[s].elements && a !in u.value.remotes;
    }
  }

  // ---- Runs ----

  datatype Event =
    | Connected(r: Service, a: Addr)
    | Disappeared(r: Service, a: Addr)
    | Chosen(r: Service, ordered: bool, c: Client)
    | Closed(c: Client)

  ghost function Step(t: Tables, e: Event): Option<Tables> {
    match e
    case Connected(r, a) => Some(Connect(t, r, a))
    case Disappeared(r, a) => Disappear(t, r, a)
    case Chosen(r, ordered, c) => Some(Choose(t, r, ordered, c).1)
    case Closed(c) => Some(Close(t, c))
  }

  ghost function Run(t: Tables, es: seq<Event>): Option<Tables> {
    if es == [] then Some(t)
    else
      var before := Run(t, es[..|es| - 1]);
      if before.None? then None else Step(before.value, es[|es| - 1])
  }

  /** Every address that occurs belongs to one service, and none is empty. */
  ghost predicate Owned(owner: map<Addr, Service>, e: Event) {
    match e
    case Connected(r, a) => a in owner && owner[a] == r && a != ""
    case Disappeared(r, a) => a in owner && owner[a] == r
    case _ => true
  }

  ghost predicate AllOwned(owner: map<Addr, Service>, es: seq<Event>) {
    forall i :: 0 <= i < |es| ==> Owned(owner, es[i])
  }

  ghost predicate Inv(owner: map<Addr, Service>, t: Tables) {
    && Agree(t)
    && (forall a :: a in t.remotes ==> a in owner && owner[a] == t.remotes[a])
    && (forall c, r :: Cached(t, c, r).Some? ==>
          var a := Cached(t, c, r).value; a in owner && owner[a] == r)
  }

  /** The service has a live remote. */
  ghost predicate Live(t: Tables, r: Service) {
    exists a :: a in t.remotes && t.remotes[a] == r
  }

  lemma CacheFacts(t: Tables, c: Client, r: Service, a: Addr)
    ensures forall d, s :: Cached(Forget(t, c, r), d, s) == if d == c && s == r then None else Cached(t, d, s)
    ensures forall d, s :: Cached(Pin(t, c, r, a), d, s) == if d == c && s == r then Some(a) else Cached(t, d, s)
  {
  }

  lemma SameCache(t: Tables, u: Tables)
    requires u.orderedCache == t.orderedCache
    ensures forall c, r :: Cached(u, c, r) == Cached(t, c, r)
  {
  }

  lemma BalanceKeys(b: Balancer)
    ensures Answers(b, Choice(b), Balance(b))
  {
  }

  /** What a choice should be: a live remote of the service if it has one, and otherwise nothing. */
  ghost predicate Right(t: Tables, r: Service, a: Option<Addr>) {
    && (a.None? <==> !Live(t, r))
    && (a.Some? ==> a.value in t.remotes && t.remotes[a.value] == r)
  }

  /** The cache gives an ordered request a live address that belongs to another service by now. */
  predicate Misled(t: Tables, r: Service, ordered: bool, c: Client) {
    ordered && var a := Cached(t, c, r); a.Some? && a.value in t.remotes && t.remotes[a.value] != r
  }

  /** What is known of a balancer's answer. */
  predicate Answers(b: Balancer, a: Addr, lb: Balancer) {
    lb.elements.Keys == b.elements.Keys && if b.elements == map[] then a == "" else a in b.elements
  }

  lemma TakeRight(t: Tables, r: Service, ordered: bool, c: Client, a: Addr, lb: Balancer)
    requires Agree(t) && r in t.lbs && Answers(t.lbs[r], a, lb)
    ensures var (x, u) := Take(t, r, ordered, c, a, lb);
      && Agree(u) && u.remotes == t.remotes
      && (if t.lbs[r].elements == map[] then x == None else x == Some(a) && t.remotes[a] == r)
      && (x.Some? && ordered ==> Cached(u, c, r) == x)
      && (x.None? || !ordered ==> Cached(u, c, r) == Cached(t, c, r))
      && (forall d, s :: !(d == c && s == r) ==> Cached(u, d, s) == Cached(t, d, s))
  {
    var u := t.(lbs := t.lbs[r := lb]);
    var v := Take(t, r, ordered, c, a, lb).1;
    SameCache(t, u);
    CacheFacts(u, c, r, a);
    forall x, s ensures x in v.remotes && v.remotes[x] == s <==> s in v.lbs && x in v.lbs[s].elements {
      assert x in t.remotes && t.remotes[x] == s <==> s in t.lbs && x in t.lbs[s].elements;
    }
    if t.lbs[r].elements != map[] {
      assert a in t.remotes && t.remotes[a] == r;
    }
  }

  /** In tables that agree, a choice is right exactly when the cache does not mislead it. Right or
      not, the tables still agree, an ordered choice is remembered, and the cache of no other client
      or service is touched. */
  lemma ChooseRightIff(t: Tables, r: Service, ordered: bool, c: Client)
    requires Agree(t)
    ensures var (a, u) := Choose(t, r, ordered, c);
      && Agree(u) && u.remotes == t.remotes
      && (Right(t, r, a) <==> !Misled(t, r, ordered, c))
      && Remembered(t, u, r, ordered, c, a)
  {
    var b := BalancerOf(t, r);
    BalanceKeys(b);
    ChooseWithRightIff(t, r, ordered, c, Choice(b), Balance(b));
  }

  ghost predicate Remembered(t: Tables, u: Tables, r: Service, ordered: bool, c: Client, a: Option<Addr>) {
    && (if !ordered then Cached(u, c, r) == Cached(t, c, r)
        else if a.Some? then Cached(u, c, r) == a
        else Cached(u, c, r).None?)
    && (forall d, s :: !(d == c && s == r) ==> Cached(u, d, s) == Cached(t, d, s))
  }

  lemma ChooseWithRightIff(t: Tables, r: Service, ordered: bool, c: Client, ele: Addr, lb: Balancer)
    requires Agree(t) && Answers(BalancerOf(t, r), ele, lb)
    ensures var (a, u) := ChooseWith(t, r, ordered, c, ele, lb);
      && Agree(u) && u.remotes == t.remotes
      && (Right(t, r, a) <==> !Misled(t, r, ordered, c))
      && Remembered(t, u, r, ordered, c, a)
  {
    var cached := if ordered then Cached(t, c, r) else None;
    if cached.Some? && cached.value in t.remotes {
      assert t.remotes[cached.value] == r ==> Live(t, r);
    } else {
      var t1 := if cached.Some? then Forget(t, c, r) else t;
      CacheFacts(t, c, r, "");
      if r in t1.lbs {
        TakeRight(t1, r, ordered, c, ele, lb);
      }
      NoneLive(t, r);
    }
  }

  /** Where an address belongs to one service, the cache never misleads. */
  lemma ChooseSound(owner: map<Addr, Service>, t: Tables, r: Service, ordered: bool, c: Client)
    requires Inv(owner, t)
    ensures var (a, u) := Choose(t, r, ordered, c);
      && Inv(owner, u) && u.remotes == t.remotes && Right(t, r, a)
      && (a.Some? && ordered ==> Cached(u, c, r) == a)
      && (forall d, s :: !(ordered && d == c && s == r) ==> Cached(u, d, s) == Cached(t, d, s))
  {
    ChooseRightIff(t, r, ordered, c);
    var (a, u) := Choose(t, r, ordered, c);
    assert !Misled(t, r, ordered, c);
    forall d, s | Cached(u, d, s).Some? ensures var x := Cached(u, d, s).value; x in owner && owner[x] == s {
      assert Cached(u, d, s) == Cached(t, d, s) || (d == c && s == r && Cached(u, d, s) == a);
    }
  }

  lemma NoneLive(t: Tables, r: Service)
    requires Agree(t)
    ensures Live(t, r) <==> r in t.lbs && t.lbs[r].elements != map[]
  {
    if r in t.lbs && t.lbs[r].elements != map[] {
      var a :| a in t.lbs[r].elements;
      assert a in t.remotes && t.remotes[a] == r;
    }
  }

  lemma StepKeepsInv(owner: map<Addr, Service>, t: Tables, e: Event)
    requires Inv(owner, t) && Owned(owner, e)
    ensures Step(t, e).Some? && Inv(owner, Step(t, e).value)
  {
    match e
    case Connected(r, a) =>
      ConnectAgrees(t, r, a);
      SameCache(t, Connect(t, r, a));
    case Disappeared(r, a) =>
      if a in t.remotes {
        DisappearAgreesIff(t, r, a);
        SameCache(t, Disappear(t, r, a).value);
      }
    case Chosen(r, ordered, c) => ChooseSound(owner, t, r, ordered, c);
    case Closed(c) =>
      var u := Close(t, c);
      forall d, s | Cached(u, d, s).Some?
        ensures var a := Cached(u, d, s).value; a in owner && owner[a] == s
      {
        assert Cached(u, d, s) == Cached(t, d, s);
      }
  }

  /** Routing tables agree: in every run where an address always belongs to one service, nothing
      panics and the tables agree throughout. With ConnectAgrees and DisappearAgreesIff, adding to
      and deleting from a balancer never fails; with ChooseSound, every choice is right. */
  lemma {:induction false} TablesAgree(owner: map<Addr, Service>, es: seq<Event>)
    requires AllOwned(owner, es)
    ensures Run(EMPTY_TABLES, es).Some? && Inv(owner, Run(EMPTY_TABLES, es).value)
    decreases |es|
  {
    if es == [] {
    } else {
      TablesAgree(owner, es[..|es| - 1]);
      StepKeepsInv(owner, Run(EMPTY_TABLES, es[..|es| - 1]).value, es[|es| - 1]);
    }
  }

  /** No address is empty, and an address that disappears is named with the service it is of. */
  ghost predicate Proper(t: Tables, e: Event) {
    match e
    case Connected(r, a) => a != ""
    case Disappeared(r, a) => a in t.remotes ==> t.remotes[a] == r
    case _ => true
  }

  ghost predicate ProperRun(es: seq<Event>) {
    es == [] || (ProperRun(es[..|es| - 1]) && var before := Run(EMPTY_TABLES, es[..|es| - 1]);
                 before.Some? && Proper(before.value, es[|es| - 1]))
  }

  /** One step keeps the tables in agreement exactly when it is proper. */
  lemma StepAgreesIff(t: Tables, e: Event)
    requires Agree(t) && (e.Connected? ==> e.a != "")
    ensures var u := Step(t, e); u.Some? && Agree(u.value) <==> Proper(t, e)
  {
    match e
    case Connected(r, a) => ConnectAgrees(t, r, a);
    case Disappeared(r, a) => if a in t.remotes { DisappearAgreesIff(t, r, a); }
    case Chosen(r, ordered, c) => ChooseRightIff(t, r, ordered, c);
    case Closed(c) =>
  }

  /** So in every run in which disappearances name the right service the tables agree throughout,
      also where an address passes from one service to another; there ChooseRightIff tells which
      choices are right. */
  lemma {:induction false} ProperRunAgrees(es: seq<Event>)
    requires ProperRun(es)
    ensures Run(EMPTY_TABLES, es).Some? && Agree(Run(EMPTY_TABLES, es).value)
    decreases |es|
  {
    if es == [] {
    } else {
      var n := |es| - 1;
      ProperRunAgrees(es[..n]);
      StepAgreesIff(Run(EMPTY_TABLES, es[..n]).value, es[n]);
    }
  }

  // ---- Addresses that went under a wrong name ----

  /** The balancer of s has an address that is no remote any more. */
  predicate Stale(t: Tables, s: Service, a: Addr) {
    a !in t.remotes && s in t.lbs && a in t.lbs[s].elements
  }

  lemma WrongNameLeavesStale(t: Tables, r: Service, s: Service, a: Addr)
    requires Agree(t) && a in t.remotes && t.remotes[a] == s && s != r && r in t.lbs
    ensures Disappear(t, r, a).Some? && Stale(Disappear(t, r, a).value, s, a)
  {
    assert s in t.lbs && a in t.lbs[s].elements;
  }

  /** An address that is connected only as s's own. */
  ghost predicate OnlyAs(es: seq<Event>, s: Service, a: Addr) {
    forall i :: 0 <= i < |es| && es[i].Connected? && es[i].a == a ==> es[i].r == s
  }

  lemma StepKeepsStale(t: Tables, e: Event, s: Service, a: Addr)
    requires Stale(t, s, a) && (e.Connected? && e.a == a ==> e.r == s)
    ensures Step(t, e).Some? ==> Stale(Step(t, e).value, s, a)
  {
    match e
    case Chosen(r, ordered, c) => ChooseKeepsElements(t, r, ordered, c, s);
    case _ =>
  }

  lemma ChooseKeepsElements(t: Tables, r: Service, ordered: bool, c: Client, s: Service)
    requires s in t.lbs
    ensures var u := Choose(t, r, ordered, c).1;
      u.remotes == t.remotes && s in u.lbs && u.lbs[s].elements.Keys == t.lbs[s].elements.Keys
  {
    var b := BalancerOf(t, r);
    BalanceKeys(b);
    ChooseWithKeepsElements(t, r, ordered, c, Choice(b), Balance(b), s);
  }

  lemma ChooseWithKeepsElements(t: Tables, r: Service, ordered: bool, c: Client, a: Addr, lb: Balancer, s: Service)
    requires s in t.lbs && Answers(BalancerOf(t, r), a, lb)
    ensures var u := ChooseWith(t, r, ordered, c, a, lb).1;
      u.remotes == t.remotes && s in u.lbs && u.lbs[s].elements.Keys == t.lbs[s].elements.Keys
  {
  }

  /** Then it never returns: in no run in which it is connected only as what it is does it become a
      remote again, however often it connects. */
  lemma {:induction false} StaleAddressNeverReturns(t: Tables, es: seq<Event>, s: Service, a: Addr)
    requires Stale(t, s, a) && OnlyAs(es, s, a)
    ensures Run(t, es).Some? ==> Stale(Run(t, es).value, s, a)
    decreases |es|
  {
    if es == [] {
    } else {
      var n := |es| - 1;
      StaleAddressNeverReturns(t, es[..n], s, a);
      if Run(t, es[..n]).Some? {
        StepKeepsStale(Run(t, es[..n]).value, es[n], s, a);
      }
    }
  }

  /** Only by way of another service can it: connected as one of another service and gone as one of
      its own, it is free to connect again. */
  lemma StaleAddressReturnsThroughAnother(t: Tables, s: Service, r: Service, a: Addr)
    requires Stale(t, s, a) && r != s && a !in BalancerOf(t, r).elements
    ensures var u := Disappear(Connect(t, r, a), s, a);
      u.Some? && a !in u.value.remotes && a in Connect(u.value, s, a).remotes && Connect(u.value, s, a).remotes[a] == s
  {
  }

  // ---- Ordered requests stick ----

  /** Nothing takes this address away or closes this client. */
  ghost predicate Undisturbed(c: Client, a: Addr, es: seq<Event>) {
    forall i :: 0 <= i < |es| ==>
      !(es[i].Disappeared? && es[i].a == a) && !(es[i].Closed? && es[i].c == c)
  }

  ghost predicate Pinned(t: Tables, c: Client, r: Service, a: Addr) {
    Cached(t, c, r) == Some(a) && a in t.remotes
  }

  /** Whatever the tables, a choice touches the cache of its own client and service at most, and that
      only if it is ordered; and it leaves the remotes as they are. */
  lemma ChooseTouches(t: Tables, r: Service, ordered: bool, c: Client)
    ensures var u := Choose(t, r, ordered, c).1;
      && u.remotes == t.remotes
      && (forall d, s :: !(ordered && d == c && s == r) ==> Cached(u, d, s) == Cached(t, d, s))
  {
    var b := BalancerOf(t, r);
    ChooseWithTouches(t, r, ordered, c, Choice(b), Balance(b));
  }

  lemma ChooseWithTouches(t: Tables, r: Service, ordered: bool, c: Client, a: Addr, lb: Balancer)
    ensures var u := ChooseWith(t, r, ordered, c, a, lb).1;
      && u.remotes == t.remotes
      && (forall d, s :: !(ordered && d == c && s == r) ==> Cached(u, d, s) == Cached(t, d, s))
  {
    var t1 := if ordered && Cached(t, c, r).Some? then Forget(t, c, r) else t;
    CacheFacts(t, c, r, a);
    CacheFacts(t1.(lbs := t1.lbs[r := lb]), c, r, a);
    SameCache(t1, t1.(lbs := t1.lbs[r := lb]));
  }

  /** An ordered choice is pinned. */
  lemma ChoicePins(t: Tables, r: Service, c: Client)
    ensures var (a, u) := Choose(t, r, true, c); a.Some? ==> Pinned(u, c, r, a.value)
  {
    var b := BalancerOf(t, r);
    ChooseWithPins(t, r, c, Choice(b), Balance(b));
  }

  lemma ChooseWithPins(t: Tables, r: Service, c: Client, ele: Addr, lb: Balancer)
    ensures var (a, u) := ChooseWith(t, r, true, c, ele, lb); a.Some? ==> Pinned(u, c, r, a.value)
  {
    var t1 := if Cached(t, c, r).Some? then Forget(t, c, r) else t;
    CacheFacts(t1.(lbs := t1.lbs[r := lb]), c, r, ele);
  }

  lemma StepKeepsPin(t: Tables, e: Event, c: Client, r: Service, a: Addr)
    requires Pinned(t, c, r, a) && !(e.Disappeared? && e.a == a) && !(e.Closed? && e.c == c)
    ensures Step(t, e).Some? ==> Pinned(Step(t, e).value, c, r, a)
  {
    match e
    case Connected(s, b) => SameCache(t, Connect(t, s, b));
    case Disappeared(s, b) =>
    case Closed(d) =>
    case Chosen(s, ordered, d) =>
      if ordered && d == c && s == r {
        CacheHit(t, r, c, a);
      } else {
        ChooseTouches(t, s, ordered, d);
      }
  }

  lemma {:induction false} PinStays(t: Tables, es: seq<Event>, c: Client, r: Service, a: Addr)
    requires Undisturbed(c, a, es) && Pinned(t, c, r, a)
    ensures Run(t, es).Some? ==> Pinned(Run(t, es).value, c, r, a)
    decreases |es|
  {
    if es == [] {
    } else {
      var n := |es| - 1;
      PinStays(t, es[..n], c, r, a);
      if Run(t, es[..n]).Some? {
        StepKeepsPin(Run(t, es[..n]).value, es[n], c, r, a);
      }
    }
  }

  /** All ordered requests of a client to a service go to the address the first of them got, from any
      tables whatever and whatever happens in between (addresses may pass between services), until
      that remote disappears or the client's connection closes. */
  lemma OrderedIsSticky(t0: Tables, between: seq<Event>, c: Client, r: Service)
    ensures var (first, t) := Choose(t0, r, true, c);
      first.Some? && Undisturbed(c, first.value, between) && Run(t, between).Some? ==>
        Choose(Run(t, between).value, r, true, c) == (first, Run(t, between).value)
  {
    var (first, t) := Choose(t0, r, true, c);
    ChoicePins(t0, r, c);
    if first.Some? && Undisturbed(c, first.value, between) && Run(t, between).Some? {
      PinStays(t, between, c, r, first.value);
      CacheHit(Run(t, between).value, r, c, first.value);
    }
  }

  /** After every proper run, where the service has a live remote: an ordered request is given, and
      pinned to, a live remote of it exactly when the cache does not mislead; so in particular when
      the address it was pinned to has disappeared. */
  lemma OrderedRepinsIff(es: seq<Event>, c: Client, r: Service)
    requires ProperRun(es) && Run(EMPTY_TABLES, es).Some? && Live(Run(EMPTY_TABLES, es).value, r)
    ensures var t := Run(EMPTY_TABLES, es).value;
      var (a, u) := Choose(t, r, true, c);
      && (a.Some? && t.remotes[a.value] == r && Pinned(u, c, r, a.value) <==> !Misled(t, r, true, c))
      && (Cached(t, c, r).Some? && Cached(t, c, r).value !in t.remotes ==> !Misled(t, r, true, c))
  {
    var t := Run(EMPTY_TABLES, es).value;
    ProperRunAgrees(es);
    ChooseRightIff(t, r, true, c);
    ChoicePins(t, r, c);
  }

  /** Where an address passes from one service to another, the cache does route wrongly, though the
      tables agree all the time: an ordered request for the first service reaches a remote of the
      second. */
  lemma ReusedAddressMisroutes()
    ensures var es := [Connected("s1", "a"), Chosen("s1", true, "c"), Disappeared("s1", "a"), Connected("s2", "a")];
      && Run(EMPTY_TABLES, es).Some?
      && var t := Run(EMPTY_TABLES, es).value;
         && Agree(t) && Misled(t, "s1", true, "c")
         && Choose(t, "s1", true, "c").0 == Some("a") && t.remotes["a"] == "s2"
  {
    var e1, e2, e3, e4 := Connected("s1", "a"), Chosen("s1", true, "c"), Disappeared("s1", "a"), Connected("s2", "a");
    var t2 := PinnedToFirst();
    var t3 := Disappear(t2, "s1", "a").value;
    assert [e1, e2] + [e3] == [e1, e2, e3] && [e1, e2, e3] + [e4] == [e1, e2, e3, e4];
    RunOneMore(EMPTY_TABLES, [e1, e2], t2, e3);
    RunOneMore(EMPTY_TABLES, [e1, e2, e3], t3, e4);
    DisappearAgreesIff(t2, "s1", "a");
    ConnectAgrees(t3, "s2", "a");
    CacheHit(Connect(t3, "s2", "a"), "s1", "c", "a");
  }

  lemma CacheHit(t: Tables, r: Service, c: Client, a: Addr)
    requires Cached(t, c, r) == Some(a) && a in t.remotes
    ensures Choose(t, r, true, c) == (Some(a), t)
  {
  }

  lemma PinnedToFirst() returns (t: Tables)
    ensures Run(EMPTY_TABLES, [Connected("s1", "a"), Chosen("s1", true, "c")]) == Some(t)
    ensures Agree(t) && Cached(t, "c", "s1") == Some("a") && t.remotes == map["a" := "s1"] && t.lbs.Keys == {"s1"}
  {
    var e1, e2 := Connected("s1", "a"), Chosen("s1", true, "c");
    var t1 := Connect(EMPTY_TABLES, "s1", "a");
    assert [] + [e1] == [e1] && [e1] + [e2] == [e1, e2];
    RunOneMore(EMPTY_TABLES, [], EMPTY_TABLES, e1);
    RunOneMore(EMPTY_TABLES, [e1], t1, e2);
    ConnectAgrees(EMPTY_TABLES, "s1", "a");
    OnlyChoice(t1, "s1", "c", "a");
    t := Choose(t1, "s1", true, "c").1;
  }

  /** The only remote there is, is chosen. */
  lemma OnlyChoice(t: Tables, r: Service, c: Client, a: Addr)
    requires Agree(t) && t.remotes == map[a := r] && t.lbs.Keys == {r} && Cached(t, c, r).None?
    ensures var u := Choose(t, r, true, c).1;
      Agree(u) && Cached(u, c, r) == Some(a) && u.remotes == t.remotes && u.lbs.Keys == {r}
  {
    assert a in t.remotes && Live(t, r);
    ChooseRightIff(t, r, true, c);
    ChooseKeepsServices(t, r, true, c);
  }

  lemma ChooseKeepsServices(t: Tables, r: Service, ordered: bool, c: Client)
    ensures Choose(t, r, ordered, c).1.lbs.Keys == t.lbs.Keys
  {
  }

  lemma RunOneMore(t: Tables, es: seq<Event>, u: Tables, e: Event)
    requires Run(t, es) == Some(u)
    ensures Run(t, es + [e]) == Step(u, e)
  {
    assert (es + [e])[..|es|] == es;
  }

  // ---- Balancing ----

  ghost function LiveOf(t: Tables, r: Service): set<Addr> {
    set a | a in t.remotes && t.remotes[a] == r
  }

  lemma LiveIsElements(t: Tables, r: Service)
    requires Agree(t)
    ensures LiveOf(t, r) == BalancerOf(t, r).elements.Keys
    ensures LiveOf(t, r) != {} ==> r in t.lbs
  {
    forall a ensures a in LiveOf(t, r) <==> a in BalancerOf(t, r).elements.Keys {
      assert a in t.remotes && t.remotes[a] == r <==> r in t.lbs && a in t.lbs[r].elements;
    }
  }

  /** A step that asks the service for a remote and does not find the answer in the cache. */
  predicate Asks(t: Tables, e: Event, r: Service) {
    e.Chosen? && e.r == r && !(e.ordered && var a := Cached(t, e.c, r); a.Some? && a.value in t.remotes)
  }

  /** A step of a kind that keeps agreement and that leaves the live remotes of the service as they
      are: anything may happen to other services, clients and the cache. */
  ghost predicate Steady(t: Tables, e: Event, r: Service) {
    Proper(t, e) && Step(t, e).Some? && LiveOf(Step(t, e).value, r) == LiveOf(t, r)
  }

  ghost predicate SteadyRun(t: Tables, es: seq<Event>, r: Service)
    decreases |es|
  {
    es == [] || (Steady(t, es[0], r) && SteadyRun(Step(t, es[0]).value, es[1..], r))
  }

  ghost function Asked(t: Tables, es: seq<Event>, r: Service): nat
    requires SteadyRun(t, es, r)
    decreases |es|
  {
    if es == [] then 0 else (if Asks(t, es[0], r) then 1 else 0) + Asked(Step(t, es[0]).value, es[1..], r)
  }

  ghost predicate Picks(t: Tables, e: Event, r: Service, a: Addr) {
    Asks(t, e, r) && Choose(t, r, e.ordered, e.c).0 == Some(a)
  }

  /** How often a run's requests for the service, other than those the cache answers, are given a. */
  ghost function Picked(t: Tables, es: seq<Event>, r: Service, a: Addr): nat
    requires SteadyRun(t, es, r)
    decreases |es|
  {
    if es == [] then 0 else (if Picks(t, es[0], r, a) then 1 else 0) + Picked(Step(t, es[0]).value, es[1..], r, a)
  }

  /** A step that asks moves the service's balancer on by one call, and gets the answer of that call. */
  lemma AskedBalances(t: Tables, e: Event, r: Service)
    requires Agree(t) && r in t.lbs && t.lbs[r].elements != map[] && Asks(t, e, r)
    ensures var u := Step(t, e).value; r in u.lbs && u.lbs[r] == Balance(t.lbs[r])
    ensures Choose(t, r, e.ordered, e.c).0 == Some(Choice(t.lbs[r]))
  {
    var a := Choice(t.lbs[r]);
    assert a in t.remotes && t.remotes[a] == r;
  }

  /** Any other steady step leaves it alone. */
  lemma OthersLeaveBalancer(t: Tables, e: Event, r: Service)
    requires Agree(t) && r in t.lbs && Steady(t, e, r) && !Asks(t, e, r)
    ensures var u := Step(t, e).value; r in u.lbs && u.lbs[r] == t.lbs[r]
  {
    match e
    case Connected(s, a) => ConnectShows(t, s, a);
    case Disappeared(s, a) => DisappearShows(t, s, a);
    case Chosen(s, ordered, c) =>
      var b := BalancerOf(t, s);
      ChooseLeavesBalancer(t, s, ordered, c, Choice(b), Balance(b), r);
    case Closed(c) =>
  }

  lemma ConnectShows(t: Tables, s: Service, a: Addr)
    requires Agree(t) && a != ""
    ensures a !in t.remotes ==> LiveOf(Connect(t, s, a), s) != LiveOf(t, s)
    ensures forall r :: r in t.lbs && (r != s || a in t.remotes) ==>
      r in Connect(t, s, a).lbs && Connect(t, s, a).lbs[r] == t.lbs[r]
  {
    ConnectAgrees(t, s, a);
    var u := Connect(t, s, a);
    assert a !in t.remotes ==> a in LiveOf(u, s) && a !in LiveOf(t, s);
  }

  lemma DisappearShows(t: Tables, s: Service, a: Addr)
    requires Agree(t) && (a in t.remotes ==> t.remotes[a] == s)
    ensures var u := Disappear(t, s, a);
      && u.Some?
      && (a in t.remotes ==> LiveOf(u.value, s) != LiveOf(t, s))
      && forall r :: r in t.lbs && (r != s || a !in t.remotes) ==> r in u.value.lbs && u.value.lbs[r] == t.lbs[r]
  {
    assert a in t.remotes ==> s in t.lbs;
    var u := Disappear(t, s, a);
    assert a in t.remotes ==> a in LiveOf(t, s) && a !in LiveOf(u.value, s);
  }

  lemma ChooseLeavesBalancer(t: Tables, s: Service, ordered: bool, c: Client, a: Addr, lb: Balancer, r: Service)
    requires r in t.lbs && !Asks(t, Chosen(s, ordered, c), r)
    ensures var u := ChooseWith(t, s, ordered, c, a, lb).1; r in u.lbs && u.lbs[r] == t.lbs[r]
  {
  }

  /** What a step that asks does, as far as place p of the listing goes. */
  lemma AskStep(t: Tables, e: Event, r: Service, p: nat) returns (u: Tables)
    requires Agree(t) && Steady(t, e, r) && Asks(t, e, r) && r in t.lbs && p < |t.lbs[r].elements|
    ensures Agree(u) && Step(t, e) == Some(u) && r in u.lbs && p < |u.lbs[r].elements|
    ensures OneCall(t.lbs[r], u.lbs[r], p)
    ensures Picks(t, e, r, At(t.lbs[r], p)) <==> p == Position(|t.lbs[r].elements|, t.lbs[r].rrbIdx)
  {
    var b := t.lbs[r];
    StepAgreesIff(t, e);
    AskedBalances(t, e, r);
    BalanceAt(b, p);
    ChoiceIsAt(b, p);
    u := Step(t, e).value;
  }

  lemma OtherStep(t: Tables, e: Event, r: Service) returns (u: Tables)
    requires Agree(t) && Steady(t, e, r) && !Asks(t, e, r) && r in t.lbs
    ensures Agree(u) && Step(t, e) == Some(u) && r in u.lbs && u.lbs[r] == t.lbs[r]
  {
    StepAgreesIff(t, e);
    OthersLeaveBalancer(t, e, r);
    u := Step(t, e).value;
  }

  /** The remote at a place of the balancer's listing is given as often as that place is taken. */
  lemma {:induction false} PickedAsTaken(t: Tables, es: seq<Event>, r: Service, p: nat)
    requires Agree(t) && SteadyRun(t, es, r) && r in t.lbs && p < |t.lbs[r].elements|
    ensures var b := t.lbs[r];
      Picked(t, es, r, At(b, p)) == Count(Taken(|b.elements|, b.rrbIdx, Asked(t, es, r)), p)
    decreases |es|
  {
    if es == [] {
    } else if Asks(t, es[0], r) {
      var u := AskStep(t, es[0], r, p);
      PickedAsTaken(u, es[1..], r, p);
      FirstOf(t, es, r, At(t.lbs[r], p), u);
      CountStep(|t.lbs[r].elements|, t.lbs[r].rrbIdx, Asked(t, es, r), p);
    } else {
      var u := OtherStep(t, es[0], r);
      PickedAsTaken(u, es[1..], r, p);
      FirstOf(t, es, r, At(t.lbs[r], p), u);
    }
  }

  lemma FirstOf(t: Tables, es: seq<Event>, r: Service, a: Addr, u: Tables)
    requires es != [] && SteadyRun(t, es, r) && Step(t, es[0]) == Some(u)
    ensures Asked(t, es, r) == Asked(u, es[1..], r) + if Asks(t, es[0], r) then 1 else 0
    ensures Picked(t, es, r, a) == Picked(u, es[1..], r, a) + if Picks(t, es[0], r, a) then 1 else 0
    ensures !Asks(t, es[0], r) ==> !Picks(t, es[0], r, a)
  {
  }

  /** Balancing reaches the requests. From any tables that agree, over any run that leaves the live
      remotes of a service as they are, up to 65535 of them, any two of these are given to requests
      equally often, or one of them once more. */
  lemma ChoicesAreFair(t: Tables, es: seq<Event>, r: Service, a: Addr, b: Addr)
    requires Agree(t) && SteadyRun(t, es, r) && |LiveOf(t, r)| < TWO_16 && a in LiveOf(t, r) && b in LiveOf(t, r)
    ensures Picked(t, es, r, a) <= Picked(t, es, r, b) + 1
  {
    LiveIsElements(t, r);
    var lb := t.lbs[r];
    var p := PlaceOf(lb, a);
    var q := PlaceOf(lb, b);
    PickedAsTaken(t, es, r, p);
    PickedAsTaken(t, es, r, q);
    FairAt(|lb.elements|, lb.rrbIdx, Asked(t, es, r), p, q);
  }
}

/** The manager itself: maps and balancers changed in place. A Remote is represented by the id of
    its service; each lock region, and ChoiceRemote as a whole, is one step. */
module RemoteManager {
  import opened Options
  import opened LoadBalancing
  import opened RoutingTables

  class RemoteMgr {
    var remotes: map<Addr, Service>
    var lbs: map<Service, LoadBalancer>
    var orderedCache: map<Client, map<Service, Addr>>

    /** No two services share a balancer. */
    ghost predicate Valid()
      reads this
    {
      forall r, s :: r in lbs && s in lbs && r != s ==> lbs[r] != lbs[s]
    }

    ghost function Value(): Tables
      reads this, lbs.Values
    {
      Tables(remotes, map r | r in lbs :: lbs[r].Value(), orderedCache)
    }

    constructor ()
      ensures Valid() && Value() == EMPTY_TABLES
    {
      remotes, lbs, orderedCache := map[], map[], map[];
    }

    method ConnectRemote(r: Service, a: Addr)
      requires Valid()
      modifies this, lbs.Values
      ensures Valid() && Value() == Connect(old(Value()), r, a)
      ensures forall lb | lb in lbs.Values :: lb in old(lbs.Values) || fresh(lb)
    {
      if a in remotes {
        return;
      }
      ghost var t := Value();
      ghost var lb := BalancerOf(t, r);
      assert t.lbs[r := lb][r := Add(lb, a)] == t.lbs[r := Add(lb, a)];
      assert r in t.lbs ==> t.lbs[r := lb] == t.lbs;
      EnsureBalancer(r);
      assert lbs[r].Value() == Value().lbs[r] == lb;
      var ok := AddTo(r, a);
      if ok {
        EnterRemote(a, r);
      }
    }

    method EnterRemote(a: Addr, r: Service)
      modifies `remotes
      ensures Value() == old(Value()).(remotes := old(remotes)[a := r])
    {
      remotes := remotes[a := r];
    }

    /** The service has a balancer from now on. */
    method EnsureBalancer(r: Service)
      requires Valid()
      modifies `lbs
      ensures Valid() && r in lbs
      ensures Value() == old(Value()).(lbs := old(Value()).lbs[r := BalancerOf(old(Value()), r)])
      ensures forall lb | lb in lbs.Values :: lb in old(lbs.Values) || fresh(lb)
    {
      if r !in lbs {
        var lb := new LoadBalancer();
        lbs := lbs[r := lb];
      }
      assert Value().lbs == old(Value()).lbs[r := BalancerOf(old(Value()), r)];
    }

    method AddTo(r: Service, a: Addr) returns (ok: bool)
      requires Valid() && r in lbs
      modifies lbs[r]
      ensures ok <==> a !in old(lbs[r].elements)
      ensures var t := old(Value()); Value() == if ok then t.(lbs := t.lbs[r := Add(t.lbs[r], a)]) else t
    {
      ok := lbs[r].AddElement(a);
      assert Value().lbs == if ok then old(Value()).lbs[r := Add(old(Value()).lbs[r], a)] else old(Value()).lbs;
    }

    /** ok is false where the source panics. */
    method OnRemoteDisappear(r: Service, a: Addr) returns (ok: bool)
      requires Valid()
      modifies this, lbs.Values
      ensures Valid() && lbs == old(lbs)
      ensures ok <==> Disappear(old(Value()), r, a).Some?
      ensures ok ==> Value() == Disappear(old(Value()), r, a).value
    {
      if a !in remotes {
        return true;
      }
      remotes := remotes - {a};
      if r !in lbs {
        return false;
      }
      ghost var lb := lbs[r].Value();
      var found := lbs[r].DelElement(a);
      assert a !in lb.elements ==> lb.elements - {a} == lb.elements;
      assert Value().lbs == old(Value()).lbs[r := Del(lb, a)];
      return true;
    }

    method ChoiceRemote(r: Service, ordered: bool, c: Client) returns (a: Option<Addr>)
      requires Valid()
      modifies this, lbs.Values
      ensures Valid() && lbs == old(lbs)
      ensures (a, Value()) == Choose(old(Value()), r, ordered, c)
      ensures r in lbs && Asks(old(Value()), Chosen(r, ordered, c), r) ==> lbs[r].Value() == Balance(old(lbs[r].Value()))
      ensures r in lbs && !Asks(old(Value()), Chosen(r, ordered, c), r) ==> lbs[r].Value() == old(lbs[r].Value())
    {
      if ordered {
        a := FromOrderCache(r, c);
        if a.Some? {
          return;
        }
      }
      if r !in lbs {
        return None;
      }
      var connID := BalanceOn(r);
      assert Value().lbs[r] == lbs[r].Value();
      if connID !in remotes {
        return None;
      }
      if ordered {
        UpdateRemoteOrderCache(r, c, connID);
      }
      return Some(connID);
    }

    method BalanceOn(r: Service) returns (ele: Addr)
      requires Valid() && r in lbs
      modifies lbs[r]
      ensures var t := old(Value()); ele == Choice(t.lbs[r]) && Value() == t.(lbs := t.lbs[r := Balance(t.lbs[r])])
    {
      ghost var b := lbs[r].Value();
      ele := lbs[r].LoadBalance();
      assert Value().lbs == old(Value()).lbs[r := Balance(b)];
    }

    method UpdateRemoteOrderCache(r: Service, c: Client, a: Addr)
      modifies `orderedCache
      ensures Value() == Pin(old(Value()), c, r, a)
    {
      var cache := if c in orderedCache then orderedCache[c] else map[];
      orderedCache := orderedCache[c := cache[r := a]];
    }

    method FromOrderCache(r: Service, c: Client) returns (a: Option<Addr>)
      modifies `orderedCache
      ensures var cached := Cached(old(Value()), c, r);
        if cached.Some? && cached.value in remotes then a == cached && Value() == old(Value())
        else a == None && Value() == if cached.Some? then Forget(old(Value()), c, r) else old(Value())
    {
      if c !in orderedCache {
        return None;
      }
      if r !in orderedCache[c] {
        return None;
      }
      var connID := orderedCache[c][r];
      if connID !in remotes {
        orderedCache := orderedCache[c := orderedCache[c] - {r}];
        return None;
      }
      return Some(connID);
    }

    method DelRemoteOrderCache(c: Client)
      modifies `orderedCache
      ensures Value() == Close(old(Value()), c)
      ensures forall d, r :: Cached(Value(), d, r) == if d == c then None else Cached(old(Value()), d, r)
    {
      orderedCache := orderedCache - {c};
    }
  }
}
