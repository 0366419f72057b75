/** Process-wide ids, as GenGid makes them (ms_framework/msf_utils.go): a uint32 counter. */
module Gid {
  import opened MachineInts

  /** The counter after one call, which is also the id that call returns. */
  function Next(gid: uint32): uint32 {
    if gid == TWO_32 - 1 then 0 else gid + 1
  }

  /** The id returned by the n-th call of a process (the counter starts at 0). */
  function Nth(n: nat): uint32 {
    if n == 0 then 0 else Next(Nth(n - 1))
  }

  /** The n-th id is n but for whole rounds of the counter. */
  lemma {:induction false} NthRounds(n: nat) returns (rounds: nat)
    ensures n == Nth(n) + rounds * 0x1_0000_0000
  {
    if n == 0 {
      rounds := 0;
    } else {
      rounds := NthRounds(n - 1);
      rounds := if Nth(n) == 0 then rounds + 1 else rounds;
    }
  }

  lemma NthIsModulo(n: nat)
    ensures Nth(n) == n % 0x1_0000_0000
  {
    var rounds := NthRounds(n);
  }

  lemma {:induction false} NthBelow(n: nat)
    requires n < TWO_32
    ensures Nth(n) == n
  {
    if n == 0 {
    } else {
      NthBelow(n - 1);
    }
  }

  lemma NthWraps()
    ensures Nth(TWO_32) == 0
  {
    NthBelow(TWO_32 - 1);
  }

  /** The ids of the first n calls are distinct and non-zero exactly when n is below 2^32. */
  lemma IdsDistinctIff(n: nat)
    ensures (forall i, j :: 1 <= i < j <= n ==> Nth(i) != Nth(j)) && (forall i :: 1 <= i <= n ==> Nth(i) != 0)
            <==> n < TWO_32
  {
    if n < TWO_32 {
      forall i: nat | i <= n ensures Nth(i) == i {
        NthBelow(i);
      }
    } else {
      NthWraps();
    }
  }
}

/** The callback manager of ms_framework/msf_callback_mgr_new.go under every interleaving.

    AddCallBack and GetCallBack each take two steps: one under the mutex, on the map, and a later
    one when the manager's goroutine receives the node from a channel. A tick is as many steps as
    it pops nodes; while it lasts the manager receives nothing, but the map stays open to others. */
module CallbackRace {
  import opened Options
  import opened MachineInts
  import opened CallbackSpec

  /** A node: its identity, which every AddCallBack makes anew, and what it holds. */
  datatype Node = Node(key: nat, e: Entry)

  datatype State = State(
    nextKey: nat,
    added: multiset<uint32>,        // ids given to AddCallBack
    overwritten: multiset<uint32>,  // ids given to it while they were in the map
    cbMap: map<uint32, Node>,
    adding: set<Node>,              // nodes whose sender waits on chQueueAdd
    deleting: set<Node>,            // nodes whose sender waits on chQueueDel
    list: seq<Node>,
    ticking: Option<int>,           // the clock of the tick in progress
    handed: multiset<uint32>,       // ids GetCallBack took out of the map
    timedOut: multiset<uint32>)     // ids a tick took out of the map

  const INIT := State(0, multiset{}, multiset{}, map[], {}, {}, [], None, multiset{}, multiset{})

  datatype Event =
    | AddToMap(e: Entry)
    | AddToList(n: Node)
    | GetFromMap(id: uint32)
    | DelFromList(n: Node)
    | TickStart(now: int)
    | TickPop
    | TickEnd

  function Entries(list: seq<Node>): (es: seq<Entry>)
    ensures |es| == |list|
    ensures forall i :: 0 <= i < |list| ==> es[i] == list[i].e
  {
    seq(|list|, i requires 0 <= i < |list| => list[i].e)
  }

  predicate Ended(list: seq<Node>, now: int) {
    list != [] && list[|list| - 1].e.endTime <= now
  }

  predicate Enabled(s: State, ev: Event) {
    match ev
    case AddToMap(e) => true
    case AddToList(n) => n in s.adding && s.ticking.None?
    case GetFromMap(id) => true
    case DelFromList(n) => n in s.deleting && s.ticking.None?
    case TickStart(now) => s.ticking.None?
    case TickPop => s.ticking.Some? && Ended(s.list, s.ticking.value)
    case TickEnd => s.ticking.Some? && !Ended(s.list, s.ticking.value)
  }

  /** The place is found by end times alone, as in the queue. */
  function InsertNode(list: seq<Node>, n: Node): seq<Node> {
    var k := InsertPos(Entries(list), n.e.endTime);
    list[..k] + [n] + list[k..]
  }

  function IndexOf(list: seq<Node>, n: Node): (i: int)
    ensures -1 <= i < |list|
    ensures if i >= 0 then list[i] == n else n !in list
  {
    if list == [] then -1
    else if list[|list| - 1] == n then |list| - 1
    else IndexOf(list[..|list| - 1], n)
  }

  /** The list without a node, which may be absent. */
  function Without(list: seq<Node>, n: Node): seq<Node> {
    var i := IndexOf(list, n);
    if i >= 0 then RemoveAt(list, i) else list
  }

  function Do(s: State, ev: Event): State
    requires Enabled(s, ev)
  {
    match ev
    case AddToMap(e) =>
      var n := Node(s.nextKey, e);
      s.(nextKey := s.nextKey + 1, added := s.added + multiset{e.cbid},
         overwritten := s.overwritten + if e.cbid in s.cbMap then multiset{e.cbid} else multiset{},
         cbMap := s.cbMap[e.cbid := n], adding := s.adding + {n})
    case AddToList(n) =>
      s.(adding := s.adding - {n}, list := InsertNode(s.list, n))
    case GetFromMap(id) =>
      if id in s.cbMap then
        s.(cbMap := s.cbMap - {id}, deleting := s.deleting + {s.cbMap[id]}, handed := s.handed + multiset{id})
      else s
    case DelFromList(n) =>
      s.(deleting := s.deleting - {n}, list := Without(s.list, n))
    case TickStart(now) => s.(ticking := Some(now))
    case TickPop =>
      var id := s.list[|s.list| - 1].e.cbid;
      s.(cbMap := s.cbMap - {id}, list := s.list[..|s.list| - 1],
         timedOut := s.timedOut + if id in s.cbMap then multiset{id} else multiset{})
    case TickEnd => s.(ticking := None)
  }

  function RunFrom(s: State, evs: seq<Event>): Option<State> {
    if evs == [] then Some(s)
    else
      var n := |evs| - 1;
      var before := RunFrom(s, evs[..n]);
      if before.Some? && Enabled(before.value, evs[n]) then Some(Do(before.value, evs[n])) else None
  }

  function Run(evs: seq<Event>): Option<State> {
    RunFrom(INIT, evs)
  }

  // ---- The list operations, seen as sets of nodes ----

  lemma InsertMembers(list: seq<Node>, n: Node)
    ensures forall f :: f in InsertNode(list, n) <==> f in list || f == n
  {
    var k := InsertPos(Entries(list), n.e.endTime);
    assert list == list[..k] + list[k..];
  }

  lemma InsertSorted(list: seq<Node>, n: Node)
    requires TailSorted(Entries(list))
    ensures TailSorted(Entries(InsertNode(list, n)))
  {
    InsertKeepsOrder(Entries(list), n.e);
    InsertEntries(list, n);
  }

  lemma InsertEntries(list: seq<Node>, n: Node)
    ensures Entries(InsertNode(list, n)) == Insert(Entries(list), n.e)
  {
    var k, after := InsertPos(Entries(list), n.e.endTime), InsertNode(list, n);
    var es := Insert(Entries(list), n.e);
    forall i | 0 <= i < |after| ensures Entries(after)[i] == es[i] {
      assert after[i] == if i < k then list[i] else if i == k then n else list[i - 1];
    }
  }

  lemma WithoutMembers(list: seq<Node>, n: Node)
    ensures forall f :: f in Without(list, n) ==> f in list
    ensures forall f :: f in list && f != n ==> f in Without(list, n)
  {
    var i := IndexOf(list, n);
    if i >= 0 {
      assert list == list[..i] + [n] + list[i + 1..];
    }
  }

  lemma WithoutSorted(list: seq<Node>, n: Node)
    requires TailSorted(Entries(list))
    ensures TailSorted(Entries(Without(list, n)))
  {
    var i := IndexOf(list, n);
    if i >= 0 {
      var l := Without(list, n);
      assert forall k :: 0 <= k < |l| ==> l[k] == if k < i then list[k] else list[k + 1];
    }
  }

  // ---- What every run keeps ----

  function Times(s: State, id: uint32): nat {
    s.handed[id] + s.timedOut[id] + if id in s.cbMap then 1 else 0
  }

  ghost predicate Accounts(s: State) {
    forall id :: Times(s, id) + s.overwritten[id] == s.added[id]
  }

  /** An id waiting in the map has its node in the list or on the way there. */
  ghost predicate WaitingOk(cbMap: map<uint32, Node>, adding: set<Node>, list: seq<Node>) {
    forall id :: id in cbMap ==> cbMap[id].e.cbid == id && (cbMap[id] in adding || cbMap[id] in list)
  }

  predicate Holds(cbMap: map<uint32, Node>, n: Node) {
    n.e.cbid in cbMap && cbMap[n.e.cbid] == n
  }

  ghost predicate DeletingOk(cbMap: map<uint32, Node>, deleting: set<Node>) {
    forall n :: n in deleting ==> !Holds(cbMap, n)
  }

  /** Nodes have keys and ids that were given out. */
  ghost predicate Known(s: State, n: Node) {
    n.key < s.nextKey && n.e.cbid in s.added
  }

  ghost predicate AllKnown(s: State) {
    && (forall n :: n in s.adding ==> Known(s, n))
    && (forall n :: n in s.deleting ==> Known(s, n))
    && (forall n :: n in s.list ==> Known(s, n))
  }

  ghost predicate Inv(s: State) {
    && Accounts(s)
    && WaitingOk(s.cbMap, s.adding, s.list)
    && DeletingOk(s.cbMap, s.deleting)
    && AllKnown(s)
    && TailSorted(Entries(s.list))
  }

  lemma StepKeepsAccounts(s: State, ev: Event)
    requires Accounts(s) && Enabled(s, ev)
    ensures Accounts(Do(s, ev))
  {
    forall id ensures Times(Do(s, ev), id) + Do(s, ev).overwritten[id] == Do(s, ev).added[id] {
      assert Times(s, id) + s.overwritten[id] == s.added[id];
    }
  }

  lemma StepKeepsKnown(s: State, ev: Event)
    requires AllKnown(s) && WaitingOk(s.cbMap, s.adding, s.list) && Enabled(s, ev)
    ensures AllKnown(Do(s, ev))
  {
    match ev
    case AddToList(n) => InsertMembers(s.list, n);
    case DelFromList(n) => WithoutMembers(s.list, n);
    case GetFromMap(id) => assert id in s.cbMap ==> Known(s, s.cbMap[id]);
    case TickPop => assert forall n :: n in Do(s, ev).list ==> n in s.list;
    case _ =>
  }

  lemma AddKeepsInv(s: State, e: Entry)
    requires Inv(s)
    ensures Inv(Do(s, AddToMap(e)))
  {
    StepKeepsAccounts(s, AddToMap(e));
    StepKeepsKnown(s, AddToMap(e));
  }

  lemma AddToListKeepsInv(s: State, n: Node)
    requires Inv(s) && Enabled(s, AddToList(n))
    ensures Inv(Do(s, AddToList(n)))
  {
    StepKeepsAccounts(s, AddToList(n));
    StepKeepsKnown(s, AddToList(n));
    InsertMembers(s.list, n);
    InsertSorted(s.list, n);
  }

  lemma GetKeepsInv(s: State, id: uint32)
    requires Inv(s)
    ensures Inv(Do(s, GetFromMap(id)))
  {
    StepKeepsAccounts(s, GetFromMap(id));
    StepKeepsKnown(s, GetFromMap(id));
  }

  lemma DelKeepsInv(s: State, n: Node)
    requires Inv(s) && Enabled(s, DelFromList(n))
    ensures Inv(Do(s, DelFromList(n)))
  {
    StepKeepsAccounts(s, DelFromList(n));
    StepKeepsKnown(s, DelFromList(n));
    WithoutMembers(s.list, n);
    WithoutSorted(s.list, n);
    assert !Holds(s.cbMap, n);
  }

  lemma PopKeepsInv(s: State)
    requires Inv(s) && Enabled(s, TickPop)
    ensures Inv(Do(s, TickPop))
  {
    StepKeepsAccounts(s, TickPop);
    StepKeepsKnown(s, TickPop);
    var t, n := Do(s, TickPop), |s.list| - 1;
    assert s.list == t.list + [s.list[n]];
  }

  lemma StepKeepsInv(s: State, ev: Event)
    requires Inv(s) && Enabled(s, ev)
    ensures Inv(Do(s, ev))
  {
    match ev
    case AddToMap(e) => AddKeepsInv(s, e);
    case AddToList(n) => AddToListKeepsInv(s, n);
    case GetFromMap(id) => GetKeepsInv(s, id);
    case DelFromList(n) => DelKeepsInv(s, n);
    case TickPop => PopKeepsInv(s);
    case TickStart(now) => StepKeepsAccounts(s, ev);
    case TickEnd => StepKeepsAccounts(s, ev);
  }

  lemma {:induction false} RunKeepsInv(evs: seq<Event>)
    requires Run(evs).Some?
    ensures Inv(Run(evs).value)
  {
    if evs == [] {
    } else {
      RunKeepsInv(evs[..|evs| - 1]);
      StepKeepsInv(Run(evs[..|evs| - 1]).value, evs[|evs| - 1]);
    }
  }

  /** At every point of every run: each add of an id is still waiting in the map, or was handed out,
      or timed out, or was overwritten by a later add, exactly one of these. So every add ends as it
      should, handed out or timed out or waiting, exactly if no add came while its id was waiting.
      And an id waiting in the map has its node in the list or its add still in flight. */
  lemma CallbackRaceSafety(evs: seq<Event>)
    requires Run(evs).Some?
    ensures var s := Run(evs).value;
      && (forall id :: s.handed[id] + s.timedOut[id] + (if id in s.cbMap then 1 else 0) + s.overwritten[id] == s.added[id])
      && ((forall id :: s.handed[id] + s.timedOut[id] + (if id in s.cbMap then 1 else 0) == s.added[id])
          <==> s.overwritten == multiset{})
      && (forall id :: id in s.cbMap ==> s.cbMap[id] in s.adding || s.cbMap[id] in s.list)
  {
    RunKeepsInv(evs);
    var s := Run(evs).value;
    forall id ensures s.handed[id] + s.timedOut[id] + (if id in s.cbMap then 1 else 0) + s.overwritten[id] == s.added[id] {
      assert Times(s, id) + s.overwritten[id] == s.added[id];
    }
    if s.overwritten != multiset{} {
      var id :| id in s.overwritten;
      assert s.handed[id] + s.timedOut[id] + (if id in s.cbMap then 1 else 0) < s.added[id];
    }
  }

  // ---- Deleted nodes ----

  ghost predicate Once(list: seq<Node>) {
    forall i, j :: 0 <= i < j < |list| ==> list[i] != list[j]
  }

  /** A node is in the list once, and not there while its add is in flight. */
  ghost predicate NodesOnce(s: State) {
    Once(s.list) && forall n :: n in s.adding ==> n !in s.list
  }

  lemma InsertOnce(list: seq<Node>, n: Node)
    requires Once(list) && n !in list
    ensures Once(InsertNode(list, n))
  {
  }

  lemma WithoutOnce(list: seq<Node>, n: Node)
    requires Once(list)
    ensures Once(Without(list, n)) && n !in Without(list, n)
    ensures n in list ==> |Without(list, n)| == |list| - 1
  {
    var i, l := IndexOf(list, n), Without(list, n);
    if i >= 0 {
      assert forall k :: 0 <= k < |l| ==> l[k] == list[if k < i then k else k + 1];
    }
  }

  lemma StepKeepsOnce(s: State, ev: Event)
    requires Inv(s) && NodesOnce(s) && Enabled(s, ev)
    ensures NodesOnce(Do(s, ev))
  {
    match ev
    case AddToMap(e) => assert forall n :: n in s.list ==> Known(s, n);
    case AddToList(n) =>
      InsertMembers(s.list, n);
      InsertOnce(s.list, n);
    case DelFromList(n) =>
      WithoutMembers(s.list, n);
      WithoutOnce(s.list, n);
    case TickPop => assert forall n :: n in Do(s, ev).list ==> n in s.list;
    case _ =>
  }

  lemma {:induction false} RunKeepsOnce(evs: seq<Event>)
    requires Run(evs).Some?
    ensures NodesOnce(Run(evs).value)
  {
    if evs == [] {
    } else {
      RunKeepsOnce(evs[..|evs| - 1]);
      RunKeepsInv(evs[..|evs| - 1]);
      StepKeepsOnce(Run(evs[..|evs| - 1]).value, evs[|evs| - 1]);
    }
  }

  /** Out of the list and not on the way there. */
  ghost predicate Gone(s: State, n: Node) {
    n.key < s.nextKey && n !in s.adding && n !in s.list
  }

  lemma StepKeepsGone(s: State, ev: Event, n: Node)
    requires Gone(s, n) && Enabled(s, ev)
    ensures Gone(Do(s, ev), n)
  {
    match ev
    case AddToList(m) => InsertMembers(s.list, m);
    case DelFromList(m) => WithoutMembers(s.list, m);
    case _ =>
  }

  lemma {:induction false} RunKeepsGone(s: State, evs: seq<Event>, n: Node)
    requires Gone(s, n) && RunFrom(s, evs).Some?
    ensures Gone(RunFrom(s, evs).value, n)
    decreases |evs|
  {
    if evs == [] {
    } else {
      RunKeepsGone(s, evs[..|evs| - 1], n);
      StepKeepsGone(RunFrom(s, evs[..|evs| - 1]).value, evs[|evs| - 1], n);
    }
  }

  ghost predicate ComesBack(s: State, n: Node, more: seq<Event>) {
    RunFrom(s, more).Some? && n in RunFrom(s, more).value.list
  }

  /** Whatever happened before, a delete leaves its node out of the list and all others in. It comes
      back to the list in some further run exactly if the delete overtook its own add. */
  lemma DeletedComesBackIff(evs: seq<Event>, s: State, n: Node)
    requires Run(evs) == Some(s) && Enabled(s, DelFromList(n))
    ensures var t := Do(s, DelFromList(n));
      && (forall f :: f in t.list <==> f in s.list && f != n)
      && (n in s.list ==> |t.list| == |s.list| - 1)
      && ((exists more :: ComesBack(t, n, more)) <==> n in s.adding)
  {
    RunKeepsInv(evs);
    RunKeepsOnce(evs);
    WithoutMembers(s.list, n);
    WithoutOnce(s.list, n);
    var t := Do(s, DelFromList(n));
    if n in s.adding {
      StillComes(t, n);
    } else {
      assert Known(s, n);
      GoneForGood(t, n);
    }
  }

  lemma StillComes(t: State, n: Node)
    requires n in t.adding && t.ticking.None?
    ensures exists more :: ComesBack(t, n, more)
  {
    var ev := AddToList(n);
    assert [ev][..0] == [] && RunFrom(t, []) == Some(t);
    InsertMembers(t.list, n);
    assert ComesBack(t, n, [ev]);
  }

  lemma GoneForGood(t: State, n: Node)
    requires Gone(t, n)
    ensures !exists more :: ComesBack(t, n, more)
  {
    forall more ensures !ComesBack(t, n, more) {
      if RunFrom(t, more).Some? {
        RunKeepsGone(t, more, n);
      }
    }
  }

  lemma DueIsHead(list: seq<Node>, now: int, i: nat)
    requires TailSorted(Entries(list)) && !Ended(list, now) && i < |list| && list[i].e.endTime <= now
    ensures i == 0
  {
    var es := Entries(list);
    assert es[i] == list[i].e && es[|es| - 1] == list[|list| - 1].e;
  }

  /** When a tick ends, a callback that is due and still waiting is the one at the head of the
      list, or its add is still in flight. */
  lemma AfterTickOnlyHeadIsDue(evs: seq<Event>, s: State, now: int)
    requires Run(evs) == Some(s) && s.ticking == Some(now) && Enabled(s, TickEnd)
    ensures forall id :: id in s.cbMap && s.cbMap[id].e.endTime <= now ==>
      s.cbMap[id] in s.adding || (s.list != [] && s.list[0] == s.cbMap[id])
  {
    RunKeepsInv(evs);
    forall id | id in s.cbMap && s.cbMap[id].e.endTime <= now && s.cbMap[id] !in s.adding
      ensures s.list != [] && s.list[0] == s.cbMap[id]
    {
      var i :| 0 <= i < |s.list| && s.list[i] == s.cbMap[id];
      DueIsHead(s.list, now, i);
    }
  }

  // ---- Which node times a callback out ----

  /** No node of that id is in the list or on the way there; one may be on the way out. */
  ghost predicate Clear(s: State, id: uint32) {
    forall n :: n in s.adding || n in s.list ==> n.e.cbid != id
  }

  /** Every AddCallBack brings an id that is clear: one that was never used, or one that the counter
      comes back to when its last node is gone or going. */
  ghost predicate ClearRun(evs: seq<Event>) {
    && Run(evs).Some?
    && (evs != [] ==>
          var n := |evs| - 1;
          Run(evs[..n]).Some? && ClearRun(evs[..n]) && (evs[n].AddToMap? ==> Clear(Run(evs[..n]).value, evs[n].e.cbid)))
  }

  lemma NeverUsedIsClear(evs: seq<Event>, id: uint32)
    requires Run(evs).Some? && id !in Run(evs).value.added
    ensures Clear(Run(evs).value, id)
  {
    RunKeepsInv(evs);
  }

  /** A node of a waiting id is that id's own. */
  ghost predicate OwnNodes(s: State) {
    forall n :: (n in s.adding || n in s.list) && n.e.cbid in s.cbMap ==> Holds(s.cbMap, n)
  }

  lemma StepKeepsOwn(s: State, ev: Event)
    requires OwnNodes(s) && Enabled(s, ev) && (ev.AddToMap? ==> Clear(s, ev.e.cbid))
    ensures OwnNodes(Do(s, ev))
  {
    match ev
    case AddToList(n) => InsertMembers(s.list, n);
    case DelFromList(n) => WithoutMembers(s.list, n);
    case _ =>
  }

  lemma {:induction false} RunKeepsOwn(evs: seq<Event>)
    requires ClearRun(evs)
    ensures OwnNodes(Run(evs).value)
  {
    if evs == [] {
    } else {
      RunKeepsOwn(evs[..|evs| - 1]);
      StepKeepsOwn(Run(evs[..|evs| - 1]).value, evs[|evs| - 1]);
    }
  }

  // ---- What the list is left with ----

  /** Such a run in which moreover no delete overtakes the add of its own node. */
  ghost predicate TidyRun(evs: seq<Event>) {
    && ClearRun(evs)
    && (evs != [] ==>
          var n := |evs| - 1;
          TidyRun(evs[..n]) && (evs[n].DelFromList? ==> evs[n].n !in Run(evs[..n]).value.adding))
  }

  /** Every node in the list or on the way there waits for its callback or is on the way out. */
  ghost predicate Tidy(s: State) {
    forall n :: n in s.adding || n in s.list ==> Holds(s.cbMap, n) || n in s.deleting
  }

  lemma StepKeepsTidy(s: State, ev: Event)
    requires Tidy(s) && OwnNodes(s) && NodesOnce(s) && Enabled(s, ev)
    requires ev.AddToMap? ==> Clear(s, ev.e.cbid)
    requires ev.DelFromList? ==> ev.n !in s.adding
    ensures Tidy(Do(s, ev))
  {
    match ev
    case AddToList(n) => InsertMembers(s.list, n);
    case DelFromList(n) =>
      WithoutMembers(s.list, n);
      WithoutOnce(s.list, n);
    case TickPop => PopKeepsTidy(s);
    case _ =>
  }

  lemma PopKeepsTidy(s: State)
    requires Tidy(s) && OwnNodes(s) && NodesOnce(s) && Enabled(s, TickPop)
    ensures Tidy(Do(s, TickPop))
  {
    var t, last := Do(s, TickPop), s.list[|s.list| - 1];
    assert last in s.list && forall n :: n in t.list ==> n in s.list && n != last;
    forall n | n in t.adding || n in t.list ensures Holds(t.cbMap, n) || n in t.deleting {
      assert Holds(s.cbMap, n) || n in s.deleting;
      assert Holds(s.cbMap, n) && n.e.cbid == last.e.cbid ==> Holds(s.cbMap, last);
    }
  }

  lemma {:induction false} RunKeepsTidy(evs: seq<Event>)
    requires TidyRun(evs)
    ensures Tidy(Run(evs).value)
  {
    if evs == [] {
    } else {
      var n := |evs| - 1;
      RunKeepsTidy(evs[..n]);
      RunKeepsOwn(evs[..n]);
      RunKeepsOnce(evs[..n]);
      StepKeepsTidy(Run(evs[..n]).value, evs[n]);
    }
  }

  /** Nothing is left behind: in such a run, whenever no add or delete is in flight, the list holds
      exactly the nodes of the callbacks that wait, each once. */
  lemma NoLeftovers(evs: seq<Event>, s: State)
    requires TidyRun(evs) && Run(evs) == Some(s) && s.adding == {} && s.deleting == {}
    ensures forall n :: n in s.list <==> Holds(s.cbMap, n)
    ensures Once(s.list)
  {
    RunKeepsInv(evs);
    RunKeepsTidy(evs);
    RunKeepsOnce(evs);
  }

  /** A callback is timed out by its own node and no other, and so not before its end time: in every
      run that takes clear ids only, wherever a tick takes an id out of the map, the node it pops is
      the one the id was added with and has ended by the clock of the tick. */
  lemma TimeOutIsOwnAndDue(evs: seq<Event>, s: State)
    requires ClearRun(evs) && Run(evs) == Some(s) && Enabled(s, TickPop)
    ensures var n := s.list[|s.list| - 1];
      n.e.cbid in s.cbMap ==> s.cbMap[n.e.cbid] == n && n.e.endTime <= s.ticking.value
    ensures forall id :: id in s.cbMap && id !in Do(s, TickPop).cbMap ==> s.cbMap[id] == s.list[|s.list| - 1]
  {
    RunKeepsOwn(evs);
    assert s.list[|s.list| - 1] in s.list;
  }

  /** The next pop takes n's callback out of the map, but pops another node. */
  predicate TakenByAnother(s: State, n: Node) {
    Enabled(s, TickPop) && Holds(s.cbMap, n) && s.list[|s.list| - 1] != n && s.list[|s.list| - 1].e.cbid == n.e.cbid
  }

  predicate AddsNo(evs: seq<Event>, id: uint32) {
    forall i :: 0 <= i < |evs| ==> !(evs[i].AddToMap? && evs[i].e.cbid == id)
  }

  ghost predicate CanBeTaken(s: State, n: Node) {
    exists evs :: AddsNo(evs, n.e.cbid) && RunFrom(s, evs).Some? && TakenByAnother(RunFrom(s, evs).value, n)
  }

  /** n is the only node of its id in the list or on the way there. */
  ghost predicate Alone(s: State, n: Node) {
    forall f :: (f in s.adding || f in s.list) && f.e.cbid == n.e.cbid ==> f == n
  }

  lemma StepKeepsAlone(s: State, ev: Event, n: Node)
    requires Alone(s, n) && Enabled(s, ev) && !(ev.AddToMap? && ev.e.cbid == n.e.cbid)
    ensures Alone(Do(s, ev), n)
  {
    match ev
    case AddToList(m) => InsertMembers(s.list, m);
    case DelFromList(m) => WithoutMembers(s.list, m);
    case _ =>
  }

  lemma {:induction false} RunKeepsAlone(s: State, evs: seq<Event>, n: Node)
    requires Alone(s, n) && AddsNo(evs, n.e.cbid) && RunFrom(s, evs).Some?
    ensures Alone(RunFrom(s, evs).value, n)
    decreases |evs|
  {
    if evs == [] {
    } else {
      var k := |evs| - 1;
      RunKeepsAlone(s, evs[..k], n);
      StepKeepsAlone(RunFrom(s, evs[..k]).value, evs[k], n);
    }
  }

  /** n waits, still on its way to the list, while the manager lists another node of its id. */
  ghost predicate Threatened(s: State, n: Node) {
    && Holds(s.cbMap, n) && n !in s.list
    && exists f :: f in s.list && f.e.cbid == n.e.cbid
  }

  /** The latest end time in a list, and more. */
  function Latest(list: seq<Node>): int {
    if list == [] then 0
    else
      var rest, last := Latest(list[..|list| - 1]), list[|list| - 1].e.endTime;
      if last > rest then last else rest
  }

  lemma {:induction false} LatestIs(list: seq<Node>)
    ensures forall i :: 0 <= i < |list| ==> list[i].e.endTime <= Latest(list)
  {
    if list == [] {
    } else {
      LatestIs(list[..|list| - 1]);
    }
  }

  lemma {:induction false} Prepend(s: State, ev: Event, t: State, evs: seq<Event>)
    requires Enabled(s, ev) && t == Do(s, ev)
    ensures RunFrom(s, [ev] + evs) == RunFrom(t, evs)
    decreases |evs|
  {
    var all := [ev] + evs;
    if evs == [] {
      assert all[..0] == [];
      assert RunFrom(s, all[..0]) == Some(s);
    } else {
      var k := |evs| - 1;
      Prepend(s, ev, t, evs[..k]);
      assert all[..|evs|] == [ev] + evs[..k] && all[|evs|] == evs[k];
    }
  }

  lemma StepThenTaken(s: State, ev: Event, n: Node)
    requires Enabled(s, ev) && !ev.AddToMap? && CanBeTaken(Do(s, ev), n)
    ensures CanBeTaken(s, n)
  {
    var evs :| AddsNo(evs, n.e.cbid) && RunFrom(Do(s, ev), evs).Some? && TakenByAnother(RunFrom(Do(s, ev), evs).value, n);
    Prepend(s, ev, Do(s, ev), evs);
    assert AddsNo([ev] + evs, n.e.cbid);
  }

  lemma NowTaken(s: State, n: Node)
    requires TakenByAnother(s, n)
    ensures CanBeTaken(s, n)
  {
    assert AddsNo([], n.e.cbid) && RunFrom(s, []) == Some(s);
  }

  /** A tick that comes late enough pops its way to a node of n's id. */
  lemma {:induction false} LateTickTakes(s: State, n: Node)
    requires Threatened(s, n) && s.ticking.Some? && forall i :: 0 <= i < |s.list| ==> s.list[i].e.endTime <= s.ticking.value
    ensures CanBeTaken(s, n)
    decreases |s.list|
  {
    var last := s.list[|s.list| - 1];
    assert last in s.list;
    if last.e.cbid == n.e.cbid {
      NowTaken(s, n);
    } else {
      LateTickTakes(Do(s, TickPop), n);
      StepThenTaken(s, TickPop, n);
    }
  }

  /** Whatever tick is going on, it ends, or takes n's callback itself. */
  lemma {:induction false} ThreatenedIsTaken(s: State, n: Node)
    requires Threatened(s, n)
    ensures CanBeTaken(s, n)
    decreases s.ticking.Some?, |s.list|
  {
    if s.ticking.None? {
      LatestIs(s.list);
      LateTickTakes(Do(s, TickStart(Latest(s.list))), n);
      StepThenTaken(s, TickStart(Latest(s.list)), n);
    } else if !Ended(s.list, s.ticking.value) {
      ThreatenedIsTaken(Do(s, TickEnd), n);
      StepThenTaken(s, TickEnd, n);
    } else if s.list[|s.list| - 1].e.cbid == n.e.cbid {
      assert s.list[|s.list| - 1] in s.list;
      NowTaken(s, n);
    } else {
      ThreatenedIsTaken(Do(s, TickPop), n);
      StepThenTaken(s, TickPop, n);
    }
  }

  /** The same while the other node is itself on its way to the list. */
  lemma {:induction false} ApproachingIsTaken(s: State, n: Node, f: Node)
    requires Holds(s.cbMap, n) && n !in s.list && f in s.adding && f != n && f.e.cbid == n.e.cbid
    ensures CanBeTaken(s, n)
    decreases s.ticking.Some?, |s.list|
  {
    if s.ticking.None? {
      var t := Do(s, AddToList(f));
      InsertMembers(s.list, f);
      assert f in t.list;
      ThreatenedIsTaken(t, n);
      StepThenTaken(s, AddToList(f), n);
    } else if !Ended(s.list, s.ticking.value) {
      ApproachingIsTaken(Do(s, TickEnd), n, f);
      StepThenTaken(s, TickEnd, n);
    } else if s.list[|s.list| - 1].e.cbid == n.e.cbid {
      assert s.list[|s.list| - 1] in s.list;
      NowTaken(s, n);
    } else {
      ApproachingIsTaken(Do(s, TickPop), n, f);
      StepThenTaken(s, TickPop, n);
    }
  }

  /** Clear is exact. After any run whatever, an AddCallBack makes a node; then some further run, which
      does not add that id again, comes to a tick that takes its callback but pops another node,
      exactly if the id was not clear. */
  lemma TakenByAnotherIff(evs: seq<Event>, s: State, e: Entry)
    requires Run(evs) == Some(s)
    ensures CanBeTaken(Do(s, AddToMap(e)), Node(s.nextKey, e)) <==> !Clear(s, e.cbid)
  {
    RunKeepsInv(evs);
    var t, n := Do(s, AddToMap(e)), Node(s.nextKey, e);
    assert n !in s.list && n !in s.adding;
    if Clear(s, e.cbid) {
      forall fs | AddsNo(fs, e.cbid) && RunFrom(t, fs).Some? ensures !TakenByAnother(RunFrom(t, fs).value, n) {
        RunKeepsAlone(t, fs, n);
        NotTakenAlone(RunFrom(t, fs).value, n);
      }
    } else {
      var f :| (f in s.adding || f in s.list) && f.e.cbid == e.cbid;
      if f in s.list {
        ThreatenedIsTaken(t, n);
      } else {
        ApproachingIsTaken(t, n, f);
      }
    }
  }

  lemma NotTakenAlone(s: State, n: Node)
    requires Alone(s, n)
    ensures !TakenByAnother(s, n)
  {
    if s.list != [] {
      assert s.list[|s.list| - 1] in s.list;
    }
  }

  // ---- The tick as a whole ----

  /** A tick that is not interleaved with map steps is the atomic tick of the queue. */
  lemma {:induction false} UninterruptedTick(s: State, now: int) returns (pops: nat, t: State)
    requires s.ticking == Some(now)
    ensures Pops(s, pops) == Some(t) && Enabled(t, TickEnd)
    ensures var q := Tick(Entries(s.list), s.cbMap, now); Entries(t.list) == q.list && t.cbMap == q.cbMap
    decreases |s.list|
  {
    if Ended(s.list, now) {
      assert Entries(s.list)[..|s.list| - 1] == Entries(s.list[..|s.list| - 1]);
      pops, t := UninterruptedTick(Do(s, TickPop), now);
      pops := pops + 1;
    } else {
      pops, t := 0, s;
    }
  }

  function Pops(s: State, n: nat): Option<State>
    decreases n
  {
    if n == 0 then Some(s)
    else if Enabled(s, TickPop) then Pops(Do(s, TickPop), n - 1)
    else None
  }

  /** An id taken while a node of its last use is listed: that node times out the second callback, at
      clock 10 although it ends at 100. */
  lemma ReusedIdTimesOutEarly()
    ensures var first, second := Entry(7, 10, true), Entry(7, 100, true);
      var evs := [AddToMap(first), GetFromMap(7), AddToList(Node(0, first)), AddToMap(second), TickStart(10)];
      && Run(evs).Some? && 7 in Run(evs).value.cbMap && Run(evs).value.cbMap[7] == Node(1, second)
      && TakenByAnother(Run(evs).value, Node(1, second))
      && 7 !in Do(Run(evs).value, TickPop).cbMap
  {
    var first, second := Entry(7, 10, true), Entry(7, 100, true);
    var e1, e2, e3, e4, e5 := AddToMap(first), GetFromMap(7), AddToList(Node(0, first)), AddToMap(second), TickStart(10);
    var s := LeftoverNode();
    assert [e1, e2, e3] + [e4] == [e1, e2, e3, e4] && [e1, e2, e3, e4] + [e5] == [e1, e2, e3, e4, e5];
    RunOneMore([e1, e2, e3], s, e4);
    RunOneMore([e1, e2, e3, e4], Do(s, e4), e5);
  }

  /** A callback is fetched before the manager has its node, which then stays in the list. */
  lemma LeftoverNode() returns (s: State)
    ensures var first := Entry(7, 10, true);
      && Run([AddToMap(first), GetFromMap(7), AddToList(Node(0, first))]) == Some(s)
      && s.list == [Node(0, first)] && s.ticking == None && s.cbMap == map[] && s.nextKey == 1
  {
    var first := Entry(7, 10, true);
    var n := Node(0, first);
    var e1, e2, e3 := AddToMap(first), GetFromMap(7), AddToList(n);
    var s1 := Do(INIT, e1);
    var s2 := Do(s1, e2);
    assert [] + [e1] == [e1] && [e1] + [e2] == [e1, e2] && [e1, e2] + [e3] == [e1, e2, e3];
    RunOneMore([], INIT, e1);
    RunOneMore([e1], s1, e2);
    RunOneMore([e1, e2], s2, e3);
    assert s1.adding == {n} && s1.cbMap == map[7 := n];
    assert s2.cbMap == map[] && s2.list == [] && s2.adding == {n};
    s := Do(s2, e3);
  }

  lemma RunOneMore(evs: seq<Event>, s: State, ev: Event)
    requires Run(evs) == Some(s) && Enabled(s, ev)
    ensures Run(evs + [ev]) == Some(Do(s, ev))
  {
    assert (evs + [ev])[..|evs|] == evs;
  }
}
