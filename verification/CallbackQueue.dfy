/** The callback time-out queue of ms_framework/msf_callback_mgr_new.go: the order in which
    entries are kept, and the hand-written doubly linked list that keeps it.

    CallbackSpec has the list as a sequence of entries, first node first. */
module CallbackSpec {
  import opened MachineInts

  datatype Entry = Entry(cbid: uint32, endTime: int, hasTimeOutCb: bool)

  /** The scan of queueAdd: from position k on, the first position whose entry does not end
      later than t. */
  function Scan(list: seq<Entry>, t: int, k: nat): (r: nat)
    requires k <= |list|
    ensures k <= r <= |list|
    ensures forall i :: k <= i < r ==> t < list[i].endTime
    ensures r < |list| ==> list[r].endTime <= t
    decreases |list| - k
  {
    if k == |list| || t >= list[k].endTime then k else Scan(list, t, k + 1)
  }

  /** The scan starts behind the head: the head is never compared. */
  function InsertPos(list: seq<Entry>, t: int): (r: nat)
    ensures r <= |list|
    ensures list != [] ==> 1 <= r
  {
    if list == [] then 0 else Scan(list, t, 1)
  }

  function Insert(list: seq<Entry>, e: Entry): seq<Entry> {
    var k := InsertPos(list, e.endTime);
    list[..k] + [e] + list[k..]
  }

  function RemoveAt<T>(s: seq<T>, i: nat): (r: seq<T>)
    requires i < |s|
    ensures |r| == |s| - 1
  {
    s[..i] + s[i + 1..]
  }

  /** What one tick leaves and does: it pops from the back while the last entry has ended,
      takes the id out of the callback map, and fires the time-out of an id that was there. */
  datatype Ticked<V> = Ticked(list: seq<Entry>, cbMap: map<uint32, V>, fired: seq<uint32>)

  predicate LastEnded(list: seq<Entry>, now: int) {
    list != [] && list[|list| - 1].endTime <= now
  }

  function Fires<V>(e: Entry, cbMap: map<uint32, V>): seq<uint32> {
    if e.cbid in cbMap && e.hasTimeOutCb then [e.cbid] else []
  }

  function Tick<V>(list: seq<Entry>, cbMap: map<uint32, V>, now: int): Ticked<V>
    decreases |list|
  {
    if !LastEnded(list, now) then Ticked(list, cbMap, [])
    else
      var last := list[|list| - 1];
      var rest := Tick(list[..|list| - 1], cbMap - {last.cbid}, now);
      rest.(fired := Fires(last, cbMap) + rest.fired)
  }

  /** The outcome of a tick that had already fired some ids when it came to this point. */
  function Before<V>(fired: seq<uint32>, t: Ticked<V>): Ticked<V> {
    t.(fired := fired + t.fired)
  }

  lemma TickStep<V>(list: seq<Entry>, cbMap: map<uint32, V>, now: int, fired: seq<uint32>)
    requires LastEnded(list, now)
    ensures var last := list[|list| - 1];
      Before(fired, Tick(list, cbMap, now)) ==
      Before(fired + Fires(last, cbMap), Tick(list[..|list| - 1], cbMap - {last.cbid}, now))
  {
    var last := list[|list| - 1];
    var rest := Tick(list[..|list| - 1], cbMap - {last.cbid}, now);
    assert fired + (Fires(last, cbMap) + rest.fired) == fired + Fires(last, cbMap) + rest.fired;
  }

  function Ids(list: seq<Entry>): set<uint32> {
    set i | 0 <= i < |list| :: list[i].cbid
  }

  lemma IdsAppend(list: seq<Entry>, e: Entry)
    ensures Ids(list + [e]) == Ids(list) + {e.cbid}
  {
    assert (list + [e])[|list|] == e;
    assert forall i :: 0 <= i < |list| ==> (list + [e])[i] == list[i];
  }

  // ---- Order ----

  /** Every entry behind the head ends no later than the one before it. */
  ghost predicate TailSorted(list: seq<Entry>) {
    forall i, j :: 1 <= i < j < |list| ==> list[i].endTime >= list[j].endTime
  }

  /** What ordering by time-out would mean for the whole list. */
  ghost predicate Sorted(list: seq<Entry>) {
    forall i, j :: 0 <= i < j < |list| ==> list[i].endTime >= list[j].endTime
  }

  datatype Op = Add(e: Entry) | Del(i: nat) | TickAt(now: int)

  /** One event of the manager's loop; deleting a detached node changes nothing. */
  function Apply(list: seq<Entry>, op: Op): seq<Entry> {
    match op
    case Add(e) => Insert(list, e)
    case Del(i) => if i < |list| then RemoveAt(list, i) else list
    case TickAt(now) => Tick<()>(list, map[], now).list
  }

  function Run(ops: seq<Op>): seq<Entry> {
    if ops == [] then [] else Apply(Run(ops[..|ops| - 1]), ops[|ops| - 1])
  }

  /** What a tick does, without reference to how it iterates: it cuts the list at the longest
      suffix of ended entries, and exactly their ids leave the map. */
  lemma {:induction false} TickCutsSuffix<V>(list: seq<Entry>, cbMap: map<uint32, V>, now: int)
    ensures var t := Tick(list, cbMap, now);
      && t.list <= list
      && (forall i :: |t.list| <= i < |list| ==> list[i].endTime <= now)
      && !LastEnded(t.list, now)
      && t.cbMap == cbMap - Ids(list[|t.list|..])
    decreases |list|
  {
    if LastEnded(list, now) {
      var n := |list| - 1;
      var rest, id := list[..n], list[n].cbid;
      TickCutsSuffix(rest, cbMap - {id}, now);
      var k := |Tick(rest, cbMap - {id}, now).list|;
      IdsOfSuffix(list, k);
      RemoveBoth(cbMap, id, Ids(rest[k..]), Ids(list[k..]));
    } else {
      assert list[|list|..] == [];
    }
  }

  lemma IdsOfSuffix(list: seq<Entry>, k: nat)
    requires k < |list|
    ensures Ids(list[k..]) == Ids(list[..|list| - 1][k..]) + {list[|list| - 1].cbid}
  {
    var n := |list| - 1;
    assert list[k..] == list[..n][k..] + [list[n]];
    IdsAppend(list[..n][k..], list[n]);
  }

  lemma RemoveBoth<V>(m: map<uint32, V>, id: uint32, ids: set<uint32>, all: set<uint32>)
    requires all == ids + {id}
    ensures (m - {id}) - ids == m - all
  {
  }

  /** The ids a tick fires are in the map before it and gone after it, and each fires once. */
  lemma {:induction false} TickFiresOnce<V>(list: seq<Entry>, cbMap: map<uint32, V>, now: int)
    ensures var t := Tick(list, cbMap, now);
      && (forall i :: 0 <= i < |t.fired| ==> t.fired[i] in cbMap && t.fired[i] !in t.cbMap)
      && (forall i, j :: 0 <= i < j < |t.fired| ==> t.fired[i] != t.fired[j])
    decreases |list|
  {
    if LastEnded(list, now) {
      var n := |list| - 1;
      TickFiresOnce(list[..n], cbMap - {list[n].cbid}, now);
      TickCutsSuffix(list[..n], cbMap - {list[n].cbid}, now);
    }
  }

  /** Where every entry carries a time-out callback, what a tick fires is exactly what it takes
      out of the map. */
  lemma {:induction false} TickFiresAllTaken<V>(list: seq<Entry>, cbMap: map<uint32, V>, now: int)
    requires forall i :: 0 <= i < |list| ==> list[i].hasTimeOutCb
    ensures var t := Tick(list, cbMap, now);
      forall id :: id in t.fired <==> id in cbMap && id !in t.cbMap
    decreases |list|
  {
    if LastEnded(list, now) {
      var n := |list| - 1;
      TickFiresAllTaken(list[..n], cbMap - {list[n].cbid}, now);
      TickCutsSuffix(list[..n], cbMap - {list[n].cbid}, now);
      TickCutsSuffix(list, cbMap, now);
    }
  }

  /** Entry i is the last one of the list with this id. */
  ghost predicate IsLast(list: seq<Entry>, id: uint32, i: nat) {
    i < |list| && list[i].cbid == id && forall j :: i < j < |list| ==> list[j].cbid != id
  }

  /** The ids that fire when the entries from k on go: those in the map whose last entry is among
      them and carries a time-out callback, in the order of these entries from the back. */
  ghost predicate FiresRight(list: seq<Entry>, k: nat, ids: set<uint32>, fired: seq<uint32>) {
    && (forall id :: id in fired <==> id in ids && exists i: nat :: IsLast(list, id, i) && k <= i && list[i].hasTimeOutCb)
    && (forall a, b, i: nat, j: nat :: 0 <= a < b < |fired| && IsLast(list, fired[a], i) && IsLast(list, fired[b], j) ==> i > j)
  }

  lemma IsLastBefore(list: seq<Entry>, id: uint32, i: nat)
    requires list != []
    ensures var n := |list| - 1;
      IsLast(list, id, i) <==> if id == list[n].cbid then i == n else IsLast(list[..n], id, i)
  {
    var n := |list| - 1;
    if IsLast(list, id, i) {
      assert i < n ==> list[n].cbid != id;
    } else if IsLast(list[..n], id, i) {
      assert forall j :: i < j < n ==> list[..n][j] == list[j];
    }
  }

  /** What a tick fires, for every list and map. */
  lemma {:induction false} TickFiresRight<V>(list: seq<Entry>, cbMap: map<uint32, V>, now: int)
    ensures var t := Tick(list, cbMap, now); FiresRight(list, |t.list|, cbMap.Keys, t.fired)
    decreases |list|
  {
    if LastEnded(list, now) {
      var n := |list| - 1;
      var id := list[n].cbid;
      TickFiresRight(list[..n], cbMap - {id}, now);
      var rest := Tick(list[..n], cbMap - {id}, now);
      TickCutsSuffix(list[..n], cbMap - {id}, now);
      FiresOneMore(list, |rest.list|, cbMap.Keys, rest.fired);
    }
  }

  lemma FiresOneMore(list: seq<Entry>, k: nat, ids: set<uint32>, rest: seq<uint32>)
    requires k < |list| && FiresRight(list[..|list| - 1], k, ids - {list[|list| - 1].cbid}, rest)
    ensures var last := list[|list| - 1];
      FiresRight(list, k, ids, (if last.cbid in ids && last.hasTimeOutCb then [last.cbid] else []) + rest)
  {
    var n := |list| - 1;
    var last := list[n];
    var fired := (if last.cbid in ids && last.hasTimeOutCb then [last.cbid] else []) + rest;
    forall id, i: nat ensures IsLast(list, id, i) <==> if id == last.cbid then i == n else IsLast(list[..n], id, i) {
      IsLastBefore(list, id, i);
    }
    forall id
      ensures id in fired <==> id in ids && exists i: nat :: IsLast(list, id, i) && k <= i && list[i].hasTimeOutCb
    {
      assert IsLast(list, last.cbid, n);
    }
  }

  lemma InsertKeepsOrder(list: seq<Entry>, e: Entry)
    requires TailSorted(list)
    ensures TailSorted(Insert(list, e))
  {
    var k := InsertPos(list, e.endTime);
    var r := Insert(list, e);
    forall i, j | 1 <= i < j < |r| ensures r[i].endTime >= r[j].endTime {
      var p := if i < k then i else i - 1;
      var q := if j < k then j else j - 1;
      assert i != k ==> r[i] == list[p];
      assert j != k ==> r[j] == list[q];
      assert k < |list| ==> list[k].endTime <= e.endTime;
    }
  }

  /** In every reachable list the entries behind the head are in order. */
  lemma {:induction false} RunKeepsOrder(ops: seq<Op>)
    ensures TailSorted(Run(ops))
    decreases |ops|
  {
    if ops == [] {
    } else {
      var n := |ops| - 1;
      RunKeepsOrder(ops[..n]);
      var before := Run(ops[..n]);
      match ops[n]
      case Add(e) => InsertKeepsOrder(before, e);
      case Del(i) =>
      case TickAt(now) => TickCutsSuffix<()>(before, map[], now);
    }
  }

  /** The whole list stays ordered by an insertion exactly when the new entry does not end
      later than the head. */
  lemma InsertSortedIff(list: seq<Entry>, e: Entry)
    requires Sorted(list)
    ensures Sorted(Insert(list, e)) <==> list == [] || e.endTime <= list[0].endTime
  {
    var k := InsertPos(list, e.endTime);
    var r := Insert(list, e);
    if list != [] {
      assert r[0] == list[0] && r[k] == e;
      if e.endTime <= list[0].endTime {
        InsertKeepsOrder(list, e);
        forall i, j | 0 <= i < j < |r| ensures r[i].endTime >= r[j].endTime {
          if i == 0 && j != k {
            assert r[j] == list[if j < k then j else j - 1];
          }
        }
      }
    }
  }

  /** An ended entry survives a tick of a reachable list exactly when the head has ended and
      some entry behind it has not; and then the head is the only one. */
  lemma ExpiredSurvivorIsHead(ops: seq<Op>, now: int)
    ensures var before := Run(ops);
      var after := Apply(before, TickAt(now));
      && (forall i :: 1 <= i < |after| ==> after[i].endTime > now)
      && ((exists i :: 0 <= i < |after| && after[i].endTime <= now) <==>
          (before != [] && before[0].endTime <= now &&
           exists i :: 1 <= i < |before| && before[i].endTime > now))
  {
    RunKeepsOrder(ops);
    TickCutsSuffix<()>(Run(ops), map[], now);
    CutLeavesHead(Run(ops), Apply(Run(ops), TickAt(now)), now);
  }

  lemma CutLeavesHead(before: seq<Entry>, after: seq<Entry>, now: int)
    requires TailSorted(before) && after <= before && !LastEnded(after, now)
    requires forall i :: |after| <= i < |before| ==> before[i].endTime <= now
    ensures forall i :: 1 <= i < |after| ==> after[i].endTime > now
    ensures (exists i :: 0 <= i < |after| && after[i].endTime <= now) <==>
      (before != [] && before[0].endTime <= now && exists i :: 1 <= i < |before| && before[i].endTime > now)
  {
    var n := |after| - 1;
    assert forall i :: 0 <= i < |after| ==> after[i] == before[i];
    assert forall i :: 1 <= i < n ==> before[i].endTime >= before[n].endTime;
    if before != [] && before[0].endTime <= now && exists i :: 1 <= i < |before| && before[i].endTime > now {
      assert after[0].endTime <= now;
    } else if i :| 0 <= i < |after| && after[i].endTime <= now {
      assert before[n].endTime > now;
    }
  }

  /** A tick at or after every end time empties the list. */
  lemma LateTickEmpties<V>(list: seq<Entry>, cbMap: map<uint32, V>, now: int)
    requires forall i :: 0 <= i < |list| ==> list[i].endTime <= now
    ensures Tick(list, cbMap, now).list == []
    ensures Tick(list, cbMap, now).cbMap == cbMap - Ids(list)
  {
    TickCutsSuffix(list, cbMap, now);
    assert list[0..] == list;
  }

  /** Two callbacks with growing end times: the first has ended at 7, yet the tick leaves it. */
  lemma HeadStarves()
    ensures var first, second := Entry(1, 5, true), Entry(2, 10, true);
      var list := Run([Add(first), Add(second)]);
      && list == [first, second]
      && !Sorted(list)
      && Apply(list, TickAt(7)) == list
  {
    var first, second := Entry(1, 5, true), Entry(2, 10, true);
    var ops := [Add(first), Add(second)];
    assert ops[..1] == [Add(first)];
    assert ops[..1][..0] == [];
    assert Run(ops[..1]) == [first];
    assert Insert([first], second) == [first, second];
    var list := Run(ops);
    assert list[0].endTime < list[1].endTime;
  }
}

/** The linked list itself, changed in place. */
module CallbackQueue {
  import opened MachineInts
  import opened CallbackSpec

  class Node {
    const cbid: uint32
    const endTime: int
    const hasTimeOutCb: bool
    var prev: Node?
    var next: Node?

    constructor (cbid: uint32, endTime: int, hasTimeOutCb: bool)
      ensures this.cbid == cbid && this.endTime == endTime && this.hasTimeOutCb == hasTimeOutCb
      ensures prev == null && next == null
    {
      this.cbid, this.endTime, this.hasTimeOutCb := cbid, endTime, hasTimeOutCb;
      prev, next := null, null;
    }

    function AsEntry(): Entry { Entry(cbid, endTime, hasTimeOutCb) }
  }

  ghost function Entries(nodes: seq<Node>): seq<Entry> {
    if nodes == [] then [] else Entries(nodes[..|nodes| - 1]) + [nodes[|nodes| - 1].AsEntry()]
  }

  lemma {:induction false} EntriesAt(nodes: seq<Node>)
    ensures |Entries(nodes)| == |nodes|
    ensures forall i :: 0 <= i < |nodes| ==> Entries(nodes)[i] == nodes[i].AsEntry()
  {
    if nodes == [] {
    } else {
      EntriesAt(nodes[..|nodes| - 1]);
    }
  }

  lemma {:induction false} EntriesInsert(nodes: seq<Node>, k: nat, node: Node)
    requires k <= |nodes|
    ensures |Entries(nodes)| == |nodes|
    ensures Entries(nodes[..k] + [node] + nodes[k..]) ==
            Entries(nodes)[..k] + [node.AsEntry()] + Entries(nodes)[k..]
  {
    EntriesAt(nodes);
    EntriesAt(nodes[..k] + [node] + nodes[k..]);
  }

  lemma {:induction false} EntriesRemove(nodes: seq<Node>, i: nat)
    requires i < |nodes|
    ensures |Entries(nodes)| == |nodes|
    ensures Entries(RemoveAt(nodes, i)) == RemoveAt(Entries(nodes), i)
  {
    EntriesAt(nodes);
    EntriesAt(RemoveAt(nodes, i));
  }

  class PriorityQueue {
    var firstNode: Node?
    var lastNode: Node?
    var size: int32
    ghost var nodes: seq<Node>
    ghost var lost: nat  // deletes of nodes that were not in the list
    ghost var carries: int  // wraps of size

    /** Both end pointers are right, prev and next are mutually inverse along the sequence, no
        node occurs twice (so the list is acyclic), and size counts the nodes less the deletes
        that found nothing to delete, up to the wraps of int32 (none while that difference is
        within its range). */
    ghost predicate Valid()
      reads this, nodes
    {
      && Ends()
      && Linked(nodes)
      && Counted() == |nodes| - lost
    }

    /** size as it would be without wrapping. */
    ghost function Counted(): int
      reads `size, `carries
    {
      size + carries * TWO_32
    }

    method AddToSize(d: int)
      requires -1 <= d <= 1
      modifies `size, `carries
      ensures Counted() == old(Counted()) + d
    {
      carries := carries + Carry32(size + d);
      size := Wrap32(size + d);
    }

    ghost predicate Ends()
      reads this
    {
      if nodes == [] then firstNode == null && lastNode == null
      else firstNode == nodes[0] && lastNode == nodes[|nodes| - 1]
    }

    static ghost predicate Distinct(nodes: seq<Node>) {
      forall i, j :: 0 <= i < j < |nodes| ==> nodes[i] != nodes[j]
    }

    static lemma DistinctInsert(nodes: seq<Node>, k: nat, node: Node)
      requires Distinct(nodes) && k <= |nodes| && node !in nodes
      ensures Distinct(nodes[..k] + [node] + nodes[k..])
    {
    }

    static lemma DistinctRemove(nodes: seq<Node>, k: nat)
      requires Distinct(nodes) && k < |nodes|
      ensures Distinct(RemoveAt(nodes, k)) && nodes[k] !in RemoveAt(nodes, k)
    {
    }

    static ghost predicate Linked(nodes: seq<Node>)
      reads nodes
    {
      && Distinct(nodes)
      && (forall i :: 0 <= i < |nodes| - 1 ==> Link(nodes, i))
      && (nodes != [] ==> nodes[0].prev == null && nodes[|nodes| - 1].next == null)
    }

    static ghost predicate Link(nodes: seq<Node>, i: nat)
      requires i < |nodes| - 1
      reads nodes
    {
      nodes[i].next == nodes[i + 1] && nodes[i + 1].prev == nodes[i]
    }

    ghost predicate Detached(node: Node)
      reads this, node
    {
      node !in nodes && Loose(node)
    }

    ghost function View(): (list: seq<Entry>)
      reads this
      ensures |list| == |nodes|
    {
      EntriesAt(nodes);
      Entries(nodes)
    }

    constructor ()
      ensures Valid() && nodes == [] && lost == 0
    {
      firstNode, lastNode, size := null, null, 0;
      nodes, lost, carries := [], 0, 0;
    }

    method QueueAdd(node: Node) returns (ghost k: nat)
      requires Valid() && Detached(node)
      modifies this, node, nodes
      ensures Valid() && lost == old(lost)
      ensures k == InsertPos(old(View()), node.endTime)
      ensures nodes == old(nodes)[..k] + [node] + old(nodes)[k..]
      ensures View() == Insert(old(View()), node.AsEntry())
    {
      k := InsertPos(View(), node.endTime);
      ghost var before := nodes;
      AddToSize(1);
      Place(node, k);
      EntriesInsert(before, k, node);
    }

    /** The pointer changes of queueAdd, for a node that belongs at position k. */
    method Place(node: Node, ghost k: nat)
      requires Ends() && Linked(nodes) && Detached(node) && k == InsertPos(View(), node.endTime)
      modifies `firstNode, `lastNode, `nodes, node, nodes
      ensures nodes == old(nodes)[..k] + [node] + old(nodes)[k..]
      ensures Ends() && Linked(nodes)
      ensures Counted() == old(Counted()) && lost == old(lost)
    {
      if firstNode == null {
        LinkFirst(node);
      } else {
        var cur, i := FindPlace(node.endTime);
        LinkAfter(cur, node, i);
      }
    }

    method LinkFirst(node: Node)
      requires Ends() && Detached(node) && nodes == []
      modifies `firstNode, `lastNode, `nodes
      ensures nodes == [node] && View() == [node.AsEntry()]
      ensures Ends() && Linked(nodes)
      ensures Counted() == old(Counted()) && lost == old(lost)
    {
      firstNode := node;
      lastNode := node;
      nodes := [node];
    }

    /** The scan of queueAdd: the node behind which the new one belongs. */
    method FindPlace(t: int) returns (cur: Node, ghost i: nat)
      requires Ends() && Linked(nodes) && nodes != []
      ensures i < |nodes| && cur == nodes[i]
      ensures InsertPos(View(), t) == i + 1
    {
      cur := firstNode;
      i := 0;
      EntriesAt(nodes);
      assert 0 < |nodes| - 1 ==> Link(nodes, 0);
      while cur.next != null && t < cur.next.endTime
        invariant 0 <= i < |nodes| && cur == nodes[i]
        invariant cur.next == if i == |nodes| - 1 then null else nodes[i + 1]
        invariant InsertPos(View(), t) == Scan(View(), t, i + 1)
        decreases |nodes| - i
      {
        cur := cur.next;
        i := i + 1;
        assert i < |nodes| - 1 ==> Link(nodes, i);
      }
    }

    /** The pointer changes of both places where queueAdd links the new node in. */
    method LinkAfter(cur: Node, node: Node, ghost i: nat)
      requires Linked(nodes) && Detached(node) && i < |nodes| && cur == nodes[i]
      requires Ends()
      modifies `lastNode, `nodes, node, nodes
      ensures nodes == old(nodes)[..i + 1] + [node] + old(nodes)[i + 1..]
      ensures Ends() && Linked(nodes)
      ensures Counted() == old(Counted()) && lost == old(lost)
    {
      var next := cur.next;
      assert i < |nodes| - 1 ==> Link(nodes, i);
      cur.next := node;
      node.prev := cur;
      if next == null {
        lastNode := node;
      } else {
        node.next := next;
        next.prev := node;
      }
      ghost var before := nodes;
      nodes := before[..i + 1] + [node] + before[i + 1..];
      DistinctInsert(before, i + 1, node);
      forall j | 0 <= j < |nodes| - 1 ensures Link(nodes, j) {
        if j < i {
          assert nodes[j] == before[j] && nodes[j + 1] == before[j + 1] && old(Link(nodes, j));
        } else if j == i {
          assert nodes[j] == cur && nodes[j + 1] == node;
        } else if j == i + 1 {
          assert nodes[j] == node && nodes[j + 1] == before[j];
        } else {
          assert nodes[j] == before[j - 1] && nodes[j + 1] == before[j] && old(Link(nodes, j - 1));
        }
      }
    }

    method QueueDel(node: Node)
      requires Valid() && (node in nodes || Detached(node))
      modifies this, node, nodes
      ensures Valid() && Detached(node)
      ensures node !in old(nodes) ==>
        nodes == old(nodes) && View() == old(View()) && lost == old(lost) + 1
      ensures node in old(nodes) ==> var i := old(IndexOf(node));
        nodes == RemoveAt(old(nodes), i) && View() == RemoveAt(old(View()), i) && lost == old(lost)
    {
      ghost var i := if node in nodes then IndexOf(node) else -1;
      Unlink(node, i);
      AddToSize(-1);
      if i < 0 {
        lost := lost + 1;
      } else {
        EntriesRemove(old(nodes), i);
      }
    }

    /** The pointer changes of queueDel, for node i of the list or (i == -1) a detached node. */
    method Unlink(node: Node, ghost i: int)
      requires -1 <= i < |nodes| && (if i >= 0 then nodes[i] == node else Detached(node))
      requires Ends() && Linked(nodes)
      modifies `firstNode, `lastNode, `nodes, node, nodes
      ensures nodes == (if i >= 0 then RemoveAt(old(nodes), i) else old(nodes))
      ensures Ends() && Linked(nodes) && Detached(node)
      ensures Counted() == old(Counted()) && lost == old(lost)
    {
      var prev, next := Bypass(node, i);
      if i >= 0 {
        GapCloses(nodes, i);
      }
      ghost var rest := if i >= 0 then RemoveAt(nodes, i) else nodes;
      assert Linked(rest) && node !in rest && Loose(node);
      MoveEnds(node, prev, next, i);
    }

    /** The end pointers of queueDel, and the list that is left. */
    method MoveEnds(node: Node, prev: Node?, next: Node?, ghost i: int)
      requires -1 <= i < |nodes| && (if i >= 0 then nodes[i] == node else node !in nodes)
      requires Ends() && Distinct(nodes)
      requires prev == (if i > 0 then nodes[i - 1] else null)
      requires next == (if 0 <= i < |nodes| - 1 then nodes[i + 1] else null)
      modifies `firstNode, `lastNode, `nodes
      ensures nodes == (if i >= 0 then RemoveAt(old(nodes), i) else old(nodes)) && Ends()
      ensures Counted() == old(Counted()) && lost == old(lost)
    {
      assert i >= 0 ==> (node == firstNode <==> i == 0) && (node == lastNode <==> i == |nodes| - 1);
      if node == firstNode {
        firstNode := next;
      }
      if node == lastNode {
        lastNode := prev;
      }
      if i >= 0 {
        nodes := RemoveAt(nodes, i);
      }
    }

    /** The list but for node i, whose neighbours are joined. */
    static ghost predicate Gap(nodes: seq<Node>, i: nat)
      requires i < |nodes|
      reads nodes
    {
      && Distinct(nodes)
      && (forall j :: 0 <= j < |nodes| - 1 && j != i - 1 && j != i ==> Link(nodes, j))
      && (0 < i < |nodes| - 1 ==> nodes[i - 1].next == nodes[i + 1] && nodes[i + 1].prev == nodes[i - 1])
      && (i > 0 ==> nodes[0].prev == null)
      && (i == 0 && |nodes| > 1 ==> nodes[1].prev == null)
      && (i < |nodes| - 1 ==> nodes[|nodes| - 1].next == null)
      && (i == |nodes| - 1 && i > 0 ==> nodes[i - 1].next == null)
    }

    static lemma GapCloses(nodes: seq<Node>, i: nat)
      requires i < |nodes| && Gap(nodes, i)
      ensures Linked(RemoveAt(nodes, i)) && nodes[i] !in RemoveAt(nodes, i)
    {
      var rest := RemoveAt(nodes, i);
      DistinctRemove(nodes, i);
      forall j | 0 <= j < |rest| - 1 ensures Link(rest, j) {
        if j < i - 1 {
          assert rest[j] == nodes[j] && rest[j + 1] == nodes[j + 1] && Link(nodes, j);
        } else if j == i - 1 {
          assert rest[j] == nodes[i - 1] && rest[j + 1] == nodes[i + 1];
        } else {
          assert rest[j] == nodes[j + 1] && rest[j + 1] == nodes[j + 2] && Link(nodes, j + 1);
        }
      }
    }

    /** The neighbours of the node are joined and the node is let go; a detached node has none. */
    method Bypass(node: Node, ghost i: int) returns (prev: Node?, next: Node?)
      requires -1 <= i < |nodes| && (if i >= 0 then nodes[i] == node else Detached(node))
      requires Linked(nodes)
      modifies node, nodes
      ensures prev == (if i > 0 then nodes[i - 1] else null)
      ensures next == (if 0 <= i < |nodes| - 1 then nodes[i + 1] else null)
      ensures Loose(node)
      ensures if i >= 0 then Gap(nodes, i) else Linked(nodes)
    {
      prev, next := node.prev, node.next;
      assert i > 0 ==> Link(nodes, i - 1);
      assert 0 <= i < |nodes| - 1 ==> Link(nodes, i);
      if prev != null {
        prev.next := next;
      }
      if next != null {
        next.prev := prev;
      }
      node.prev := null;
      node.next := null;
      forall j | 0 <= j < |nodes| - 1 && j != i - 1 && j != i ensures Link(nodes, j) {
        assert old(Link(nodes, j));
      }
    }

    ghost function IndexOf(node: Node): (i: nat)
      requires node in nodes
      reads this
      ensures i < |nodes| && nodes[i] == node
    {
      var i :| 0 <= i < |nodes| && nodes[i] == node; i
    }

    /** A tick. The callback map is shared with the rest of the process: it comes in as m and
        leaves as cbMap, with nothing else touching it meanwhile. The tick does to the list and
        the map what the sequence form does, and leaves every node it took out detached. */
    method PriorityQueueTick<V>(now: int, m: map<uint32, V>) returns (cbMap: map<uint32, V>, fired: seq<uint32>)
      requires Valid()
      modifies this, nodes
      ensures Valid() && lost == old(lost) && nodes <= old(nodes)
      ensures Ticked(View(), cbMap, fired) == Tick(old(View()), m, now)
      ensures FiresRight(old(View()), |nodes|, m.Keys, fired)
      ensures forall n | n in old(nodes) && n !in nodes :: Detached(n)
    {
      cbMap, fired := m, [];
      var cur := lastNode;
      ghost var all, goal := nodes, Tick(View(), cbMap, now);
      while cur != null && cur.endTime <= now
        invariant Valid() && lost == old(lost) && cur == lastNode && nodes <= all && PastLoose(all)
        invariant goal == Before(fired, Tick(View(), cbMap, now))
        decreases |nodes|
      {
        cur, cbMap, fired := TickTurn(cur, cbMap, fired, now, all);
      }
      assert forall k :: |nodes| <= k < |all| ==> all[k] !in nodes;
      TickFiresRight(old(View()), m, now);
    }

    /** What was in the list before its end has been let go. */
    ghost predicate PastLoose(all: seq<Node>)
      reads this, all
    {
      forall k :: |nodes| <= k < |all| ==> Loose(all[k])
    }

    /** One turn of the loop: the last node, which has ended, goes. */
    method TickTurn<V>(cur: Node, m: map<uint32, V>, sofar: seq<uint32>, now: int, ghost all: seq<Node>)
      returns (prev: Node?, cbMap: map<uint32, V>, fired: seq<uint32>)
      requires Valid() && cur == lastNode && cur.endTime <= now
      requires nodes <= all && Distinct(all) && PastLoose(all)
      modifies this, nodes
      ensures Valid() && lost == old(lost) && prev == lastNode && |nodes| < |old(nodes)|
      ensures nodes <= all && PastLoose(all)
      ensures Before(fired, Tick(View(), cbMap, now)) == old(Before(sofar, Tick(View(), m, now)))
    {
      TickView(m, now, sofar);
      prev := cur.prev;
      cbMap, fired := TimeOut(cur, m, sofar);
      PopLastOf(cur, prev, all);
    }

    /** What a tick has still to do, told by the list without its last node. */
    lemma TickView<V>(m: map<uint32, V>, now: int, sofar: seq<uint32>)
      requires Ends() && lastNode != null && lastNode.endTime <= now
      ensures nodes != []
      ensures Before(sofar, Tick(View(), m, now)) ==
        Before(sofar + Fires(lastNode.AsEntry(), m), Tick(View()[..|nodes| - 1], m - {lastNode.cbid}, now))
    {
      EntriesAt(nodes);
      TickStep(View(), m, now, sofar);
    }

    /** The last node goes, and joins those that were let go before. */
    method PopLastOf(cur: Node, prev: Node?, ghost all: seq<Node>)
      requires Valid() && nodes != [] && cur == nodes[|nodes| - 1] && prev == cur.prev
      requires nodes <= all && Distinct(all) && PastLoose(all)
      modifies this, nodes
      ensures Valid() && lost == old(lost) && lastNode == prev
      ensures nodes == old(nodes)[..|old(nodes)| - 1] && View() == old(View())[..|old(nodes)| - 1]
      ensures nodes <= all && PastLoose(all)
    {
      assert forall k :: |nodes| <= k < |all| ==> all[k] !in nodes;
      PopLast(cur, prev);
    }

    static ghost predicate Loose(node: Node)
      reads node
    {
      node.prev == null && node.next == null
    }

    /** What a tick does to the map, and whether it fires. */
    method TimeOut<V>(cur: Node, m: map<uint32, V>, sofar: seq<uint32>) returns (cbMap: map<uint32, V>, fired: seq<uint32>)
      ensures cbMap == m - {cur.cbid} && fired == sofar + Fires(cur.AsEntry(), m)
      ensures !cur.hasTimeOutCb ==> fired == sofar
    {
      fired := sofar;
      var ok := cur.cbid in m;
      cbMap := m - {cur.cbid};
      if ok {
        if cur.hasTimeOutCb {
          fired := fired + [cur.cbid];
        }
      }
    }

    /** queueDel on the last node. */
    method PopLast(cur: Node, prev: Node?)
      requires Valid() && nodes != [] && cur == nodes[|nodes| - 1] && prev == cur.prev
      modifies this, nodes
      ensures Valid() && lost == old(lost) && lastNode == prev
      ensures nodes == old(nodes)[..|old(nodes)| - 1] && View() == old(View())[..|old(nodes)| - 1]
      ensures Detached(cur)
    {
      assert |nodes| > 1 ==> Link(nodes, |nodes| - 2);
      assert IndexOf(cur) == |nodes| - 1;
      QueueDel(cur);
    }
  }
}
