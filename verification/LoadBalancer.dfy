/** Strings in the order of sort.Strings. */
module StringOrder {
  predicate Le(a: string, b: string) {
    if a == [] then true
    else if b == [] then false
    else if a[0] != b[0] then a[0] < b[0]
    else Le(a[1..], b[1..])
  }

  /** The order is that of the characters at the first place where the strings differ; where there
      is none, the shorter comes first. */
  lemma {:induction false} LeIff(a: string, b: string, k: nat)
    requires k <= |a| && k <= |b| && a[..k] == b[..k]
    ensures k < |a| && k < |b| && a[k] != b[k] ==> (Le(a, b) <==> a[k] < b[k])
    ensures k == |a| ==> Le(a, b)
    ensures k == |b| < |a| ==> !Le(a, b)
    decreases k
  {
    if k == 0 {
    } else {
      assert a[0] == a[..k][0] == b[..k][0] == b[0];
      assert a[1..][..k - 1] == a[..k][1..] == b[1..][..k - 1];
      LeIff(a[1..], b[1..], k - 1);
    }
  }

  lemma {:induction false} LeTotal(a: string, b: string)
    ensures Le(a, b) || Le(b, a)
    ensures Le(a, b) && Le(b, a) ==> a == b
  {
    if a != [] && b != [] && a[0] == b[0] {
      LeTotal(a[1..], b[1..]);
      assert a == [a[0]] + a[1..] && b == [b[0]] + b[1..];
    }
  }

  lemma {:induction false} LeTransitive(a: string, b: string, c: string)
    requires Le(a, b) && Le(b, c)
    ensures Le(a, c)
  {
    if a != [] && b != [] && c != [] && a[0] == b[0] == c[0] {
      LeTransitive(a[1..], b[1..], c[1..]);
    }
  }

  ghost predicate Sorted(m: seq<string>) {
    forall i, j :: 0 <= i < j < |m| ==> Le(m[i], m[j])
  }

  /** The elements of s, each once, in order. */
  ghost predicate Lists(m: seq<string>, s: set<string>) {
    && Sorted(m)
    && (forall i, j :: 0 <= i < j < |m| ==> m[i] != m[j])
    && (forall x :: x in m <==> x in s)
  }

  /** There is only one such list, so the order in which a map is iterated does not matter. */
  lemma {:induction false} ListsUnique(m: seq<string>, n: seq<string>, s: set<string>)
    requires Lists(m, s) && Lists(n, s)
    ensures m == n
    decreases |m|
  {
    assert m == [] || m[0] in n by { assert m == [] || m[0] in m; }
    assert n == [] || n[0] in m by { assert n == [] || n[0] in n; }
    if m != [] && n != [] {
      LeTotal(m[0], n[0]);
      FirstIsLeast(m, n[0]);
      FirstIsLeast(n, m[0]);
      DropFirst(m, s);
      DropFirst(n, s);
      ListsUnique(m[1..], n[1..], s - {m[0]});
      assert m == [m[0]] + m[1..] && n == [n[0]] + n[1..];
    }
  }

  lemma FirstIsLeast(m: seq<string>, x: string)
    requires Sorted(m) && x in m
    ensures Le(m[0], x)
  {
    LeTotal(x, x);
  }

  lemma DropFirst(m: seq<string>, s: set<string>)
    requires Lists(m, s) && m != []
    ensures Lists(m[1..], s - {m[0]})
  {
    forall x ensures x in m[1..] <==> x in s - {m[0]} {
      if x in s && x != m[0] {
        var i :| 0 <= i < |m| && m[i] == x;
        assert m[1..][i - 1] == x;
      }
    }
  }

  /** One step of insertion sort. */
  function InsertInOrder(m: seq<string>, x: string): seq<string> {
    if m == [] || Le(x, m[0]) then [x] + m else [m[0]] + InsertInOrder(m[1..], x)
  }

  lemma {:induction false} InsertLists(m: seq<string>, x: string, s: set<string>)
    requires Lists(m, s) && x !in s
    ensures Lists(InsertInOrder(m, x), s + {x})
    decreases |m|
  {
    var r := InsertInOrder(m, x);
    if m == [] {
    } else {
      LeTotal(x, m[0]);
      if Le(x, m[0]) {
        forall i | 0 <= i < |m| ensures Le(x, m[i]) && x != m[i] {
          LeTotal(m[0], m[0]);
          LeTransitive(x, m[0], m[i]);
          assert m[i] in m;
        }
      } else {
        DropFirst(m, s);
        InsertLists(m[1..], x, s - {m[0]});
        Prepend(m[0], InsertInOrder(m[1..], x), s - {m[0]} + {x}) by {
          forall y | y in s - {m[0]} + {x} ensures Le(m[0], y) {
            if y != x {
              FirstIsLeast(m, y);
            }
          }
          assert m[0] in m;
        }
        assert s - {m[0]} + {x} + {m[0]} == s + {x};
      }
    }
  }

  lemma Prepend(x: string, m: seq<string>, s: set<string>)
    requires Lists(m, s) && x !in s && forall y :: y in s ==> Le(x, y)
    ensures Lists([x] + m, s + {x})
  {
    forall i | 0 <= i < |m| ensures m[i] in s {
      assert m[i] in m;
    }
  }

  /** The listing of a set. */
  ghost function Listing(s: set<string>): (m: seq<string>)
    ensures Lists(m, s) && |m| == |s|
  {
    ListingExists(s);
    var m :| Lists(m, s) && |m| == |s|;
    m
  }

  lemma {:induction false} ListingExists(s: set<string>)
    ensures exists m :: Lists(m, s) && |m| == |s|
  {
    if s == {} {
      assert Lists([], s);
    } else {
      var x :| x in s;
      ListingExists(s - {x});
      var m :| Lists(m, s - {x}) && |m| == |s - {x}|;
      InsertLists(m, x, s - {x});
      InsertLength(m, x);
      assert s - {x} + {x} == s;
      assert Lists(InsertInOrder(m, x), s);
    }
  }

  lemma InsertLength(m: seq<string>, x: string)
    ensures |InsertInOrder(m, x)| == |m| + 1
  {
  }
}

/** Round robin over positions, apart from what the positions hold. */
module RoundRobin {
  const TWO_16 := 0x1_0000

  /** uint16(n) */
  function Low16(n: nat): (r: nat)
    ensures r < TWO_16
    ensures n < TWO_16 ==> r == n
  {
    if n < TWO_16 then n else Low16(n - TWO_16)
  }

  lemma {:induction false} Low16IsModulo(n: nat)
    ensures Low16(n) == n % 0x1_0000
  {
    if n >= TWO_16 {
      Low16IsModulo(n - TWO_16);
    }
  }

  /** The next uint16. */
  function Next16(i: nat): (r: nat)
    requires i < TWO_16
    ensures r < TWO_16
  {
    if i + 1 == TWO_16 then 0 else i + 1
  }

  /** The position the next of n elements is taken from: the code compares with uint16(n). */
  function Position(n: nat, idx: nat): (p: nat)
    requires n > 0
    ensures p < n && p < TWO_16
  {
    if idx >= Low16(n) then 0 else idx
  }

  /** The index left behind, a uint16. */
  function After(n: nat, idx: nat): (r: nat)
    requires n > 0
    ensures r < TWO_16
  {
    Next16(Position(n, idx))
  }

  /** The positions taken by k calls in a row. */
  function Taken(n: nat, idx: nat, k: nat): (ps: seq<nat>)
    requires n > 0
    decreases k
  {
    if k == 0 then [] else [Position(n, idx)] + Taken(n, After(n, idx), k - 1)
  }

  function Count(ps: seq<nat>, p: nat): nat {
    if ps == [] then 0 else (if ps[0] == p then 1 else 0) + Count(ps[1..], p)
  }

  /** p lies among the len positions from i on, going round. */
  predicate InArc(n: nat, i: nat, len: nat, p: nat) {
    if p >= i then p - i < len else p + n - i < len
  }

  lemma CountStep(n: nat, idx: nat, k: nat, p: nat)
    requires n > 0 && k > 0
    ensures Count(Taken(n, idx, k), p) ==
      Count(Taken(n, After(n, idx), k - 1), p) + if p == Position(n, idx) then 1 else 0
  {
    assert Taken(n, idx, k)[1..] == Taken(n, After(n, idx), k - 1);
  }

  lemma OneRoundMore(q: nat, n: nat)
    ensures (q + 1) * n == q * n + n
  {
  }

  /** k calls are q full rounds and an arc of e further positions from the first one on. */
  lemma {:induction false} Rounds(n: nat, idx: nat, k: nat) returns (q: nat, e: nat)
    requires 0 < n < TWO_16
    ensures e < n && k == q * n + e
    ensures forall p :: 0 <= p < n ==>
      Count(Taken(n, idx, k), p) == q + if InArc(n, Position(n, idx), e, p) then 1 else 0
    decreases k
  {
    if k == 0 {
      q, e := 0, 0;
    } else {
      var i := Position(n, idx);
      var q', e' := Rounds(n, After(n, idx), k - 1);
      var j := Position(n, After(n, idx));
      assert j == if i + 1 == n then 0 else i + 1;
      if e' + 1 == n {
        q, e := q' + 1, 0;
        OneRoundMore(q', n);
      } else {
        q, e := q', e' + 1;
      }
      forall p | 0 <= p < n
        ensures Count(Taken(n, idx, k), p) == q + if InArc(n, i, e, p) then 1 else 0
      {
        CountStep(n, idx, k, p);
        ArcStep(n, i, j, e', p);
      }
    }
  }

  /** An arc of e positions from the next one on, and position i before it. */
  lemma ArcStep(n: nat, i: nat, j: nat, e: nat, p: nat)
    requires i < n && p < n && e < n && j == if i + 1 == n then 0 else i + 1
    ensures e + 1 < n ==> (InArc(n, i, e + 1, p) <==> InArc(n, j, e, p) || p == i)
    ensures e + 1 == n ==> (InArc(n, j, e, p) <==> p != i)
    ensures !(InArc(n, j, e, p) && p == i) && !InArc(n, i, 0, p)
  {
  }

  /** Two positions are taken equally often or once more. */
  lemma FairAt(n: nat, idx: nat, k: nat, p: nat, q: nat)
    requires 0 < n < TWO_16 && p < n && q < n
    ensures Count(Taken(n, idx, k), p) <= Count(Taken(n, idx, k), q) + 1
  {
    var r, e := Rounds(n, idx, k);
  }

  /** Over any window of calls, whatever the starting index, two positions are taken equally often
      or once more. */
  ghost predicate Fair(n: nat)
    requires n > 0
  {
    forall idx, k: nat, p: nat, q: nat :: p < n && q < n ==>
      Count(Taken(n, idx, k), p) <= Count(Taken(n, idx, k), q) + 1
  }

  lemma FairIff(n: nat)
    requires n > 0
    ensures Fair(n) <==> n < TWO_16
  {
    if n < TWO_16 {
      forall idx, k: nat, p: nat, q: nat | p < n && q < n
        ensures Count(Taken(n, idx, k), p) <= Count(Taken(n, idx, k), q) + 1
      {
        FairAt(n, idx, k, p, q);
      }
    } else {
      var k := Unfair(n);
      assert Count(Taken(n, 0, k), 0) > Count(Taken(n, 0, k), n - 1) + 1;
    }
  }

  /** From 65536 elements on the last one is never taken. */
  lemma Unfair(n: nat) returns (k: nat)
    requires n >= TWO_16
    ensures Count(Taken(n, 0, k), 0) >= 2 && Count(Taken(n, 0, k), n - 1) == 0
  {
    var c := Low16(n);
    if c <= 1 {
      k := 2;
      assert Position(n, 0) == Position(n, 1) == 0;
      assert Taken(n, 0, 2) == [0] + Taken(n, 1, 1);
      assert Taken(n, 1, 1) == [0] + Taken(n, 1, 0);
      var once: seq<nat>, twice: seq<nat> := [0], [0, 0];
      assert Taken(n, 0, 2) == twice;
      assert twice[1..] == once && once[1..] == [];
      assert Count(once, 0) == 1 && Count(once, n - 1) == 0;
    } else {
      k := c + 1;
      var q, e := Rounds(c, 0, k);
      TwoRoundsAtLeast(q, c);
      assert q == 1 && e == 1;
      SameTaken(n, c, 0, k);
      NeverTaken(n, 0, k);
    }
  }

  lemma TwoRoundsAtLeast(q: nat, c: nat)
    ensures q >= 2 ==> q * c >= 2 * c
  {
    if q >= 2 {
      assert q * c == 2 * c + (q - 2) * c;
    }
  }

  lemma {:induction false} SameTaken(n: nat, c: nat, idx: nat, k: nat)
    requires n > 0 && 0 < c < TWO_16 && Low16(n) == c
    ensures Taken(n, idx, k) == Taken(c, idx, k)
    decreases k
  {
    if k == 0 {
    } else {
      assert Position(n, idx) == Position(c, idx);
      assert After(n, idx) == After(c, idx);
      SameTaken(n, c, After(n, idx), k - 1);
    }
  }

  lemma {:induction false} NeverTaken(n: nat, idx: nat, k: nat)
    requires n >= TWO_16
    ensures Count(Taken(n, idx, k), n - 1) == 0
    decreases k
  {
    if k == 0 {
    } else {
      NeverTaken(n, After(n, idx), k - 1);
      assert Taken(n, idx, k)[1..] == Taken(n, After(n, idx), k - 1);
    }
  }
}

/** The load balancer of ms_framework/msf_load_balancer.go. */
module LoadBalancing {
  import opened StringOrder
  import opened RoundRobin
  import opened MachineInts

  /** The value of a balancer: the weights of its elements and the round-robin index. */
  datatype Balancer = Balancer(elements: map<string, uint32>, rrbIdx: nat)

  const EMPTY := Balancer(map[], 0)

  function Add(b: Balancer, ele: string): Balancer {
    b.(elements := b.elements[ele := 0])
  }

  function Del(b: Balancer, ele: string): Balancer {
    b.(elements := b.elements - {ele})
  }

  /** The element a call takes; "" from an empty balancer. */
  ghost function Choice(b: Balancer): (ele: string)
    ensures b.elements != map[] ==> ele in b.elements
  {
    if b.elements == map[] then ""
    else
      var m := Listing(b.elements.Keys);
      MapSize(b.elements);
      var p := Position(|m|, b.rrbIdx);
      assert m[p] in m;
      m[p]
  }

  lemma MapSize(m: map<string, uint32>)
    ensures |m.Keys| == |m|
    ensures m != map[] ==> |m| > 0
  {
  }

  function Inc32(w: uint32): uint32 {
    if w == TWO_32 - 1 then 0 else w + 1
  }

  ghost function Balance(b: Balancer): (r: Balancer) {
    if b.elements == map[] then b
    else
      MapSize(b.elements);
      var ele := Choice(b);
      Balancer(b.elements[ele := Inc32(b.elements[ele])], After(|b.elements|, b.rrbIdx))
  }

  /** k calls in a row. */
  ghost function Serve(b: Balancer, k: nat): Balancer
    decreases k
  {
    if k == 0 then b else Serve(Balance(b), k - 1)
  }

  /** The element at position p of the sorted listing. */
  ghost function At(b: Balancer, p: nat): (ele: string)
    requires p < |b.elements|
    ensures ele in b.elements
  {
    MapSize(b.elements);
    var m := Listing(b.elements.Keys);
    assert m[p] in m;
    m[p]
  }

  /** A call takes the element at the position. */
  lemma ChoiceIsAt(b: Balancer, p: nat)
    requires p < |b.elements|
    ensures Choice(b) == At(b, p) <==> p == Position(|b.elements|, b.rrbIdx)
  {
    MapSize(b.elements);
    var m := Listing(b.elements.Keys);
    assert forall i, j :: 0 <= i < j < |m| ==> m[i] != m[j];
  }

  lemma PlaceOf(b: Balancer, ele: string) returns (p: nat)
    requires ele in b.elements
    ensures p < |b.elements| && |b.elements| == |b.elements.Keys| && At(b, p) == ele
  {
    MapSize(b.elements);
    var m := Listing(b.elements.Keys);
    assert ele in m;
    p :| p < |m| && m[p] == ele;
  }

  /** A weight after c charges; ChargedIsSum gives it in one expression. */
  function Charged(w: uint32, c: nat): uint32
    decreases c
  {
    if c == 0 then w else Charged(Inc32(w), c - 1)
  }

  /** A call that led from b to c charges the element at the position taken, and no other. */
  ghost predicate OneCall(b: Balancer, c: Balancer, p: nat)
    requires p < |b.elements|
  {
    var n := |b.elements|;
    && c.elements.Keys == b.elements.Keys && |c.elements| == n && c.rrbIdx == After(n, b.rrbIdx)
    && At(c, p) == At(b, p)
    && c.elements[At(b, p)] == Charged(b.elements[At(b, p)], if p == Position(n, b.rrbIdx) then 1 else 0)
  }

  lemma BalanceAt(b: Balancer, p: nat)
    requires p < |b.elements|
    ensures OneCall(b, Balance(b), p)
  {
    MapSize(b.elements);
    assert Balance(b).elements.Keys == b.elements.Keys;
    MapSize(Balance(b).elements);
  }

  lemma {:induction false} ChargedTwice(w: uint32, c: nat, d: nat)
    ensures Charged(Charged(w, c), d) == Charged(w, d + c)
    decreases c
  {
    if c == 0 {
    } else {
      ChargedTwice(Inc32(w), c - 1, d);
    }
  }

  lemma {:induction false} ChargedIsSum(w: uint32, c: nat)
    ensures Charged(w, c) == (w + c) % 0x1_0000_0000
    decreases c
  {
    if c == 0 {
    } else {
      ChargedIsSum(Inc32(w), c - 1);
    }
  }

  /** What k calls in a row do. */
  lemma {:induction false} ServeCharges(b: Balancer, k: nat, p: nat)
    requires p < |b.elements|
    ensures ChargedAsTaken(b, k, p, Serve(b, k))
    decreases k
  {
    if k == 0 {
    } else {
      var c := NextBalancer(b, p);
      ServeCharges(c, k - 1, p);
      ChargedOn(b, c, k, p, Serve(c, k - 1));
    }
  }

  lemma NextBalancer(b: Balancer, p: nat) returns (c: Balancer)
    requires p < |b.elements|
    ensures c == Balance(b) && p < |c.elements| && OneCall(b, c, p)
  {
    c := Balance(b);
    BalanceAt(b, p);
  }

  /** After k calls that led from b to end, the element at position p was charged as often as p was
      taken. */
  ghost predicate ChargedAsTaken(b: Balancer, k: nat, p: nat, end: Balancer)
    requires p < |b.elements|
  {
    && end.elements.Keys == b.elements.Keys
    && end.elements[At(b, p)] == Charged(b.elements[At(b, p)], Count(Taken(|b.elements|, b.rrbIdx, k), p))
  }

  lemma ChargedOn(b: Balancer, c: Balancer, k: nat, p: nat, end: Balancer)
    requires k > 0 && p < |b.elements| && OneCall(b, c, p) && ChargedAsTaken(c, k - 1, p, end)
    ensures ChargedAsTaken(b, k, p, end)
  {
    var n, idx := |b.elements|, b.rrbIdx;
    CountStep(n, idx, k, p);
    ChargedTwice(b.elements[At(b, p)], if p == Position(n, idx) then 1 else 0, Count(Taken(n, After(n, idx), k - 1), p));
  }

  /** Over any window of serial calls with an unchanged set of up to 65535 elements, from any
      index, the weights of two elements grow by amounts that differ by at most one. */
  lemma ServeIsFair(b: Balancer, k: nat, p: nat, q: nat) returns (c: nat, d: nat)
    requires p < |b.elements| < TWO_16 && q < |b.elements|
    ensures c <= d + 1 && d <= c + 1
    ensures Serve(b, k).elements.Keys == b.elements.Keys
    ensures Serve(b, k).elements[At(b, p)] == Charged(b.elements[At(b, p)], c)
    ensures Serve(b, k).elements[At(b, q)] == Charged(b.elements[At(b, q)], d)
  {
    var ps := Taken(|b.elements|, b.rrbIdx, k);
    c, d := Count(ps, p), Count(ps, q);
    FairAt(|b.elements|, b.rrbIdx, k, p, q);
    FairAt(|b.elements|, b.rrbIdx, k, q, p);
    ServeCharges(b, k, p);
    ServeCharges(b, k, q);
  }

  class LoadBalancer {
    var elements: map<string, uint32>
    var rrbIdx: nat

    function Value(): Balancer
      reads this
    {
      Balancer(elements, rrbIdx)
    }

    constructor ()
      ensures Value() == EMPTY
    {
      elements, rrbIdx := map[], 0;
    }

    method AddElement(ele: string) returns (ok: bool)
      modifies this
      ensures ok <==> ele !in old(elements)
      ensures Value() == if ok then Add(old(Value()), ele) else old(Value())
      ensures ele in elements && (ok ==> elements[ele] == 0) && rrbIdx == old(rrbIdx)
      ensures forall x :: x != ele ==> (x in elements <==> x in old(elements)) && (x in elements ==> elements[x] == old(elements)[x])
    {
      if ele in elements {
        return false;
      }
      elements := elements[ele := 0];
      return true;
    }

    method DelElement(ele: string) returns (ok: bool)
      modifies this
      ensures ok <==> ele in old(elements)
      ensures Value() == if ok then Del(old(Value()), ele) else old(Value())
      ensures ele !in elements && rrbIdx == old(rrbIdx)
      ensures forall x :: x != ele ==> (x in elements <==> x in old(elements)) && (x in elements ==> elements[x] == old(elements)[x])
    {
      if ele !in elements {
        return false;
      }
      elements := elements - {ele};
      return true;
    }

    /** The map is iterated in any order; the sorted slice is the same. */
    method SortedElements() returns (m: seq<string>)
      ensures m == Listing(elements.Keys)
    {
      m := [];
      var left := elements.Keys;
      ghost var done: set<string> := {};
      while left != {}
        invariant done !! left && done + left == elements.Keys
        invariant Lists(m, done)
        decreases left
      {
        var ele :| ele in left;
        InsertLists(m, ele, done);
        m := InsertInOrder(m, ele);
        left, done := left - {ele}, done + {ele};
      }
      assert done == elements.Keys;
      ListsUnique(m, Listing(elements.Keys), elements.Keys);
    }

    method LoadBalanceRoundRobin() returns (ele: string)
      modifies `rrbIdx
      ensures ele == Choice(old(Value()))
      ensures Value() == old(Value()).(rrbIdx := Balance(old(Value())).rrbIdx)
    {
      MapSize(elements);
      if |elements| == 0 {
        return "";
      }
      var m := SortedElements();
      if rrbIdx >= Low16(|m|) {
        rrbIdx := 0;
      }
      ele := m[rrbIdx];
      rrbIdx := Next16(rrbIdx);
    }

    method LoadBalance() returns (ele: string)
      modifies this
      ensures ele == Choice(old(Value()))
      ensures Value() == Balance(old(Value()))
    {
      ele := LoadBalanceRoundRobin();
      if ele in elements {
        elements := elements[ele := Inc32(elements[ele])];
      }
    }
  }
}
