/** Which frames of a connection are dispatched: RpcDecode and PreCheck of
    ms_framework/msf_simple_rpc.go, the connection states of ms_framework/msf_tcp_server.go and the
    verify handler of ms_gate/src/rpc_handler.go. */
module Dispatch {
  import opened Options

  datatype ConnState = Init | Ok | Exit

  /** What a connection meets in order: frames, and the server being stopped meanwhile. A verify
      frame is good if its argument decodes to the secret key. */
  datatype Item = Verify(good: bool) | Other | Stop

  function Next(st: ConnState, it: Item): ConnState {
    match it
    case Verify(good) => if good then Ok else st
    case Other => if st == Ok then Ok else Exit
    case Stop => Exit
  }

  predicate Passes(st: ConnState, it: Item) {
    it.Verify? || (it.Other? && st == Ok)
  }

  function After(st: ConnState, items: seq<Item>): ConnState {
    if items == [] then st else Next(After(st, items[..|items| - 1]), items[|items| - 1])
  }

  /** Whether the i-th item is a frame that is dispatched. */
  predicate Dispatched(st: ConnState, items: seq<Item>, i: nat)
    requires i < |items|
  {
    Passes(After(st, items[..i]), items[i])
  }

  /** A frame with the right key, and the server not stopped since. */
  ghost predicate VerifiedSince(items: seq<Item>, i: nat)
    requires i <= |items|
  {
    exists j :: 0 <= j < i && items[j] == Verify(true) && forall k :: j < k < i ==> items[k] != Stop
  }

  lemma {:induction false} OkIff(items: seq<Item>, i: nat)
    requires i <= |items|
    ensures After(Init, items[..i]) == Ok <==> VerifiedSince(items, i)
    decreases i
  {
    if i == 0 {
    } else {
      OkIff(items, i - 1);
      assert items[..i][..i - 1] == items[..i - 1];
      if VerifiedSince(items, i - 1) && items[i - 1] != Stop {
        var j :| 0 <= j < i - 1 && items[j] == Verify(true) && forall k :: j < k < i - 1 ==> items[k] != Stop;
        assert forall k :: j < k < i ==> items[k] != Stop;
      }
    }
  }

  /** Verified first: on a client gate, whatever arrives, a frame other than verify is dispatched
      exactly when a verify frame with the right key came before it on the connection and the
      server has not been stopped since. */
  lemma VerifiedFirst(items: seq<Item>, i: nat)
    requires i < |items| && items[i].Other?
    ensures Dispatched(Init, items, i) <==> VerifiedSince(items, i)
  {
    OkIff(items, i);
  }

  /** After a rejected frame nothing but verify is dispatched until another right key. */
  lemma RejectionHolds(st: ConnState, items: seq<Item>, i: nat, k: nat)
    requires i < k < |items| && items[i].Other? && items[k].Other?
    requires !Dispatched(st, items, i)
    requires forall j :: i < j < k ==> items[j] != Verify(true)
    ensures !Dispatched(st, items, k)
  {
    NotOkHolds(st, items, i, k);
  }

  lemma {:induction false} NotOkHolds(st: ConnState, items: seq<Item>, i: nat, k: nat)
    requires i < k <= |items| && items[i].Other? && !Dispatched(st, items, i)
    requires forall j :: i < j < k ==> items[j] != Verify(true)
    ensures After(st, items[..k]) != Ok
    decreases k
  {
    assert items[..k][..k - 1] == items[..k - 1];
    if k > i + 1 {
      NotOkHolds(st, items, i, k - 1);
    }
  }

  /** Wrong keys change nothing, however many and wherever they come: the state is what the other
      items make it. */
  lemma {:induction false} WrongKeysChangeNothing(st: ConnState, items: seq<Item>)
    ensures After(st, items) == After(st, WithoutWrongKeys(items))
    decreases |items|
  {
    if items == [] {
    } else {
      var n := |items| - 1;
      WrongKeysChangeNothing(st, items[..n]);
      if items[n] != Verify(false) {
        AfterOne(st, WithoutWrongKeys(items[..n]), items[n]);
      } else {
        assert WithoutWrongKeys(items) == WithoutWrongKeys(items[..n]);
      }
    }
  }

  lemma AfterOne(st: ConnState, items: seq<Item>, it: Item)
    ensures After(st, items + [it]) == Next(After(st, items), it)
  {
    assert (items + [it])[..|items|] == items;
  }

  function WithoutWrongKeys(items: seq<Item>): (r: seq<Item>)
    ensures forall i :: 0 <= i < |r| ==> r[i] != Verify(false)
  {
    if items == [] then []
    else
      var n := |items| - 1;
      WithoutWrongKeys(items[..n]) + if items[n] == Verify(false) then [] else [items[n]]
  }

  /** Item i closes the connection, and no right key comes after it. */
  ghost predicate ClosedBy(st: ConnState, items: seq<Item>, i: nat) {
    && i < |items| && (items[i] == Stop || (items[i] == Other && !Dispatched(st, items, i)))
    && forall j :: i < j < |items| ==> items[j] != Verify(true)
  }

  /** So an open connection comes to its end exactly by the server being stopped or by a frame other
      than verify that came too early, if no right key follows. */
  lemma {:induction false} ExitIff(st: ConnState, items: seq<Item>)
    requires st != Exit
    ensures After(st, items) == Exit <==> exists i: nat :: ClosedBy(st, items, i)
    decreases |items|
  {
    if items == [] {
    } else {
      var n := |items| - 1;
      ExitIff(st, items[..n]);
      forall i: nat ensures ClosedBy(st, items, i) <==>
        if i == n then items[n] == Stop || (items[n] == Other && After(st, items[..n]) != Ok)
        else ClosedBy(st, items[..n], i) && items[n] != Verify(true)
      {
        if i != n {
          ClosedBefore(st, items, i);
        }
      }
      if After(st, items) == Exit && (items[n] == Stop || items[n] == Other) {
        assert After(st, items[..n]) != Ok || items[n] == Stop;
        assert ClosedBy(st, items, n);
      }
    }
  }

  lemma ClosedBefore(st: ConnState, items: seq<Item>, i: nat)
    requires items != [] && i != |items| - 1
    ensures ClosedBy(st, items, i) <==> ClosedBy(st, items[..|items| - 1], i) && items[|items| - 1] != Verify(true)
  {
    var n := |items| - 1;
    if i < n {
      assert items[..n][..i] == items[..i];
      assert forall j :: 0 <= j < n ==> items[..n][j] == items[j];
    }
  }

  /** Exit is not final: within one decode call a right key after a rejected frame opens the
      connection again. */
  lemma ExitCanReopen()
    ensures After(Init, [Other]) == Exit && After(Init, [Other, Verify(true)]) == Ok
    ensures Dispatched(Init, [Other, Verify(true), Other], 2)
  {
    assert [Other, Verify(true)][..1] == [Other] && [Other][..0] == [];
    assert [Other, Verify(true), Other][..2] == [Other, Verify(true)];
    assert Next(After(Init, []), Other) == Exit;
    assert After(Init, [Other, Verify(true)]) == Next(After(Init, [Other]), Verify(true));
  }

  function Kept(st: ConnState, items: seq<Item>): seq<Item> {
    if items == [] then []
    else
      var n := |items| - 1;
      Kept(st, items[..n]) + if Passes(After(st, items[..n]), items[n]) then [items[n]] else []
  }

  lemma {:induction false} AfterConcat(st: ConnState, a: seq<Item>, b: seq<Item>)
    ensures After(st, a + b) == After(After(st, a), b)
    ensures Kept(st, a + b) == Kept(st, a) + Kept(After(st, a), b)
    decreases |b|
  {
    if b == [] {
      assert a + b == a;
    } else {
      var n := |b| - 1;
      AfterConcat(st, a, b[..n]);
      assert (a + b)[..|a + b| - 1] == a + b[..n];
    }
  }

  function Flatten(batches: seq<seq<Item>>): seq<Item> {
    if batches == [] then [] else Flatten(batches[..|batches| - 1]) + batches[|batches| - 1]
  }

  lemma FlattenNext(batches: seq<seq<Item>>, n: nat)
    requires n < |batches|
    ensures Flatten(batches[..n + 1]) == Flatten(batches[..n]) + batches[n]
  {
    assert batches[..n + 1][..n] == batches[..n];
  }

  /** None of the first n decode calls began in Exit. */
  ghost predicate OpenBefore(st: ConnState, batches: seq<seq<Item>>, n: nat) {
    n <= |batches| && forall i :: 0 <= i < n ==> After(st, Flatten(batches[..i])) != Exit
  }

  lemma OneBatchMore(st: ConnState, batches: seq<seq<Item>>, n: nat)
    requires n < |batches| && OpenBefore(st, batches, n) && After(st, Flatten(batches[..n])) != Exit
    ensures OpenBefore(st, batches, n + 1)
    ensures var before, after := Flatten(batches[..n]), Flatten(batches[..n + 1]);
      && After(st, after) == After(After(st, before), batches[n])
      && Kept(st, after) == Kept(st, before) + Kept(After(st, before), batches[n])
  {
    FlattenNext(batches, n);
    AfterConcat(st, Flatten(batches[..n]), batches[n]);
  }

  class TcpClient {
    var state: ConnState
    var dispatched: seq<Item>  // frames handed to their handlers, in order

    constructor (isClientGate: bool)
      ensures state == (if isClientGate then Init else Ok) && dispatched == []
    {
      state := if isClientGate then Init else Ok;
      dispatched := [];
    }

    /** A session of a remote is not checked. known says whether the server's table still has the
        connection; where it has not, the source panics (None). */
    method PreCheck(isTcpClient: bool, known: bool, frame: Item) returns (ok: Option<bool>)
      requires !frame.Stop?
      modifies `state
      ensures ok.None? <==> isTcpClient && !known && !frame.Verify?
      ensures ok.Some? ==> ok.value == (!isTcpClient || Passes(old(state), frame))
      ensures state == if ok == Some(false) then Exit else old(state)
    {
      if frame.Verify? {
        return Some(true);
      }
      if !isTcpClient {
        return Some(true);
      }
      if !known {
        return None;
      }
      if state != Ok {
        state := Exit;
        return Some(false);
      }
      return Some(true);
    }

    /** One frame; verify is handled at once, on the read goroutine. */
    method RpcDecode(frame: Item)
      requires !frame.Stop?
      modifies this
      ensures state == Next(old(state), frame)
      ensures dispatched == old(dispatched) + if Passes(old(state), frame) then [frame] else []
    {
      var ok := PreCheck(true, true, frame);
      if ok == Some(false) {
        return;
      }
      dispatched := dispatched + [frame];
      if frame.Verify? && frame.good {
        state := Ok;
      }
    }

    /** One decode call; Stop is the server setting the state while it runs. */
    method MessageDecode(items: seq<Item>)
      modifies this
      ensures state == After(old(state), items)
      ensures dispatched == old(dispatched) + Kept(old(state), items)
    {
      for i := 0 to |items|
        invariant state == After(old(state), items[..i])
        invariant dispatched == old(dispatched) + Kept(old(state), items[..i])
      {
        assert items[..i + 1][..i] == items[..i];
        if items[i].Stop? {
          state := Exit;
        } else {
          RpcDecode(items[i]);
        }
      }
      assert items[..|items|] == items;
    }

    /** The read loop: decode call after decode call, until one leaves the connection in Exit. */
    method HandleRead(batches: seq<seq<Item>>) returns (n: nat)
      modifies this
      ensures n <= |batches| && (n < |batches| ==> state == Exit)
      ensures OpenBefore(old(state), batches, n)
      ensures state == After(old(state), Flatten(batches[..n]))
      ensures dispatched == old(dispatched) + Kept(old(state), Flatten(batches[..n]))
    {
      n := 0;
      while n < |batches| && state != Exit
        invariant n <= |batches|
        invariant OpenBefore(old(state), batches, n)
        invariant state == After(old(state), Flatten(batches[..n]))
        invariant dispatched == old(dispatched) + Kept(old(state), Flatten(batches[..n]))
      {
        OneBatchMore(old(state), batches, n);
        MessageDecode(batches[n]);
        n := n + 1;
      }
    }
  }
}
