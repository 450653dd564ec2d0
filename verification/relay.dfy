/** The receive-and-forward loop shared by the four subscription functions of
    the API layer (group messages, chat list, notifications, user search).

    The collaborator's broadcast receiver is modelled by the finite sequence of
    outcomes its `recv` calls produce; the Flutter stream sink by an object
    that accepts a fixed number of items and rejects every later one. */
module Relay {
  import opened Wrappers

  /** One outcome of `broadcast::Receiver::recv`. */
  datatype Recv<U> = Received(update: U) | Lagged(missed: nat) | Closed

  /** A Flutter `StreamSink`: `add` succeeds while the Dart side listens,
      here while fewer than `capacity` items have been accepted. */
  class Sink<T> {
    var accepted: seq<T>
    var capacity: nat
    var rejections: nat

    ghost predicate Valid()
      reads this
    {
      |accepted| <= capacity
    }

    /** How many more items the sink will accept. */
    function Room(): nat
      reads this
      requires Valid()
    {
      capacity - |accepted|
    }

    constructor (capacity: nat)
      ensures Valid()
      ensures accepted == [] && this.capacity == capacity && rejections == 0
    {
      accepted := [];
      this.capacity := capacity;
      rejections := 0;
    }

    /** `sink.add(item)`; `ok` is `is_ok()`. */
    method Add(item: T) returns (ok: bool)
      requires Valid()
      modifies this
      ensures Valid() && capacity == old(capacity)
      ensures ok <==> old(Room()) > 0
      ensures accepted == if ok then old(accepted) + [item] else old(accepted)
      ensures rejections == if ok then old(rejections) else old(rejections) + 1
    {
      ok := |accepted| < capacity;
      if ok {
        accepted := accepted + [item];
      } else {
        rejections := rejections + 1;
      }
    }
  }

  function Min(a: nat, b: nat): nat {
    if a <= b then a else b
  }

  /** `iter().map(f).collect()`. */
  function MapSeq<U, T>(f: U -> T, s: seq<U>): (r: seq<T>)
    ensures |r| == |s|
  {
    if s == [] then [] else [f(s[0])] + MapSeq(f, s[1..])
  }

  lemma {:induction false} MapSeqAppend<U, T>(f: U -> T, a: seq<U>, b: seq<U>)
    ensures MapSeq(f, a + b) == MapSeq(f, a) + MapSeq(f, b)
  {
    if a != [] {
      assert (a + b)[1..] == a[1..] + b;
      MapSeqAppend(f, a[1..], b);
    } else {
      assert a + b == b;
    }
  }

  lemma {:induction false} MapSeqAt<U, T>(f: U -> T, s: seq<U>)
    ensures forall i :: 0 <= i < |s| ==> MapSeq(f, s)[i] == f(s[i])
  {
    if s != [] {
      MapSeqAt(f, s[1..]);
    }
  }

  lemma MapSeqPrefix<U, T>(f: U -> T, a: seq<U>, b: seq<U>)
    requires a <= b
    ensures MapSeq(f, a) <= MapSeq(f, b)
  {
    assert b == a + b[|a|..];
    MapSeqAppend(f, a, b[|a|..]);
  }

  /** Position of the first `Closed` outcome, or the length if there is none. */
  function ClosedAt<U>(rx: seq<Recv<U>>): (c: nat)
    ensures c <= |rx|
    ensures forall j :: 0 <= j < c ==> !rx[j].Closed?
    ensures c < |rx| ==> rx[c].Closed?
  {
    if rx == [] || rx[0].Closed? then 0 else 1 + ClosedAt(rx[1..])
  }

  /** The updates carried by the `Received` outcomes of `rx`, in order. */
  function Updates<U>(rx: seq<Recv<U>>): seq<U> {
    if rx == [] then []
    else Updates(rx[..|rx| - 1]) + (if rx[|rx| - 1].Received? then [rx[|rx| - 1].update] else [])
  }

  /** Reference definition of what the loop forwards to a sink that never
      rejects: every update received before the channel closed, in order. */
  function Forwardable<U>(rx: seq<Recv<U>>): seq<U> {
    Updates(rx[..ClosedAt(rx)])
  }

  function SnapshotPart<T>(snapshot: Option<T>): seq<T> {
    if snapshot.Some? then [snapshot.value] else []
  }

  /** Everything the subscription function offers to its sink, in order:
      the snapshot item (if the feed has one), then one item per update. */
  function Offered<U, T>(snapshot: Option<T>, rx: seq<Recv<U>>, convert: U -> T): seq<T> {
    SnapshotPart(snapshot) + MapSeq(convert, Forwardable(rx))
  }

  /** What a sink with room for `room` more items ends up holding. */
  function Delivered<U, T>(snapshot: Option<T>, rx: seq<Recv<U>>, convert: U -> T, room: nat): seq<T> {
    var offered := Offered(snapshot, rx, convert);
    offered[..Min(room, |offered|)]
  }

  lemma UpdatesStep<U>(rx: seq<Recv<U>>, i: nat)
    requires i < |rx|
    ensures Updates(rx[..i + 1]) == Updates(rx[..i]) + (if rx[i].Received? then [rx[i].update] else [])
  {
    assert rx[..i + 1][..i] == rx[..i];
  }

  /** Reading more outcomes only extends the updates already seen. */
  lemma {:induction false} UpdatesPrefix<U>(rx: seq<Recv<U>>, i: nat, j: nat)
    requires i <= j <= |rx|
    ensures Updates(rx[..i]) <= Updates(rx[..j])
  {
    if i < j {
      UpdatesPrefix(rx, i, j - 1);
      UpdatesStep(rx, j - 1);
    }
  }

  /** What the loop has offered after reading `i` outcomes, none of them `Closed`. */
  function Sent<U, T>(snapshot: Option<T>, rx: seq<Recv<U>>, convert: U -> T, i: nat): seq<T>
    requires i <= |rx|
  {
    SnapshotPart(snapshot) + MapSeq(convert, Updates(rx[..i]))
  }

  /** One more outcome read adds at most its own converted update. */
  lemma SentStep<U, T>(snapshot: Option<T>, rx: seq<Recv<U>>, convert: U -> T, i: nat)
    requires i < |rx|
    ensures Sent(snapshot, rx, convert, i + 1)
            == Sent(snapshot, rx, convert, i) + (if rx[i].Received? then [convert(rx[i].update)] else [])
  {
    UpdatesStep(rx, i);
    var u := Updates(rx[..i]);
    if rx[i].Received? {
      MapSeqAppend(convert, u, [rx[i].update]);
      assert MapSeq(convert, [rx[i].update]) == [convert(rx[i].update)];
      assert SnapshotPart(snapshot) + (MapSeq(convert, u) + [convert(rx[i].update)])
          == SnapshotPart(snapshot) + MapSeq(convert, u) + [convert(rx[i].update)];
    } else {
      assert Updates(rx[..i + 1]) == u;
    }
  }

  /** Sent items are always the start of the offered sequence. */
  lemma SentIsOffered<U, T>(snapshot: Option<T>, rx: seq<Recv<U>>, convert: U -> T, i: nat)
    requires i <= ClosedAt(rx)
    ensures Sent(snapshot, rx, convert, i) <= Offered(snapshot, rx, convert)
  {
    UpdatesPrefix(rx, i, ClosedAt(rx));
    MapSeqPrefix(convert, Updates(rx[..i]), Forwardable(rx));
  }

  /** The loop stopped on `Closed` (or ran out of outcomes) without a rejection. */
  lemma SentEverything<U, T>(snapshot: Option<T>, rx: seq<Recv<U>>, convert: U -> T, room: nat)
    requires |Sent(snapshot, rx, convert, ClosedAt(rx))| <= room
    ensures Offered(snapshot, rx, convert) == Sent(snapshot, rx, convert, ClosedAt(rx))
    ensures Delivered(snapshot, rx, convert, room) == Sent(snapshot, rx, convert, ClosedAt(rx))
  {
  }

  /** The loop stopped because the sink rejected the update at position `i`. */
  lemma SentUntilRejected<U, T>(snapshot: Option<T>, rx: seq<Recv<U>>, convert: U -> T, room: nat, i: nat)
    requires i < ClosedAt(rx) && rx[i].Received?
    requires |Sent(snapshot, rx, convert, i)| == room
    ensures |Sent(snapshot, rx, convert, i + 1)| == room + 1
    ensures |Offered(snapshot, rx, convert)| > room
    ensures Delivered(snapshot, rx, convert, room) == Sent(snapshot, rx, convert, i)
  {
    UpdatesStep(rx, i);
    SentIsOffered(snapshot, rx, convert, i + 1);
    SentIsOffered(snapshot, rx, convert, i);
  }

  /** A snapshot item in front shifts everything the sink sees by one. */
  lemma WithSnapshot<U, T>(snapshot: T, rx: seq<Recv<U>>, convert: U -> T, room: nat, i: nat)
    requires room > 0 && i <= |rx|
    ensures Offered(Some(snapshot), rx, convert) == [snapshot] + Offered(None, rx, convert)
    ensures Delivered(Some(snapshot), rx, convert, room) == [snapshot] + Delivered(None, rx, convert, room - 1)
    ensures Sent(Some(snapshot), rx, convert, i) == [snapshot] + Sent(None, rx, convert, i)
  {
    var o := Offered(None, rx, convert);
    assert o == MapSeq(convert, Forwardable(rx));
    assert Offered(Some(snapshot), rx, convert) == [snapshot] + o;
    assert ([snapshot] + o)[..Min(room, |o| + 1)] == [snapshot] + o[..Min(room - 1, |o|)];
    assert Sent(None, rx, convert, i) == MapSeq(convert, Updates(rx[..i]));
  }

  /** The receive loop on its own: forward each `Received` update converted,
      skip `Lagged`, stop on `Closed` or on the first update the sink
      rejects. `read` is the number of outcomes taken from the receiver. */
  method RelayUpdates<U, T>(rx: seq<Recv<U>>, convert: U -> T, sink: Sink<T>) returns (read: nat)
    requires sink.Valid()
    modifies sink
    ensures sink.Valid() && sink.capacity == old(sink.capacity)
    ensures sink.accepted == old(sink.accepted) + Delivered(None, rx, convert, old(sink.Room()))
    ensures var overflow := |Offered(None, rx, convert)| > old(sink.Room());
            sink.rejections == old(sink.rejections) + (if overflow then 1 else 0)
    ensures read <= |rx|
    ensures |Offered(None, rx, convert)| <= old(sink.Room()) ==> read == Min(ClosedAt(rx) + 1, |rx|)
    ensures |Offered(None, rx, convert)| > old(sink.Room()) ==>
              0 < read <= ClosedAt(rx) && rx[read - 1].Received?
              && |Sent(None, rx, convert, read)| == old(sink.Room()) + 1
  {
    ghost var room := sink.Room();
    ghost var before := sink.accepted;
    read := 0;
    while read < |rx|
      invariant read <= |rx| && read <= ClosedAt(rx)
      invariant sink.Valid() && sink.capacity == old(sink.capacity)
      invariant sink.rejections == old(sink.rejections)
      invariant sink.accepted == before + Sent(None, rx, convert, read)
      invariant |Sent(None, rx, convert, read)| <= room
    {
      var outcome := rx[read];
      SentStep(None, rx, convert, read);
      if outcome.Received? {
        var ok := sink.Add(convert(outcome.update));
        if !ok {
          SentUntilRejected(None, rx, convert, room, read);
          read := read + 1;
          return;
        }
      } else if outcome.Closed? {
        SentEverything(None, rx, convert, room);
        read := read + 1;
        return;
      }
      read := read + 1;
    }
    SentEverything(None, rx, convert, room);
  }

  /** The body shared by the subscription functions once the collaborator has
      handed over its snapshot and receiver: emit the snapshot item (when the
      feed has one) and return at once if the sink rejects it, else run the
      receive loop. */
  method Relay<U, T>(snapshot: Option<T>, rx: seq<Recv<U>>, convert: U -> T, sink: Sink<T>)
      returns (read: nat)
    requires sink.Valid()
    modifies sink
    ensures sink.Valid() && sink.capacity == old(sink.capacity)
    ensures sink.accepted == old(sink.accepted) + Delivered(snapshot, rx, convert, old(sink.Room()))
    ensures var overflow := |Offered(snapshot, rx, convert)| > old(sink.Room());
            sink.rejections == old(sink.rejections) + (if overflow then 1 else 0)
    ensures read <= |rx|
    ensures snapshot.Some? && old(sink.Room()) == 0 ==> read == 0
    ensures |Offered(snapshot, rx, convert)| <= old(sink.Room()) ==> read == Min(ClosedAt(rx) + 1, |rx|)
    ensures |Offered(snapshot, rx, convert)| > old(sink.Room()) && read > 0 ==>
              read <= ClosedAt(rx) && rx[read - 1].Received?
              && |Sent(snapshot, rx, convert, read)| == old(sink.Room()) + 1
  {
    if snapshot.Some? {
      ghost var room := sink.Room();
      var ok := sink.Add(snapshot.value);
      if !ok {
        assert room == 0 && |Offered(snapshot, rx, convert)| > 0;
        SnapshotRejected(snapshot, rx, convert);
        return 0;
      }
      ghost var afterSnapshot := sink.accepted;
      read := RelayUpdates(rx, convert, sink);
      WithSnapshot(snapshot.value, rx, convert, room, read);
      assert afterSnapshot == old(sink.accepted) + [snapshot.value];
    } else {
      read := RelayUpdates(rx, convert, sink);
    }
  }

  // ---------------------------------------------------------------------------
  // Properties of what the loop delivers

  /** Step-by-step semantics of the loop body for a sink that never rejects:
      `Received` forwards, `Lagged` continues, `Closed` stops. */
  function LoopForwards<U>(rx: seq<Recv<U>>): seq<U> {
    if rx == [] then []
    else match rx[0]
      case Received(u) => [u] + LoopForwards(rx[1..])
      case Lagged(_) => LoopForwards(rx[1..])
      case Closed => []
  }

  lemma {:induction false} UpdatesCons<U>(o: Recv<U>, rest: seq<Recv<U>>)
    ensures Updates([o] + rest) == (if o.Received? then [o.update] else []) + Updates(rest)
    decreases |rest|
  {
    if rest != [] {
      var s := [o] + rest;
      assert s[..|s| - 1] == [o] + rest[..|rest| - 1];
      UpdatesCons(o, rest[..|rest| - 1]);
    } else {
      assert ([o] + rest)[..0] == [];
    }
  }

  /** The loop's step-by-step behaviour and the filter definition agree:
      every update received before `Closed` is forwarded exactly once, in
      receive order, and nothing else is. */
  lemma {:induction false} LoopForwardsIsForwardable<U>(rx: seq<Recv<U>>)
    ensures LoopForwards(rx) == Forwardable(rx)
  {
    if rx != [] {
      if rx[0].Closed? {
        assert rx[..0] == [];
      } else {
        LoopForwardsIsForwardable(rx[1..]);
        assert rx[..ClosedAt(rx)] == [rx[0]] + rx[1..][..ClosedAt(rx[1..])];
        UpdatesCons(rx[0], rx[1..][..ClosedAt(rx[1..])]);
      }
    }
  }

  /** A `Lagged` outcome anywhere in the stream changes nothing delivered. */
  lemma {:induction false} LaggedIsSkipped<U>(before: seq<Recv<U>>, missed: nat, after: seq<Recv<U>>)
    ensures LoopForwards(before + [Lagged(missed)] + after) == LoopForwards(before + after)
  {
    if before == [] {
      assert before + [Lagged(missed)] + after == [Lagged(missed)] + after;
      assert ([Lagged(missed)] + after)[1..] == after;
      assert before + after == after;
    } else {
      assert (before + [Lagged(missed)] + after)[1..] == before[1..] + [Lagged(missed)] + after;
      assert (before + after)[1..] == before[1..] + after;
      LaggedIsSkipped(before[1..], missed, after);
    }
  }

  /** Nothing after `Closed` is ever delivered. */
  lemma {:induction false} ClosedEndsStream<U>(before: seq<Recv<U>>, after: seq<Recv<U>>)
    ensures LoopForwards(before + [Closed] + after) == LoopForwards(before)
  {
    if before == [] {
      assert before + [Closed] + after == [Closed] + after;
    } else {
      assert (before + [Closed] + after)[1..] == before[1..] + [Closed] + after;
      ClosedEndsStream(before[1..], after);
    }
  }

  /** With a snapshot and a sink with room, the first item delivered is the
      snapshot; without one, it is the first update forwarded. */
  lemma FirstDelivered<U, T>(snapshot: Option<T>, rx: seq<Recv<U>>, convert: U -> T, room: nat)
    requires room > 0
    ensures snapshot.Some? ==> Delivered(snapshot, rx, convert, room)[0] == snapshot.value
    ensures snapshot.None? && Forwardable(rx) != [] ==>
              Delivered(snapshot, rx, convert, room)[0] == convert(Forwardable(rx)[0])
  {
  }

  /** A sink that rejects the snapshot receives nothing at all. */
  lemma SnapshotRejected<U, T>(snapshot: Option<T>, rx: seq<Recv<U>>, convert: U -> T)
    requires snapshot.Some?
    ensures Delivered(snapshot, rx, convert, 0) == []
  {
  }

  /** A bigger sink sees a longer prefix of the same offered sequence: the
      sink's capacity cuts the stream, never reorders or alters it. */
  lemma DeliveredIsPrefix<U, T>(snapshot: Option<T>, rx: seq<Recv<U>>, convert: U -> T, room: nat, room': nat)
    requires room <= room'
    ensures Delivered(snapshot, rx, convert, room) <= Delivered(snapshot, rx, convert, room')
    ensures Delivered(snapshot, rx, convert, room) <= Offered(snapshot, rx, convert)
  {
  }

  /** A snapshot, an update, a lag, another update: the sink receives the
      snapshot and both updates, and the lag yields nothing. */
  lemma LagBetweenUpdates()
    ensures Delivered(Some(0), [Received(1), Lagged(3), Received(2)], (u: int) => u * 10, 10)
            == [0, 10, 20]
  {
    var rx: seq<Recv<int>> := [Received(1), Lagged(3), Received(2)];
    LoopForwardsIsForwardable(rx);
    assert rx[1..] == [Lagged(3), Received(2)];
    assert rx[1..][1..] == [Received(2)];
    assert rx[1..][1..][1..] == [];
  }

  /** Source closes right after the snapshot: exactly one item is delivered. */
  lemma ClosedAfterSnapshot<U, T>(snapshot: T, after: seq<Recv<U>>, convert: U -> T, room: nat)
    requires room > 0
    ensures Delivered(Some(snapshot), [Closed] + after, convert, room) == [snapshot]
  {
    assert ([Closed] + after)[..0] == [];
  }

  /** The state a consumer holds after applying `items` in order, when each
      item is the full current state of the entity `key` names. */
  function Replay<K, T>(state: map<K, T>, items: seq<T>, key: T -> K): map<K, T>
    decreases |items|
  {
    if items == [] then state else Replay(state[key(items[0]) := items[0]], items[1..], key)
  }

  lemma {:induction false} OverwrittenLater<K, T>(state: map<K, T>, dropped: T, after: seq<T>, key: T -> K, j: nat)
    requires j < |after| && key(after[j]) == key(dropped)
    ensures Replay(state[key(dropped) := dropped], after, key) == Replay(state, after, key)
    decreases j
  {
    var k, k0 := key(dropped), key(after[0]);
    if k0 == k {
      assert state[k := dropped][k0 := after[0]] == state[k0 := after[0]];
    } else {
      assert state[k := dropped][k0 := after[0]] == state[k0 := after[0]][k := dropped];
      OverwrittenLater(state[k0 := after[0]], dropped, after[1..], key, j - 1);
    }
  }

  /** Why a lag is harmless: an update that the receiver misses, and that a
      later update of the same entity supersedes, leaves the consumer's final
      state unchanged. */
  lemma {:induction false} SupersededUpdateIsRedundant<K, T>(state: map<K, T>, before: seq<T>, dropped: T, after: seq<T>,
                                                           key: T -> K, j: nat)
    requires j < |after| && key(after[j]) == key(dropped)
    ensures Replay(state, before + [dropped] + after, key) == Replay(state, before + after, key)
    decreases |before|
  {
    if before == [] {
      assert before + [dropped] + after == [dropped] + after;
      assert ([dropped] + after)[1..] == after;
      assert before + after == after;
      OverwrittenLater(state, dropped, after, key, j);
    } else {
      var next := state[key(before[0]) := before[0]];
      assert (before + [dropped] + after)[1..] == before[1..] + [dropped] + after;
      assert (before + after)[1..] == before[1..] + after;
      SupersededUpdateIsRedundant(next, before[1..], dropped, after, key, j);
    }
  }

  /** Forwarding splits at any point before the first `Closed`. */
  lemma {:induction false} LoopForwardsAppend<U>(a: seq<Recv<U>>, b: seq<Recv<U>>)
    requires forall i :: 0 <= i < |a| ==> !a[i].Closed?
    ensures LoopForwards(a + b) == LoopForwards(a) + LoopForwards(b)
  {
    if a != [] {
      assert (a + b)[1..] == a[1..] + b;
      LoopForwardsAppend(a[1..], b);
    } else {
      assert a + b == b;
    }
  }

  /** An update received before any `Closed` is forwarded, at position `k`. */
  lemma {:induction false} ReceivedIsForwarded<U>(rx: seq<Recv<U>>, j: nat) returns (k: nat)
    requires j < |rx| && rx[j].Received?
    requires forall i :: 0 <= i < j ==> !rx[i].Closed?
    ensures k < |LoopForwards(rx)| && LoopForwards(rx)[k] == rx[j].update
    decreases j
  {
    if j == 0 {
      k := 0;
    } else {
      assert rx[1..][j - 1] == rx[j];
      var rest := ReceivedIsForwarded(rx[1..], j - 1);
      k := if rx[0].Received? then rest + 1 else rest;
    }
  }

  /** What one outcome between two stretches without `Closed` adds. */
  lemma ForwardsAround<U>(before: seq<Recv<U>>, o: Recv<U>, after: seq<Recv<U>>)
    requires forall i :: 0 <= i < |before| ==> !before[i].Closed?
    requires !o.Closed?
    ensures LoopForwards(before + [o] + after)
            == LoopForwards(before) + (if o.Received? then [o.update] else []) + LoopForwards(after)
  {
    assert before + [o] + after == before + ([o] + after);
    LoopForwardsAppend(before, [o] + after);
    assert ([o] + after)[1..] == after;
  }

  lemma MapSeqAround<U, T>(f: U -> T, a: seq<U>, u: U, b: seq<U>)
    ensures MapSeq(f, a + [u] + b) == MapSeq(f, a) + [f(u)] + MapSeq(f, b)
  {
    MapSeqAppend(f, a + [u], b);
    MapSeqAppend(f, a, [u]);
    assert MapSeq(f, [u]) == [f(u)];
  }

  /** The relay's lag handling and last-writer-wins together: when the
      receiver lags over update `u`, and a later update received before the
      channel closes carries the same entity, a consumer replaying the
      forwarded items ends in the same state as if `u` had been received. */
  lemma {:induction false} LagHidesSupersededUpdate<K, U, T>(state: map<K, T>, before: seq<Recv<U>>, u: U, missed: nat,
                                                           after: seq<Recv<U>>, convert: U -> T, key: T -> K, j: nat)
    requires forall i :: 0 <= i < |before| ==> !before[i].Closed?
    requires j < |after| && after[j].Received? && key(convert(after[j].update)) == key(convert(u))
    requires forall i :: 0 <= i < j ==> !after[i].Closed?
    ensures Replay(state, MapSeq(convert, Forwardable(before + [Lagged(missed)] + after)), key)
            == Replay(state, MapSeq(convert, Forwardable(before + [Received(u)] + after)), key)
  {
    LoopForwardsIsForwardable(before + [Received(u)] + after);
    LoopForwardsIsForwardable(before + [Lagged(missed)] + after);
    var a, b := LoopForwards(before), LoopForwards(after);
    ForwardsAround(before, Received(u), after);
    ForwardsAround(before, Lagged(missed), after);
    assert LoopForwards(before + [Lagged(missed)] + after) == a + b;
    MapSeqAround(convert, a, u, b);
    MapSeqAppend(convert, a, b);
    var k := ReceivedIsForwarded(after, j);
    MapSeqAt(convert, b);
    SupersededUpdateIsRedundant(state, MapSeq(convert, a), convert(u), MapSeq(convert, b), key, k);
  }
}
