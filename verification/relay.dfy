/**
 * The consumer side of the output relay: `event_generator` inside
 * `stream_output`. Each 0.1 s tick it looks at `should_stream`; while the flag
 * is up it takes at most one queued line, and the first time the flag is down
 * it yields the end marker and returns. Ticks are discrete; the flag value the
 * generator sees on each tick is an input.
 */
module Relay {
  import Sequences

  const Sentinel := "--- Streaming ended ---"

  /** What one tick yielded, the queue it left, and whether the generator returned. */
  datatype Tick = Tick(out: seq<string>, rest: seq<string>, ended: bool)

  /** One pass of the `while should_stream` loop, or the final yield when the flag is down. */
  function Poll(queue: seq<string>, streaming: bool): (t: Tick)
    ensures |t.out| <= 1
    ensures t.ended <==> !streaming
    ensures t.ended ==> t.out == [Sentinel] && t.rest == queue
    ensures !t.ended ==> t.out + t.rest == queue
    ensures streaming && queue != [] ==> t.out == [queue[0]] && t.rest == queue[1..]
    ensures streaming && queue == [] ==> t.out == [] && t.rest == []
  {
    if !streaming then Tick([Sentinel], queue, true)
    else if queue == [] then Tick([], queue, false)
    else Tick([queue[0]], queue[1..], false)
  }

  /** Everything one subscriber received, what it left queued, and whether its stream ended. */
  datatype Session = Session(delivered: seq<string>, rest: seq<string>, ended: bool)

  /**
   * A subscriber that sees flag value `flags[i]` on its i-th tick. It yields at
   * most one thing per tick; the queue items it received followed by what it
   * left queued are the queue it started from; an ended stream's last yield is
   * the end marker.
   */
  function Stream(queue: seq<string>, flags: seq<bool>): (s: Session)
    ensures |s.delivered| <= |flags|
    ensures s.ended ==> |s.delivered| > 0 && s.delivered[|s.delivered| - 1] == Sentinel
    ensures Items(s) + s.rest == queue
    decreases |flags|
  {
    if flags == [] then Session([], queue, false)
    else
      var t := Poll(queue, flags[0]);
      if t.ended then
        assert Items(Session(t.out, t.rest, true)) == [];
        Session(t.out, t.rest, true)
      else
        var later := Stream(t.rest, flags[1..]);
        var s := Session(t.out + later.delivered, later.rest, later.ended);
        ItemsOfCons(t.out, later);
        Sequences.AppendAssociates(t.out, Items(later), later.rest);
        s
  }

  /** Putting ordinary items in front of a session's yields puts them in front of its items. */
  lemma ItemsOfCons(front: seq<string>, later: Session)
    requires later.ended ==> |later.delivered| > 0
    ensures Items(Session(front + later.delivered, later.rest, later.ended)) == front + Items(later)
  {
    var d := front + later.delivered;
    if later.ended {
      assert d[..|d| - 1] == front + later.delivered[..|later.delivered| - 1];
    }
  }

  /** The number of ticks before the flag is first seen down. */
  function TicksWhileStreaming(flags: seq<bool>): (n: nat)
    ensures n <= |flags|
    ensures forall i :: 0 <= i < n ==> flags[i]
    ensures n < |flags| ==> !flags[n]
    decreases |flags|
  {
    if flags == [] || !flags[0] then 0 else 1 + TicksWhileStreaming(flags[1..])
  }

  function Min(a: nat, b: nat): nat {
    if a <= b then a else b
  }

  /**
   * A subscriber receives the queue's items front first, one per tick while the
   * flag is up, then the end marker once, the first time the flag is down; the
   * items it did not take stay queued, in order.
   */
  lemma {:induction false} StreamDeliversInOrder(queue: seq<string>, flags: seq<bool>)
    ensures var n := TicksWhileStreaming(flags);
            var k := Min(n, |queue|);
            var s := Stream(queue, flags);
            && s.ended == (n < |flags|)
            && s.delivered == queue[..k] + (if s.ended then [Sentinel] else [])
            && s.rest == queue[k..]
    decreases |flags|
  {
    if flags == [] {
    } else if !flags[0] {
      assert queue[..0] == [];
    } else if queue == [] {
      StreamDeliversInOrder(queue, flags[1..]);
    } else {
      var later := Stream(queue[1..], flags[1..]);
      assert Stream(queue, flags) == Session([queue[0]] + later.delivered, later.rest, later.ended);
      StreamDeliversInOrder(queue[1..], flags[1..]);
      var k := Min(TicksWhileStreaming(flags), |queue|);
      assert k == 1 + Min(TicksWhileStreaming(flags[1..]), |queue| - 1);
      Sequences.ConsSlices(queue, k);
      Sequences.AppendAssociates([queue[0]], queue[1..][..k - 1], if later.ended then [Sentinel] else []);
    }
  }

  /** The end marker is the last thing a stream yields, and it is yielded only once the flag is down. */
  lemma SentinelEndsStream(queue: seq<string>, flags: seq<bool>)
    ensures var s := Stream(queue, flags);
            && (s.ended <==> exists i :: 0 <= i < |flags| && !flags[i])
            && (s.ended ==> |s.delivered| > 0 && s.delivered[|s.delivered| - 1] == Sentinel)
            && |s.delivered| <= |flags|
  {
    StreamDeliversInOrder(queue, flags);
    var n := TicksWhileStreaming(flags);
    if exists i :: 0 <= i < |flags| && !flags[i] {
      var i :| 0 <= i < |flags| && !flags[i];
      assert i >= n;
    }
  }

  /**
   * A second subscriber picks up where the first stopped: together they receive
   * a prefix of the original queue, in order, with nothing lost or repeated.
   */
  lemma NextSubscriberContinues(queue: seq<string>, first: seq<bool>, second: seq<bool>)
    ensures var a := Stream(queue, first);
            var b := Stream(a.rest, second);
            var taken := |queue| - |b.rest|;
            && 0 <= taken <= |queue|
            && queue == queue[..taken] + b.rest
            && Items(a) + Items(b) == queue[..taken]
  {
    var a := Stream(queue, first);
    StreamDeliversInOrder(queue, first);
    var k1 := Min(TicksWhileStreaming(first), |queue|);
    assert a.rest == queue[k1..];
    assert a.delivered == queue[..k1] + (if a.ended then [Sentinel] else []);
    ItemsOfClosedForm(a, queue[..k1]);
    var b := Stream(a.rest, second);
    StreamDeliversInOrder(a.rest, second);
    var k2 := Min(TicksWhileStreaming(second), |a.rest|);
    assert b.rest == a.rest[k2..];
    assert b.delivered == a.rest[..k2] + (if b.ended then [Sentinel] else []);
    ItemsOfClosedForm(b, a.rest[..k2]);
    Sequences.SplitTwice(queue, k1, k2);
    assert |queue| - |b.rest| == k1 + k2;
  }

  lemma ItemsOfClosedForm(s: Session, items: seq<string>)
    requires s.delivered == items + (if s.ended then [Sentinel] else [])
    ensures Items(s) == items
  {
    if s.ended {
      assert (items + [Sentinel])[..|items|] == items;
    }
  }

  /** The queue items a subscriber received, without the end marker. */
  function Items(s: Session): seq<string> {
    if s.ended && |s.delivered| > 0 then s.delivered[..|s.delivered| - 1] else s.delivered
  }
}
