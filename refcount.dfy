/**
 Reference-counted upstream subscriptions: the handler map and the count map
 the gateway keeps per channel, and what one acquire or release does to them
 and to the bus, as functions on values.
 */
module RefCount {
  import opened Envelope

  /** A call the gateway makes on the external publish/subscribe bus. */
  datatype BusCall = Subscribe(channel: Channel) | Unsubscribe(channel: Channel) | Publish(channel: Channel, message: string)

  /**
   The two per-channel maps: the channels that have an upstream handler
   registered (the keys of the handler map) and their reference counts.
   */
  datatype Registry = Registry(handlers: set<Channel>, counts: map<Channel, nat>)
  {
    /** `channelCounts.get(c) ?? 0`. */
    function CountOf(c: Channel): nat
    {
      if c in counts then counts[c] else 0
    }

    /** At rest both maps have the same keys and every stored count is at least 1. */
    ghost predicate Valid()
    {
      handlers == counts.Keys && forall c :: c in counts ==> counts[c] >= 1
    }
  }

  /** The effect of one acquire or release: the new maps, the bus calls made, and whether it succeeded. */
  datatype Step = Step(registry: Registry, calls: seq<BusCall>, ok: bool)

  /**
   `ensureChannelSubscription`: nothing when the bus is disabled; one more
   reference when a handler exists; otherwise one upstream subscribe, which
   installs the handler with count 1, or, if it fails, removes both entries
   again and reports the failure.
   */
  function Acquire(r: Registry, busEnabled: bool, c: Channel, busOk: bool): (st: Step)
    ensures st.calls == [] || st.calls == [Subscribe(c)]
    ensures st.calls != [] <==> busEnabled && c !in r.handlers
    ensures !st.ok <==> busEnabled && c !in r.handlers && !busOk
    ensures st.ok && busEnabled ==> c in st.registry.handlers && st.registry.CountOf(c) >= 1
    ensures st.ok && busEnabled && r.Valid() ==> st.registry.CountOf(c) == r.CountOf(c) + 1
    ensures !st.ok && r.Valid() ==> st.registry == r
  {
    if !busEnabled then Step(r, [], true)
    else if c in r.handlers then Step(Registry(r.handlers, r.counts[c := r.CountOf(c) + 1]), [], true)
    else if busOk then Step(Registry(r.handlers + {c}, r.counts[c := 1]), [Subscribe(c)], true)
    else Step(Registry(r.handlers - {c}, r.counts - {c}), [Subscribe(c)], false)
  }

  /**
   `releaseChannelSubscription`: nothing when the bus is disabled or the
   channel has no (or a zero) count; for the last reference one upstream
   unsubscribe, after which both entries go, unless it fails, in which case
   they stay; otherwise one reference less.
   */
  function Release(r: Registry, busEnabled: bool, c: Channel, busOk: bool): (st: Step)
    ensures st.calls == [] || st.calls == [Unsubscribe(c)]
    ensures st.calls != [] <==> busEnabled && r.CountOf(c) == 1
    ensures !st.ok <==> busEnabled && r.CountOf(c) == 1 && !busOk
    ensures !st.ok ==> st.registry == r
    ensures st.ok && busEnabled && r.CountOf(c) > 0 ==> st.registry.CountOf(c) == r.CountOf(c) - 1
    ensures st.ok && busEnabled && r.Valid() ==> (c in st.registry.handlers <==> r.CountOf(c) > 1)
  {
    if !busEnabled || r.CountOf(c) == 0 then Step(r, [], true)
    else if r.CountOf(c) <= 1 then
      if busOk then Step(Registry(r.handlers - {c}, r.counts - {c}), [Unsubscribe(c)], true)
      else Step(r, [Unsubscribe(c)], false)
    else Step(Registry(r.handlers, r.counts[c := r.CountOf(c) - 1]), [], true)
  }

  /** Both entries of channel `d` are the same in `a` and `b`. */
  ghost predicate SameEntry(a: Registry, b: Registry, d: Channel)
  {
    (d in a.handlers <==> d in b.handlers) && a.CountOf(d) == b.CountOf(d)
  }

  /** With the bus disabled, acquire and release change nothing, make no bus call and succeed. */
  lemma DisabledBusIsInert(r: Registry, c: Channel, busOk: bool)
    ensures Acquire(r, false, c, busOk) == Step(r, [], true)
    ensures Release(r, false, c, busOk) == Step(r, [], true)
  {
  }

  /** Acquire and release touch only the entries of their own channel. */
  lemma StepsAreLocal(r: Registry, busEnabled: bool, c: Channel, busOk: bool, d: Channel)
    requires d != c
    ensures SameEntry(Acquire(r, busEnabled, c, busOk).registry, r, d)
    ensures SameEntry(Release(r, busEnabled, c, busOk).registry, r, d)
  {
  }

  /** Acquiring a channel that already has a handler adds one reference and calls nothing upstream. */
  lemma AcquireExisting(r: Registry, c: Channel, busOk: bool)
    requires c in r.handlers
    ensures var st := Acquire(r, true, c, busOk);
      st.ok && st.calls == [] && c in st.registry.handlers
      && st.registry.CountOf(c) == r.CountOf(c) + 1
  {
  }

  /** Acquiring a fresh channel makes exactly one upstream subscribe; on success the count is 1 and a handler is present. */
  lemma AcquireFresh(r: Registry, c: Channel)
    requires c !in r.handlers
    ensures var st := Acquire(r, true, c, true);
      st.ok && st.calls == [Subscribe(c)] && c in st.registry.handlers && st.registry.CountOf(c) == 1
  {
  }

  /** A failed first subscribe is rolled back: both maps are as before, and the failure is reported. */
  lemma AcquireRollback(r: Registry, c: Channel)
    requires r.Valid() && c !in r.handlers
    ensures var st := Acquire(r, true, c, false);
      !st.ok && st.calls == [Subscribe(c)] && st.registry == r
  {
    assert c !in r.counts;
    assert r.counts - {c} == r.counts;
  }

  /** Releasing a channel with no entry, or with count 0, is a no-op. */
  lemma ReleaseAbsent(r: Registry, c: Channel, busOk: bool)
    requires r.CountOf(c) == 0
    ensures Release(r, true, c, busOk) == Step(r, [], true)
  {
  }

  /** Releasing the last reference unsubscribes upstream once, then removes both entries. */
  lemma ReleaseLast(r: Registry, c: Channel)
    requires r.CountOf(c) == 1
    ensures var st := Release(r, true, c, true);
      st.ok && st.calls == [Unsubscribe(c)] && c !in st.registry.handlers && c !in st.registry.counts
  {
  }

  /** If that upstream unsubscribe fails, both entries stay as they were and the failure is reported. */
  lemma ReleaseLastFails(r: Registry, c: Channel)
    requires r.CountOf(c) == 1
    ensures Release(r, true, c, false) == Step(r, [Unsubscribe(c)], false)
  {
  }

  /** Releasing one of several references only decrements the count. */
  lemma ReleaseShared(r: Registry, c: Channel, busOk: bool)
    requires r.CountOf(c) > 1
    ensures var st := Release(r, true, c, busOk);
      st.ok && st.calls == [] && st.registry.handlers == r.handlers
      && st.registry.CountOf(c) == r.CountOf(c) - 1
  {
  }

  /** Acquire keeps the two maps on the same keys with counts of at least 1. */
  lemma AcquireKeepsValid(r: Registry, busEnabled: bool, c: Channel, busOk: bool)
    requires r.Valid()
    ensures Acquire(r, busEnabled, c, busOk).registry.Valid()
  {
    if busEnabled && c !in r.handlers && !busOk {
      AcquireRollback(r, c);
    }
  }

  /** Release keeps the two maps on the same keys with counts of at least 1. */
  lemma ReleaseKeepsValid(r: Registry, busEnabled: bool, c: Channel, busOk: bool)
    requires r.Valid()
    ensures Release(r, busEnabled, c, busOk).registry.Valid()
  {
  }

  /**
   A subscribe followed by an unsubscribe of the same channel, with the bus
   answering both, leaves the maps as they were; the upstream calls are a
   subscribe/unsubscribe pair for a fresh channel and none otherwise.
   */
  lemma AcquireThenRelease(r: Registry, c: Channel)
    requires r.Valid()
    ensures var a := Acquire(r, true, c, true);
      var b := Release(a.registry, true, c, true);
      b.registry == r
      && a.calls + b.calls == (if c in r.handlers then [] else [Subscribe(c), Unsubscribe(c)])
  {
    var a := Acquire(r, true, c, true);
    if c in r.handlers {
      assert a.registry.counts[c := r.CountOf(c)] == r.counts;
    } else {
      assert c !in r.counts;
      assert a.registry.counts - {c} == r.counts;
      assert a.registry.handlers - {c} == r.handlers;
    }
  }

  /** Two acquires of a fresh channel subscribe upstream once and leave count 2. */
  lemma TwoAcquiresSubscribeOnce(r: Registry, c: Channel)
    requires c !in r.handlers
    ensures var a := Acquire(r, true, c, true);
      var b := Acquire(a.registry, true, c, true);
      a.calls + b.calls == [Subscribe(c)] && b.registry.CountOf(c) == 2
  {
  }

  /** What a release does to channel `c` depends only on `c`'s own entries. */
  lemma ReleaseSeesOwnEntry(a: Registry, b: Registry, busEnabled: bool, c: Channel, busOk: bool)
    requires SameEntry(a, b, c)
    ensures var sa, sb := Release(a, busEnabled, c, busOk), Release(b, busEnabled, c, busOk);
      sa.calls == sb.calls && sa.ok == sb.ok && SameEntry(sa.registry, sb.registry, c)
  {
  }

  /** No channel appears twice in `order`. */
  ghost predicate Distinct(order: seq<Channel>)
  {
    forall i, j :: 0 <= i < j < |order| ==> order[i] != order[j]
  }

  /** Appending a channel not yet in `order` keeps it free of repeats. */
  lemma DistinctSnoc(order: seq<Channel>, c: Channel)
    requires Distinct(order) && c !in order
    ensures Distinct(order + [c])
  {
    var longer := order + [c];
    forall i, j | 0 <= i < j < |longer|
      ensures longer[i] != longer[j]
    {
      if j == |order| {
        assert longer[i] == order[i];
      }
    }
  }

  /** Releasing `c` when the bus fails exactly the unsubscribes of the channels in `failing`. */
  function ReleaseUnder(r: Registry, busEnabled: bool, c: Channel, failing: set<Channel>): Step
  {
    Release(r, busEnabled, c, c !in failing)
  }

  /** Releasing the channels of `order` one after another, starting from `r`. */
  function ReleaseInOrder(r: Registry, busEnabled: bool, order: seq<Channel>, failing: set<Channel>): Step
  {
    if order == [] then Step(r, [], true)
    else
      var prev := ReleaseInOrder(r, busEnabled, order[..|order| - 1], failing);
      var st := ReleaseUnder(prev.registry, busEnabled, order[|order| - 1], failing);
      Step(st.registry, prev.calls + st.calls, prev.ok && st.ok)
  }

  /** Releasing one more channel after `order` extends the in-order release by that one step. */
  lemma ReleaseInOrderSnoc(r: Registry, busEnabled: bool, order: seq<Channel>, c: Channel, failing: set<Channel>)
    ensures var prev := ReleaseInOrder(r, busEnabled, order, failing);
      var st := ReleaseUnder(prev.registry, busEnabled, c, failing);
      ReleaseInOrder(r, busEnabled, order + [c], failing) == Step(st.registry, prev.calls + st.calls, prev.ok && st.ok)
  {
    assert (order + [c])[..|order|] == order;
  }

  /** The upstream calls each channel of `order` would make if it alone were released from `r`, in that order. */
  function ReleaseCalls(r: Registry, busEnabled: bool, order: seq<Channel>, failing: set<Channel>): seq<BusCall>
  {
    if order == [] then []
    else ReleaseCalls(r, busEnabled, order[..|order| - 1], failing) + ReleaseUnder(r, busEnabled, order[|order| - 1], failing).calls
  }

  /**
   Releasing distinct channels one after another is the same as releasing
   each of them on its own: every released channel ends with the entries its
   own release gives it, every other channel keeps its entries, and the
   upstream calls are each channel's own calls, in order.
   */
  lemma {:induction false} ReleaseInOrderIsPerChannel(r: Registry, busEnabled: bool, order: seq<Channel>, failing: set<Channel>)
    requires Distinct(order)
    ensures var after := ReleaseInOrder(r, busEnabled, order, failing).registry;
      && (forall d {:trigger SameEntry(after, r, d)} :: d in order || SameEntry(after, r, d))
      && (forall d :: d in order ==> SameEntry(after, ReleaseUnder(r, busEnabled, d, failing).registry, d))
    ensures ReleaseInOrder(r, busEnabled, order, failing).calls == ReleaseCalls(r, busEnabled, order, failing)
  {
    if order != [] {
      var init, c := order[..|order| - 1], order[|order| - 1];
      ReleaseInOrderIsPerChannel(r, busEnabled, init, failing);
      var prev := ReleaseInOrder(r, busEnabled, init, failing).registry;
      var next := ReleaseUnder(prev, busEnabled, c, failing).registry;
      assert c !in init by {
        forall i | 0 <= i < |init|
          ensures init[i] != c
        {
          assert order[i] == init[i];
        }
      }
      ReleaseSeesOwnEntry(prev, r, busEnabled, c, c !in failing);
      forall d | d != c
        ensures SameEntry(next, prev, d)
      {
        StepsAreLocal(prev, busEnabled, c, c !in failing, d);
      }
      forall d | d !in order
        ensures SameEntry(next, r, d)
      {
        assert d !in init && d != c;
        assert SameEntry(next, prev, d) && SameEntry(prev, r, d);
      }
      forall d | d in order
        ensures SameEntry(next, ReleaseUnder(r, busEnabled, d, failing).registry, d)
      {
        if d != c {
          assert d in init by {
            var k :| 0 <= k < |order| && order[k] == d;
            assert k < |order| - 1 && init[k] == d;
          }
          assert SameEntry(next, prev, d);
        }
      }
    }
  }
}
