/**
 The WebSocket gateway's session and channel bookkeeping: connection set-up,
 request dispatch, subscribe/unsubscribe with reference-counted upstream
 subscriptions, local fan-out, publish with local fallback, and close.
 Each asynchronous step runs to completion before the next one starts.
 */
module Server {
  import opened Envelope
  import opened RefCount
  import opened Holding
  import opened Assignee

  /** The sessions that envelopes in `sent` were written to. */
  function Recipients(sent: seq<Outgoing>): set<SessionId>
  {
    set o | o in sent :: o.to
  }

  /** No session appears twice among the recipients of `sent`. */
  ghost predicate NoRepeats(sent: seq<Outgoing>)
  {
    forall i, j :: 0 <= i < j < |sent| ==> sent[i].to != sent[j].to
  }

  /** `sent` is one notification of `message` on `c` to each session of `to`, and nothing else. */
  ghost predicate FanOut(sent: seq<Outgoing>, c: Channel, message: string, to: set<SessionId>)
  {
    && (forall i :: 0 <= i < |sent| ==> sent[i].envelope == Notification(c, message))
    && Recipients(sent) == to
    && NoRepeats(sent)
  }

  /** A fan-out writes exactly one envelope per recipient. */
  lemma {:induction false} FanOutSize(sent: seq<Outgoing>, c: Channel, message: string, to: set<SessionId>)
    requires FanOut(sent, c, message, to)
    ensures |sent| == |to|
    decreases |sent|
  {
    if sent != [] {
      var init, last := sent[..|sent| - 1], sent[|sent| - 1];
      assert sent == init + [last];
      assert Recipients(init) == to - {last.to} by {
        forall s | s in Recipients(init)
          ensures s in to && s != last.to
        {
          var k :| 0 <= k < |init| && init[k].to == s;
          assert sent[k] == init[k];
        }
      }
      FanOutSize(init, c, message, to - {last.to});
    }
  }

  /**
   The reply to a `callTool` request: `suggestAssignee` answers with the
   classifier's tag (a missing title counts as the empty title, a title that
   is not a string makes the handler throw, which the dispatch boundary
   reports as a server error), `listTasks` answers with the task snapshot,
   any other tool is not found.
   */
  function CallTool(id: Id, params: Params): (e: Envelope)
    ensures !e.Notification? && e.id == id
    ensures e.Failure? <==> (params.tool != Some("suggestAssignee") && params.tool != Some("listTasks"))
                            || (params.tool == Some("suggestAssignee") && params.title == NonText)
    ensures e.Failure? && params.tool == Some("suggestAssignee") ==> e.code == ServerError
    ensures e.Failure? && params.tool != Some("suggestAssignee") ==> e.code == ToolNotFound
    ensures e.Success? && e.result.Suggested? ==> e.result.assignee in {Alice, Bob, CiBot, Unassigned}
    ensures params.tool == Some("suggestAssignee") && params.title.TitleText?
            ==> e == Success(id, Suggested(SuggestAssignee(params.title.text)))
    ensures params.tool == Some("suggestAssignee") && params.title == NoTitle
            ==> e == Success(id, Suggested(Unassigned))
    ensures params.tool == Some("listTasks") ==> e == Success(id, TaskSnapshot)
  {
    if params.tool == Some("suggestAssignee") then
      match params.title
      case NoTitle => EmptyTitleUnassigned(); Success(id, Suggested(SuggestAssignee("")))
      case TitleText(t) => Success(id, Suggested(SuggestAssignee(t)))
      case NonText => Failure(id, ServerError, "Server error")
    else if params.tool == Some("listTasks") then
      Success(id, TaskSnapshot)
    else
      Failure(id, ToolNotFound, "tool not found")
  }

  class Gateway {
    /** Whether the startup connect to the bus succeeded; the code never changes it afterwards. */
    const busEnabled: bool
    /** Live sessions and the channels each is subscribed to. */
    var sessions: Sessions
    /** Channels with an upstream handler (the keys of the handler map). */
    var handlers: set<Channel>
    /** Reference count per channel. */
    var counts: map<Channel, nat>
    /** Every envelope written to a connection, in order. */
    var outbox: seq<Outgoing>
    /** Every call made on the bus, in order. */
    ghost var busLog: seq<BusCall>
    /** Channels whose last upstream unsubscribe failed and whose count was left at 1. */
    ghost var stale: set<Channel>

    function Refs(): Registry
      reads this
    {
      Registry(handlers, counts)
    }

    /**
     The bookkeeping while the releases of `pending` are still to come: the
     two maps agree and hold positive counts; with the bus disabled they stay
     empty; with it enabled every count is the number of sessions holding the
     channel, plus one for a stale channel and one for a pending release.
     */
    ghost predicate Consistent(pending: set<Channel>)
      reads this
    {
      && Refs().Valid()
      && (!busEnabled ==> handlers == {} && counts == map[] && stale == {})
      && (busEnabled ==> Balanced(Refs(), sessions, stale, pending))
    }

    /** The gateway's invariant between events: consistent with no release pending. */
    ghost predicate Valid()
      reads this
    {
      Consistent({})
    }

    /** Only the outbox may have changed. */
    twostate predicate OnlyReplied()
      reads this
    {
      sessions == old(sessions) && Refs() == old(Refs()) && busLog == old(busLog) && stale == old(stale)
    }

    constructor (busEnabled: bool)
      ensures Valid() && this.busEnabled == busEnabled
      ensures sessions == map[] && handlers == {} && counts == map[] && outbox == [] && busLog == []
    {
      this.busEnabled := busEnabled;
      sessions := map[];
      handlers := {};
      counts := map[];
      outbox := [];
      busLog := [];
      stale := {};
    }

    /** `ensureChannelSubscription`: take one reference on `c`; `busOk` is the bus's answer to a subscribe. */
    method EnsureChannelSubscription(c: Channel, busOk: bool) returns (ok: bool)
      modifies this`handlers, this`counts, this`busLog
      ensures var st := Acquire(old(Refs()), busEnabled, c, busOk);
        Refs() == st.registry && busLog == old(busLog) + st.calls && ok == st.ok
    {
      if !busEnabled {
        return true;
      }
      if c !in handlers {
        handlers := handlers + {c};
        counts := counts[c := 0];
        busLog := busLog + [Subscribe(c)];
        if !busOk {
          handlers := handlers - {c};
          counts := counts - {c};
          assert counts == old(counts) - {c};
          return false;
        }
      }
      counts := counts[c := (if c in counts then counts[c] else 0) + 1];
      return true;
    }

    /**
     `releaseChannelSubscription`: drop one reference on `c`; `busOk` is the
     bus's answer to an unsubscribe. `pending` names the channels whose
     holders have already let go and whose release is still to come; `c` is
     one of them, and afterwards it no longer is. A failed last unsubscribe
     leaves the count at 1 and makes `c` stale.
     */
    method ReleaseChannelSubscription(c: Channel, busOk: bool, ghost pending: set<Channel>) returns (ok: bool)
      requires Consistent(pending) && c in pending
      modifies this`handlers, this`counts, this`busLog, this`stale
      ensures var st := Release(old(Refs()), busEnabled, c, busOk);
        Refs() == st.registry && busLog == old(busLog) + st.calls && ok == st.ok
      ensures stale == if ok then old(stale) else old(stale) + {c}
      ensures Consistent(pending - {c})
    {
      ReleaseKeepsValid(Refs(), busEnabled, c, busOk);
      if !busEnabled {
        return true;
      }
      BalancedAfterRelease(Refs(), sessions, stale, pending, c, busOk);
      var current := if c in counts then counts[c] else 0;
      if current == 0 {
        return true;
      }
      if current <= 1 {
        busLog := busLog + [Unsubscribe(c)];
        if !busOk {
          stale := stale + {c};
          return false;
        }
        handlers := handlers - {c};
        counts := counts - {c};
      } else {
        counts := counts[c := current - 1];
      }
      return true;
    }

    /**
     `dispatchNotification`: write one notification of `message` on `c` to
     every session subscribed to `c`. A session in `unreachable` is one whose
     connection throws on send; that failure is swallowed and the loop goes on.
     */
    method DispatchNotification(c: Channel, message: string, unreachable: set<SessionId>)
      modifies this`outbox
      ensures |outbox| >= |old(outbox)| && outbox[..|old(outbox)|] == old(outbox)
      ensures FanOut(outbox[|old(outbox)|..], c, message, Holders(sessions, c) - unreachable)
    {
      var start := |outbox|;
      var remaining := sessions.Keys;
      while remaining != {}
        invariant remaining <= sessions.Keys
        invariant |outbox| >= start && outbox[..start] == old(outbox)
        invariant FanOut(outbox[start..], c, message, Holders(sessions, c) - unreachable - remaining)
        decreases remaining
      {
        var s :| s in remaining;
        ghost var sent := outbox[start..];
        if c in sessions[s] && s !in unreachable {
          var note := Outgoing(s, Notification(c, message));
          outbox := outbox + [note];
          assert outbox[start..] == sent + [note];
          assert Recipients(sent + [note]) == Recipients(sent) + {s};
        }
        remaining := remaining - {s};
      }
    }

    /**
     `publishEvent`: with the bus disabled, deliver locally; otherwise publish
     upstream, and deliver locally instead when the publish fails, so the
     payload is never dropped.
     */
    method PublishEvent(c: Channel, message: string, busOk: bool, unreachable: set<SessionId>)
      modifies this`outbox, this`busLog
      ensures busLog == old(busLog) + (if busEnabled then [Publish(c, message)] else [])
      ensures busEnabled && busOk ==> outbox == old(outbox)
      ensures !busEnabled || !busOk ==>
        && |outbox| >= |old(outbox)| && outbox[..|old(outbox)|] == old(outbox)
        && FanOut(outbox[|old(outbox)|..], c, message, Holders(sessions, c) - unreachable)
    {
      if !busEnabled {
        DispatchNotification(c, message, unreachable);
        return;
      }
      busLog := busLog + [Publish(c, message)];
      if !busOk {
        DispatchNotification(c, message, unreachable);
      }
    }

    /**
     A new connection under the fresh id `sid`: a rejected credential gets
     one 401 envelope and no session; an accepted one gets a session with no
     subscriptions and a greeting.
     */
    method Connect(sid: SessionId, authOk: bool)
      requires Valid() && sid !in sessions
      modifies this
      ensures Valid()
      ensures Refs() == old(Refs()) && busLog == old(busLog)
      ensures authOk ==> sessions == old(sessions)[sid := {}]
                         && outbox == old(outbox) + [Outgoing(sid, Success(Null, Hello(sid)))]
      ensures !authOk ==> sessions == old(sessions)
                          && outbox == old(outbox) + [Outgoing(sid, Failure(Null, Unauthorized, "unauthorized"))]
    {
      if !authOk {
        outbox := outbox + [Outgoing(sid, Failure(Null, Unauthorized, "unauthorized"))];
        return;
      }
      if busEnabled {
        BalancedAfterOpen(Refs(), sessions, stale, {}, sid);
      }
      sessions := sessions[sid := {}];
      outbox := outbox + [Outgoing(sid, Success(Null, Hello(sid)))];
    }

    /**
     What answering request `req` of session `sid` did: one reply carrying
     the request's id, the session kept, and for each method its own reply
     and effect on the session, the maps and the bus. `busOk` is the bus's
     answer to the one subscribe or unsubscribe the request may cause.
     */
    twostate predicate Handled(sid: SessionId, req: Request, busOk: bool, reply: Envelope)
      reads this
    {
      && !reply.Notification? && reply.id == req.id
      && sid in old(sessions) && sid in sessions && sessions == old(sessions)[sid := sessions[sid]]
      && (req.name == "callTool" ==> OnlyReplied() && reply == CallTool(req.id, req.params))
      && (req.name == "subscribe" && !Truthy(req.params.channel) ==>
            OnlyReplied() && reply == Failure(req.id, MissingParameter, "channel required"))
      && (req.name == "subscribe" && Truthy(req.params.channel) && req.params.channel.value in old(sessions[sid]) ==>
            OnlyReplied() && reply == Success(req.id, Subscribed(req.params.channel.value)))
      && (req.name == "subscribe" && Truthy(req.params.channel) && req.params.channel.value !in old(sessions[sid]) ==>
            var c := req.params.channel.value;
            var st := Acquire(old(Refs()), busEnabled, c, busOk);
            && Refs() == st.registry && busLog == old(busLog) + st.calls && stale == old(stale)
            && sessions[sid] == (if st.ok then old(sessions[sid]) + {c} else old(sessions[sid]))
            && reply == (if st.ok then Success(req.id, Subscribed(c))
                         else Failure(req.id, SubscribeFailed, "failed to subscribe to channel")))
      && (req.name == "unsubscribe" ==> reply == Success(req.id, Unsubscribed(req.params.channel)))
      && (req.name == "unsubscribe" && Truthy(req.params.channel) && req.params.channel.value in old(sessions[sid]) ==>
            var c := req.params.channel.value;
            var st := Release(old(Refs()), busEnabled, c, busOk);
            && Refs() == st.registry && busLog == old(busLog) + st.calls
            && sessions[sid] == old(sessions[sid]) - {c})
      && (req.name == "unsubscribe" && !(Truthy(req.params.channel) && req.params.channel.value in old(sessions[sid])) ==>
            OnlyReplied())
      && (req.name !in {"callTool", "subscribe", "unsubscribe"} ==>
            OnlyReplied() && reply == Failure(req.id, MethodNotFound, "Method not found"))
    }

    /**
     One inbound message, answered with exactly one envelope on its own
     connection: unparsable text gets a parse error with a null id and
     nothing else; a parsed request is handled as `HandleRpc` does.
     */
    method OnMessage(sid: SessionId, incoming: Incoming, busOk: bool) returns (reply: Envelope)
      requires Valid() && sid in sessions
      modifies this
      ensures Valid() && sessions.Keys == old(sessions.Keys)
      ensures outbox == old(outbox) + [Outgoing(sid, reply)]
      ensures incoming.Unparsable? ==> OnlyReplied() && reply == Failure(Null, ParseError, "Parse error")
      ensures incoming.Parsed? ==> Handled(sid, incoming.request, busOk, reply)
    {
      match incoming
      case Unparsable =>
        reply := Failure(Null, ParseError, "Parse error");
        outbox := outbox + [Outgoing(sid, reply)];
      case Parsed(req) =>
        reply := HandleRpc(sid, req, busOk);
    }

    /** `handleRpc`: answer one request of session `sid` with exactly one envelope, as `Handled` states. */
    method HandleRpc(sid: SessionId, req: Request, busOk: bool) returns (reply: Envelope)
      requires Valid() && sid in sessions
      modifies this
      ensures Valid()
      ensures outbox == old(outbox) + [Outgoing(sid, reply)]
      ensures Handled(sid, req, busOk, reply)
    {
      match req.name {
      case "callTool" =>
        reply := CallTool(req.id, req.params);
      case "subscribe" =>
        reply := SubscribeCase(sid, req.id, req.params.channel, busOk);
      case "unsubscribe" =>
        reply := UnsubscribeCase(sid, req.id, req.params.channel, busOk);
      case _ =>
        reply := Failure(req.id, MethodNotFound, "Method not found");
      }
      outbox := outbox + [Outgoing(sid, reply)];
    }

    /**
     The `subscribe` case: a missing or empty channel is refused with 400; a
     channel the session already holds is confirmed with no other effect;
     otherwise the session takes the channel and one reference on it, and
     gives the channel back when the upstream subscribe fails, answering 500.
     */
    method SubscribeCase(sid: SessionId, id: Id, channel: Option<Channel>, busOk: bool) returns (reply: Envelope)
      requires Valid() && sid in sessions
      modifies this`sessions, this`handlers, this`counts, this`busLog
      ensures Valid()
      ensures !reply.Notification? && reply.id == id
      ensures sid in sessions && sessions == old(sessions)[sid := sessions[sid]]
      ensures !Truthy(channel) ==>
        OnlyReplied() && reply == Failure(id, MissingParameter, "channel required")
      ensures Truthy(channel) && channel.value in old(sessions[sid]) ==>
        OnlyReplied() && reply == Success(id, Subscribed(channel.value))
      ensures Truthy(channel) && channel.value !in old(sessions[sid]) ==>
        var c := channel.value;
        var st := Acquire(old(Refs()), busEnabled, c, busOk);
        && Refs() == st.registry && busLog == old(busLog) + st.calls
        && sessions[sid] == (if st.ok then old(sessions[sid]) + {c} else old(sessions[sid]))
        && reply == (if st.ok then Success(id, Subscribed(c))
                     else Failure(id, SubscribeFailed, "failed to subscribe to channel"))
    {
      if !Truthy(channel) {
        return Failure(id, MissingParameter, "channel required");
      }
      var c := channel.value;
      if c in sessions[sid] {
        return Success(id, Subscribed(c));
      }
      ghost var s0 := sessions;
      if busEnabled {
        BalancedAfterJoin(Refs(), s0, stale, {}, sid, c, busOk);
      }
      AcquireKeepsValid(Refs(), busEnabled, c, busOk);
      sessions := sessions[sid := sessions[sid] + {c}];
      var ok := EnsureChannelSubscription(c, busOk);
      if ok {
        reply := Success(id, Subscribed(c));
      } else {
        sessions := sessions[sid := sessions[sid] - {c}];
        assert sessions == s0;
        reply := Failure(id, SubscribeFailed, "failed to subscribe to channel");
      }
    }

    /**
     The `unsubscribe` case: when the session holds the named channel it lets
     go of it and drops its reference; the reply echoes the requested channel
     whatever happened.
     */
    method UnsubscribeCase(sid: SessionId, id: Id, channel: Option<Channel>, busOk: bool) returns (reply: Envelope)
      requires Valid() && sid in sessions
      modifies this`sessions, this`handlers, this`counts, this`busLog, this`stale
      ensures Valid()
      ensures reply == Success(id, Unsubscribed(channel))
      ensures sid in sessions && sessions == old(sessions)[sid := sessions[sid]]
      ensures Truthy(channel) && channel.value in old(sessions[sid]) ==>
        var c := channel.value;
        var st := Release(old(Refs()), busEnabled, c, busOk);
        && Refs() == st.registry && busLog == old(busLog) + st.calls
        && sessions[sid] == old(sessions[sid]) - {c}
      ensures !(Truthy(channel) && channel.value in old(sessions[sid])) ==> OnlyReplied()
    {
      if Truthy(channel) && channel.value in sessions[sid] {
        var c := channel.value;
        ghost var s0 := sessions;
        sessions := sessions[sid := sessions[sid] - {c}];
        if busEnabled {
          BalancedAfterLeave(Refs(), s0, stale, {}, sid, c);
        }
        var _ := ReleaseChannelSubscription(c, busOk, {c});
        assert {c} - {c} == {};
      }
      reply := Success(id, Unsubscribed(channel));
    }

    /**
     The connection of `sid` closed: the session goes, and each channel it
     held is released exactly once, in some order (`released`).
     `unsubscribeFails` holds the channels whose upstream unsubscribe throws;
     those failures are only logged.
     */
    method Close(sid: SessionId, unsubscribeFails: set<Channel>) returns (ghost released: seq<Channel>)
      requires Valid() && sid in sessions
      modifies this
      ensures Valid()
      ensures sessions == old(sessions) - {sid} && outbox == old(outbox)
      ensures forall c :: c in released <==> c in old(sessions[sid])
      ensures Distinct(released)
      ensures var st := ReleaseInOrder(old(Refs()), busEnabled, released, unsubscribeFails);
        Refs() == st.registry && busLog == old(busLog) + st.calls
    {
      var held := sessions[sid];
      if busEnabled {
        BalancedAfterDrop(Refs(), sessions, stale, {}, sid);
        assert {} + held == held;
      }
      sessions := sessions - {sid};
      released := ReleaseEach(held, unsubscribeFails);
    }

    /**
     The loop of the close handler: release every channel of `held` once, in
     some order, while those releases are all that is still pending.
     */
    method ReleaseEach(held: set<Channel>, unsubscribeFails: set<Channel>) returns (ghost released: seq<Channel>)
      requires Consistent(held)
      modifies this`handlers, this`counts, this`busLog, this`stale
      ensures Consistent({})
      ensures forall c :: c in released <==> c in held
      ensures Distinct(released)
      ensures var st := ReleaseInOrder(old(Refs()), busEnabled, released, unsubscribeFails);
        Refs() == st.registry && busLog == old(busLog) + st.calls
    {
      var remaining := held;
      released := [];
      while remaining != {}
        invariant remaining <= held
        invariant forall c :: c in released <==> c in held && c !in remaining
        invariant Distinct(released)
        invariant Consistent(remaining)
        invariant var st := ReleaseInOrder(old(Refs()), busEnabled, released, unsubscribeFails);
          Refs() == st.registry && busLog == old(busLog) + st.calls
        decreases remaining
      {
        var c :| c in remaining;
        ghost var prev := ReleaseInOrder(old(Refs()), busEnabled, released, unsubscribeFails);
        var _ := ReleaseChannelSubscription(c, c !in unsubscribeFails, remaining);
        ghost var st := ReleaseUnder(prev.registry, busEnabled, c, unsubscribeFails);
        assert busLog == old(busLog) + prev.calls + st.calls;
        ReleaseInOrderSnoc(old(Refs()), busEnabled, released, c, unsubscribeFails);
        DistinctSnoc(released, c);
        released := released + [c];
        remaining := remaining - {c};
      }
    }
  }
}
