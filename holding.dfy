/**
 Which sessions hold which channels, and the bookkeeping invariant that ties
 the per-channel reference counts to the sessions' subscription sets.
 */
module Holding {
  import opened Envelope
  import opened RefCount

  /** Each live session's set of subscribed channels, keyed by session id. */
  type Sessions = map<SessionId, set<Channel>>

  /** The sessions whose subscription set contains `c`. */
  function Holders(sessions: Sessions, c: Channel): set<SessionId>
  {
    set s | s in sessions && c in sessions[s]
  }

  function Ind(b: bool): nat
  {
    if b then 1 else 0
  }

  /**
   Every channel's count is the number of sessions holding it, plus one if
   its last upstream unsubscribe failed (`stale`: the count was left at 1),
   plus one if a session has let go of it but its release is still to come
   (`pending`).
   */
  ghost predicate Balanced(r: Registry, sessions: Sessions, stale: set<Channel>, pending: set<Channel>)
  {
    forall c :: r.CountOf(c) == |Holders(sessions, c)| + Ind(c in stale) + Ind(c in pending)
  }

  /** Adding `c` to session `s` makes `s` one more holder of `c` and changes no other channel's holders. */
  lemma HoldersAfterJoin(sessions: Sessions, s: SessionId, c: Channel)
    requires s in sessions && c !in sessions[s]
    ensures |Holders(sessions[s := sessions[s] + {c}], c)| == |Holders(sessions, c)| + 1
    ensures forall d :: d != c ==> Holders(sessions[s := sessions[s] + {c}], d) == Holders(sessions, d)
  {
    var after := sessions[s := sessions[s] + {c}];
    assert Holders(after, c) == Holders(sessions, c) + {s};
    forall d | d != c
      ensures Holders(after, d) == Holders(sessions, d)
    {
      assert forall t :: t in after && d in after[t] <==> t in sessions && d in sessions[t];
    }
  }

  /** Removing `c` from session `s` leaves `c` one holder fewer and changes no other channel's holders. */
  lemma HoldersAfterLeave(sessions: Sessions, s: SessionId, c: Channel)
    requires s in sessions && c in sessions[s]
    ensures |Holders(sessions[s := sessions[s] - {c}], c)| == |Holders(sessions, c)| - 1
    ensures forall d :: d != c ==> Holders(sessions[s := sessions[s] - {c}], d) == Holders(sessions, d)
  {
    var after := sessions[s := sessions[s] - {c}];
    assert Holders(sessions, c) == Holders(after, c) + {s};
    forall d | d != c
      ensures Holders(after, d) == Holders(sessions, d)
    {
      assert forall t :: t in after && d in after[t] <==> t in sessions && d in sessions[t];
    }
  }

  /** Dropping session `s` leaves each of its channels one holder fewer and changes no other channel's holders. */
  lemma HoldersAfterDrop(sessions: Sessions, s: SessionId)
    requires s in sessions
    ensures forall c :: c in sessions[s] ==> |Holders(sessions - {s}, c)| == |Holders(sessions, c)| - 1
    ensures forall c :: c !in sessions[s] ==> Holders(sessions - {s}, c) == Holders(sessions, c)
  {
    var after := sessions - {s};
    forall c | c in sessions[s]
      ensures |Holders(after, c)| == |Holders(sessions, c)| - 1
    {
      assert Holders(sessions, c) == Holders(after, c) + {s};
    }
    forall c | c !in sessions[s]
      ensures Holders(after, c) == Holders(sessions, c)
    {
      assert forall t :: t in after && c in after[t] <==> t in sessions && c in sessions[t];
    }
  }

  /** A new session with no subscriptions changes nobody's holders. */
  lemma HoldersAfterOpen(sessions: Sessions, s: SessionId)
    requires s !in sessions
    ensures forall c :: Holders(sessions[s := {}], c) == Holders(sessions, c)
  {
    forall c
      ensures Holders(sessions[s := {}], c) == Holders(sessions, c)
    {
      assert forall t :: t in sessions[s := {}] && c in sessions[s := {}][t] <==> t in sessions && c in sessions[t];
    }
  }

  /**
   A session joining `c`, followed by the acquire it triggers, keeps the
   counts balanced: on success `c` is in the session's set, on failure the
   optimistic add is undone and the maps are as before.
   */
  lemma BalancedAfterJoin(r: Registry, sessions: Sessions, stale: set<Channel>, pending: set<Channel>,
                          s: SessionId, c: Channel, busOk: bool)
    requires r.Valid() && Balanced(r, sessions, stale, pending)
    requires s in sessions && c !in sessions[s]
    ensures var st := Acquire(r, true, c, busOk);
      Balanced(st.registry, if st.ok then sessions[s := sessions[s] + {c}] else sessions, stale, pending)
  {
    var st := Acquire(r, true, c, busOk);
    if !st.ok {
      AcquireRollback(r, c);
    } else {
      var after := sessions[s := sessions[s] + {c}];
      HoldersAfterJoin(sessions, s, c);
      forall d
        ensures st.registry.CountOf(d) == |Holders(after, d)| + Ind(d in stale) + Ind(d in pending)
      {
        if d != c {
          StepsAreLocal(r, true, c, busOk, d);
        } else if c !in r.handlers {
          assert r.CountOf(c) == 0;
        }
      }
    }
  }

  /** A session letting go of `c` moves that reference from the holders to the pending releases. */
  lemma BalancedAfterLeave(r: Registry, sessions: Sessions, stale: set<Channel>, pending: set<Channel>,
                           s: SessionId, c: Channel)
    requires Balanced(r, sessions, stale, pending)
    requires s in sessions && c in sessions[s] && c !in pending
    ensures Balanced(r, sessions[s := sessions[s] - {c}], stale, pending + {c})
  {
    HoldersAfterLeave(sessions, s, c);
  }

  /**
   Carrying out a pending release keeps the counts balanced; if the upstream
   unsubscribe fails the channel keeps a count no session holds.
   */
  lemma BalancedAfterRelease(r: Registry, sessions: Sessions, stale: set<Channel>, pending: set<Channel>,
                             c: Channel, busOk: bool)
    requires r.Valid() && Balanced(r, sessions, stale, pending) && c in pending
    ensures var st := Release(r, true, c, busOk);
      Balanced(st.registry, sessions, if st.ok then stale else stale + {c}, pending - {c})
  {
    var st := Release(r, true, c, busOk);
    var stale' := if st.ok then stale else stale + {c};
    forall d
      ensures st.registry.CountOf(d) == |Holders(sessions, d)| + Ind(d in stale') + Ind(d in pending - {c})
    {
      if d != c {
        StepsAreLocal(r, true, c, busOk, d);
      }
    }
  }

  /** Dropping a session turns each channel it held into a pending release. */
  lemma BalancedAfterDrop(r: Registry, sessions: Sessions, stale: set<Channel>, pending: set<Channel>, s: SessionId)
    requires Balanced(r, sessions, stale, pending)
    requires s in sessions && sessions[s] !! pending
    ensures Balanced(r, sessions - {s}, stale, pending + sessions[s])
  {
    HoldersAfterDrop(sessions, s);
  }

  /** Opening a session with no subscriptions keeps the counts balanced. */
  lemma BalancedAfterOpen(r: Registry, sessions: Sessions, stale: set<Channel>, pending: set<Channel>, s: SessionId)
    requires Balanced(r, sessions, stale, pending) && s !in sessions
    ensures Balanced(r, sessions[s := {}], stale, pending)
  {
    HoldersAfterOpen(sessions, s);
  }
}
