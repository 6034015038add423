/**
 * Per-user retention of the five most recent qualifying events: the
 * `ROW_NUMBER() OVER (PARTITION BY user_id ORDER BY server_ts DESC)` ranking
 * filtered to `row_num <= 5` in the TRANSFORM query of run_testing.py.
 */
module TopN {
  /** How many events each user keeps (`row_num <= 5`). */
  const Capacity: nat := 5

  /** An event that passed the filter: its user, its item id and its server timestamp (ms). */
  datatype QEvent = QEvent(user: int, itemId: string, ts: int)

  /** Ranked order: timestamps never increase along the sequence. */
  ghost predicate SortedDesc(s: seq<QEvent>)
  {
    forall i, j :: 0 <= i < j < |s| ==> s[i].ts >= s[j].ts
  }

  /** No timestamp in `s` exceeds `t`. */
  ghost predicate AllAtMost(s: seq<QEvent>, t: int)
  {
    forall i :: 0 <= i < |s| ==> s[i].ts <= t
  }

  /**
   * Ranked insertion: `e` goes after every event whose timestamp is at
   * least its own, so among equal timestamps earlier arrivals rank first.
   */
  function Insert(e: QEvent, s: seq<QEvent>): (r: seq<QEvent>)
    ensures |r| == |s| + 1
  {
    if s == [] then [e]
    else if s[0].ts >= e.ts then [s[0]] + Insert(e, s[1..])
    else [e] + s
  }

  /** Insertion adds exactly `e`: the result is a rearrangement of `s` plus `e`. */
  lemma {:induction false} InsertPermutes(e: QEvent, s: seq<QEvent>)
    ensures multiset(Insert(e, s)) == multiset(s) + multiset{e}
  {
    if s != [] && s[0].ts >= e.ts {
      InsertPermutes(e, s[1..]);
      assert s == [s[0]] + s[1..];
    }
  }

  /** Insertion keeps an upper bound on timestamps that `e` also respects. */
  lemma {:induction false} InsertAtMost(e: QEvent, s: seq<QEvent>, t: int)
    requires AllAtMost(s, t) && e.ts <= t
    ensures AllAtMost(Insert(e, s), t)
  {
    if s != [] && s[0].ts >= e.ts {
      InsertAtMost(e, s[1..], t);
      var r := Insert(e, s);
      assert r == [s[0]] + Insert(e, s[1..]);
      assert forall i :: 1 <= i < |r| ==> r[i] == Insert(e, s[1..])[i - 1];
    }
  }

  /** Putting an event in front of a ranked sequence it dominates gives a ranked sequence. */
  lemma ConsSorted(x: QEvent, rest: seq<QEvent>)
    requires SortedDesc(rest) && AllAtMost(rest, x.ts)
    ensures SortedDesc([x] + rest)
  {
    var r := [x] + rest;
    forall i, j | 0 <= i < j < |r|
      ensures r[i].ts >= r[j].ts
    {
      assert r[j] == rest[j - 1];
      if i > 0 {
        assert r[i] == rest[i - 1];
      }
    }
  }

  /** Ranked insertion keeps a ranked sequence ranked. */
  lemma {:induction false} InsertSorted(e: QEvent, s: seq<QEvent>)
    requires SortedDesc(s)
    ensures SortedDesc(Insert(e, s))
  {
    if s == [] {
    } else if s[0].ts >= e.ts {
      var tail := s[1..];
      assert SortedDesc(tail) by {
        forall i, j | 0 <= i < j < |tail|
          ensures tail[i].ts >= tail[j].ts
        {
          assert tail[i] == s[i + 1] && tail[j] == s[j + 1];
        }
      }
      assert AllAtMost(tail, s[0].ts) by {
        forall i | 0 <= i < |tail|
          ensures tail[i].ts <= s[0].ts
        {
          assert tail[i] == s[i + 1];
        }
      }
      InsertSorted(e, tail);
      InsertAtMost(e, tail, s[0].ts);
      ConsSorted(s[0], Insert(e, tail));
    } else {
      assert AllAtMost(s, e.ts) by {
        forall i | 0 <= i < |s|
          ensures s[i].ts <= e.ts
        {
          assert s[0].ts >= s[i].ts || i == 0;
        }
      }
      ConsSorted(e, s);
    }
  }

  /** Stable sort by timestamp, descending: events are ranked in arrival order. */
  function SortDesc(h: seq<QEvent>): (r: seq<QEvent>)
    ensures |r| == |h|
  {
    if h == [] then []
    else Insert(h[|h| - 1], SortDesc(h[..|h| - 1]))
  }

  /** The sort is a rearrangement of its input. */
  lemma {:induction false} SortDescPermutes(h: seq<QEvent>)
    ensures multiset(SortDesc(h)) == multiset(h)
  {
    if h != [] {
      var n := |h| - 1;
      assert h == h[..n] + [h[n]];
      assert multiset(h) == multiset(h[..n]) + multiset{h[n]};
      SortDescPermutes(h[..n]);
      InsertPermutes(h[n], SortDesc(h[..n]));
    }
  }

  /** The sort ranks its result. */
  lemma {:induction false} SortDescSorted(h: seq<QEvent>)
    ensures SortedDesc(SortDesc(h))
  {
    if h != [] {
      var n := |h| - 1;
      SortDescSorted(h[..n]);
      InsertSorted(h[n], SortDesc(h[..n]));
    }
  }

  /** The first `k` entries, or all of them when there are fewer. */
  function Take(s: seq<QEvent>, k: nat): (r: seq<QEvent>)
    ensures |r| == if |s| <= k then |s| else k
    ensures r == s[..|r|]
  {
    if |s| <= k then s else s[..k]
  }

  /** The qualifying events of user `u`, in arrival order (`PARTITION BY user_id`). */
  function UserEvents(h: seq<QEvent>, u: int): (r: seq<QEvent>)
    ensures |r| <= |h|
  {
    if h == [] then []
    else
      var n := |h| - 1;
      UserEvents(h[..n], u) + (if h[n].user == u then [h[n]] else [])
  }

  /** A user's history holds events of the history, all of that user, and all of them. */
  lemma {:induction false} UserEventsMembers(h: seq<QEvent>, u: int)
    ensures forall x :: x in UserEvents(h, u) <==> x in h && x.user == u
  {
    if h != [] {
      var n := |h| - 1;
      UserEventsMembers(h[..n], u);
      assert h == h[..n] + [h[n]];
    }
  }

  /**
   * The reference definition of user `u`'s retained sequence after the
   * qualifying history `h`: the user's events ranked by timestamp and cut
   * to the first five.
   */
  function Retained(h: seq<QEvent>, u: int): (r: seq<QEvent>)
    ensures |r| <= Capacity
    ensures |r| == if |UserEvents(h, u)| <= Capacity then |UserEvents(h, u)| else Capacity
  {
    Take(SortDesc(UserEvents(h, u)), Capacity)
  }

  /** The retained events are ranked, and each is an event of the history for that user. */
  lemma RetainedShape(h: seq<QEvent>, u: int)
    ensures SortedDesc(Retained(h, u))
    ensures forall x :: x in Retained(h, u) ==> x in h && x.user == u
  {
    var s := SortDesc(UserEvents(h, u));
    SortDescSorted(UserEvents(h, u));
    SortDescPermutes(UserEvents(h, u));
    UserEventsMembers(h, u);
    forall x | x in Retained(h, u)
      ensures x in h && x.user == u
    {
      assert x in s;
      assert x in multiset(UserEvents(h, u));
    }
  }

  /** In a ranked sequence, nothing after the first `k` is more recent than anything in them. */
  lemma RankedPrefixIsTop(s: seq<QEvent>, k: nat)
    requires SortedDesc(s) && k <= |s|
    ensures forall x, y :: x in multiset(s) - multiset(s[..k]) && y in s[..k] ==> x.ts <= y.ts
  {
    assert s == s[..k] + s[k..];
    assert multiset(s) - multiset(s[..k]) == multiset(s[k..]);
    forall x, y | x in multiset(s[k..]) && y in s[..k]
      ensures x.ts <= y.ts
    {
      var j :| 0 <= j < |s[k..]| && s[k..][j] == x;
      var i :| 0 <= i < k && s[..k][i] == y;
      assert s[i] == y && s[k + j] == x;
    }
  }

  /**
   * Top-k correctness: the retained events are drawn from the user's
   * history, and every event of that history left out is no more recent
   * than any event kept.
   */
  lemma RetainedIsTopK(h: seq<QEvent>, u: int)
    ensures multiset(Retained(h, u)) <= multiset(UserEvents(h, u))
    ensures forall x, y :: x in multiset(UserEvents(h, u)) - multiset(Retained(h, u)) && y in Retained(h, u)
              ==> x.ts <= y.ts
  {
    var s := SortDesc(UserEvents(h, u));
    SortDescSorted(UserEvents(h, u));
    SortDescPermutes(UserEvents(h, u));
    var r := Retained(h, u);
    assert r == s[..|r|];
    assert s == r + s[|r|..];
    assert multiset(s) == multiset(r) + multiset(s[|r|..]);
    RankedPrefixIsTop(s, |r|);
  }

  /**
   * With at most five qualifying events, a user keeps the whole history,
   * ranked by timestamp.
   */
  lemma ShortHistoryKeptWhole(h: seq<QEvent>, u: int)
    requires |UserEvents(h, u)| <= Capacity
    ensures Retained(h, u) == SortDesc(UserEvents(h, u))
    ensures multiset(Retained(h, u)) == multiset(UserEvents(h, u))
  {
    SortDescPermutes(UserEvents(h, u));
  }

  /** A new event changes only its own user's history (`PARTITION BY user_id`). */
  lemma OtherUsersUnaffected(h: seq<QEvent>, e: QEvent, v: int)
    requires v != e.user
    ensures UserEvents(h + [e], v) == UserEvents(h, v)
    ensures Retained(h + [e], v) == Retained(h, v)
  {
    assert (h + [e])[..|h|] == h;
  }

  /** A new event for user `u` joins the end of `u`'s history. */
  lemma OwnHistoryExtended(h: seq<QEvent>, e: QEvent)
    ensures UserEvents(h + [e], e.user) == UserEvents(h, e.user) + [e]
    ensures SortDesc(UserEvents(h + [e], e.user)) == Insert(e, SortDesc(UserEvents(h, e.user)))
  {
    assert (h + [e])[..|h|] == h;
    var p := UserEvents(h, e.user) + [e];
    assert p[..|p| - 1] == UserEvents(h, e.user);
  }

  /**
   * Truncating before a ranked insertion loses nothing: the first `k`
   * entries after inserting into the first `k` are the first `k` after
   * inserting into the whole sequence. This is why keeping only five
   * events per user suffices.
   */
  lemma {:induction false} TakeInsert(e: QEvent, s: seq<QEvent>, k: nat)
    ensures Take(Insert(e, Take(s, k)), k) == Take(Insert(e, s), k)
  {
    if k == 0 || s == [] {
    } else if s[0].ts >= e.ts {
      var t := Take(s, k);
      assert t == [s[0]] + Take(s[1..], k - 1);
      assert Insert(e, t) == [s[0]] + Insert(e, Take(s[1..], k - 1));
      TakeInsert(e, s[1..], k - 1);
      assert Take(Insert(e, t), k) == [s[0]] + Take(Insert(e, Take(s[1..], k - 1)), k - 1);
      assert Take(Insert(e, s), k) == [s[0]] + Take(Insert(e, s[1..]), k - 1);
    } else {
      var t := Take(s, k);
      assert Insert(e, t) == [e] + t;
      assert Take(Insert(e, t), k) == [e] + Take(s, k - 1);
      assert Take(Insert(e, s), k) == [e] + Take(s, k - 1);
    }
  }

  /** The retained sequence of a user, or empty for a user never seen. */
  function Lookup(m: map<int, seq<QEvent>>, u: int): seq<QEvent>
  {
    if u in m then m[u] else []
  }

  /**
   * One incremental update of the per-user state: insert into the
   * owner's retained sequence, re-rank, truncate to five.
   */
  function Step(m: map<int, seq<QEvent>>, e: QEvent): (m': map<int, seq<QEvent>>)
    ensures m'.Keys == m.Keys + {e.user}
    ensures forall v :: v in m && v != e.user ==> m'[v] == m[v]
    ensures |m'[e.user]| <= Capacity
  {
    m[e.user := Take(Insert(e, Lookup(m, e.user)), Capacity)]
  }

  /** The per-user state after feeding the qualifying events `h`, one by one, from empty. */
  function Replay(h: seq<QEvent>): (m: map<int, seq<QEvent>>)
    ensures h != [] ==> h[|h| - 1].user in m && 0 < |m[h[|h| - 1].user]| <= Capacity
    ensures h == [] ==> m == map[]
  {
    if h == [] then map[]
    else Step(Replay(h[..|h| - 1]), h[|h| - 1])
  }

  /**
   * The incremental state agrees with the reference definition for every
   * user: bounded per-user buffers compute exactly the top five of the
   * whole history.
   */
  lemma {:induction false} ReplayAgrees(h: seq<QEvent>, u: int)
    ensures Lookup(Replay(h), u) == Retained(h, u)
  {
    if h == [] {
    } else {
      var n := |h| - 1;
      var h', e := h[..n], h[n];
      assert h == h' + [e];
      ReplayAgrees(h', u);
      if e.user == u {
        OwnHistoryExtended(h', e);
        TakeInsert(e, SortDesc(UserEvents(h', u)), Capacity);
      } else {
        OtherUsersUnaffected(h', e, u);
      }
    }
  }

  /** One more event, seen both ways: a state update, and the reference definition for its user. */
  lemma ReplayStep(h: seq<QEvent>, e: QEvent)
    ensures Replay(h + [e]) == Step(Replay(h), e)
    ensures Lookup(Replay(h), e.user) == Retained(h, e.user)
    ensures Take(Insert(e, Lookup(Replay(h), e.user)), Capacity) == Retained(h + [e], e.user)
  {
    assert (h + [e])[..|h|] == h;
    ReplayAgrees(h, e.user);
    ReplayAgrees(h + [e], e.user);
  }
}
