/** The limits over whole runs: how much any window admits, and that clean-up is never noticed. */
module LimitRuns {
  import opened Common
  import opened Limits

  // ---- one bucket -----------------------------------------------------------

  /** Refilling in two goes is refilling once. */
  lemma RefillTwice(b: Bucket, rate: nat, now: int, later: int)
    requires BucketOk(b, rate, now) && now <= later
    ensures 0.0 <= Refill(b, rate, now) <= rate as real
    ensures Refill(Bucket(Refill(b, rate, now), now), rate, later) == Refill(b, rate, later)
    ensures Refill(b, rate, later) <= Refill(b, rate, now) + Gain(rate, later - now)
  {
  }

  /** Frames admitted when a link's worker asks at these times. */
  function Admitted(b: Bucket, rate: nat, times: seq<int>): nat
    decreases |times|
  {
    if times == [] then 0
    else
      var (b2, ok) := Spend(b, rate, times[0]);
      (if ok then 1 else 0) + Admitted(b2, rate, times[1..])
  }

  ghost predicate NonDecreasing(times: seq<int>) {
    forall i, j :: 0 <= i < j < |times| ==> times[i] <= times[j]
  }

  lemma SpendKeeps(b: Bucket, rate: nat, now: int)
    requires BucketOk(b, rate, now)
    ensures BucketOk(Spend(b, rate, now).0, rate, now)
    ensures Spend(b, rate, now).0.tokens + (if Spend(b, rate, now).1 then 1.0 else 0.0) == Refill(b, rate, now)
  {
  }

  lemma {:induction false} AdmittedAtMost(b: Bucket, rate: nat, times: seq<int>)
    requires times != [] && NonDecreasing(times) && BucketOk(b, rate, times[0])
    ensures Admitted(b, rate, times) as real <= Refill(b, rate, times[0]) + Gain(rate, times[|times| - 1] - times[0])
    decreases |times|
  {
    var (b2, ok) := Spend(b, rate, times[0]);
    SpendKeeps(b, rate, times[0]);
    GainAdds(rate, 0, 0);
    if |times| > 1 {
      AdmittedAtMost(b2, rate, times[1..]);
      assert times[1..][|times| - 2] == times[|times| - 1];
      GainAdds(rate, 0, times[1] - times[0]);
      GainAdds(rate, times[1] - times[0], times[|times| - 1] - times[1]);
    } else {
      assert times[1..] == [];
    }
    hide Gain;
  }

  /** A link gets at most rate * (1 + T) frames through in any T minutes. */
  lemma FramesInWindow(b: Bucket, rate: nat, times: seq<int>)
    requires times != [] && NonDecreasing(times) && BucketOk(b, rate, times[0])
    ensures Admitted(b, rate, times) as real <= rate as real + Gain(rate, times[|times| - 1] - times[0])
  {
    AdmittedAtMost(b, rate, times);
    hide Gain;
  }

  // ---- runs -----------------------------------------------------------------

  datatype Timed = Timed(request: Request, at: int)

  ghost predicate Ordered(rs: seq<Timed>, now: int) {
    && (forall i :: 0 <= i < |rs| ==> now <= rs[i].at)
    && (forall i, j :: 0 <= i < j < |rs| ==> rs[i].at <= rs[j].at)
  }

  /** What one request does; a hub that never evicts skips the clean-up. */
  function Serve(t: Tables, c: Config, r: Timed, evicts: bool): (Tables, Answer) {
    if r.request.Maintain? && !evicts then (t, Allowed) else Handle(t, c, r.request, r.at)
  }

  function Answers(t: Tables, c: Config, rs: seq<Timed>, evicts: bool): seq<Answer>
    decreases |rs|
  {
    if rs == [] then []
    else
      var (t2, a) := Serve(t, c, rs[0], evicts);
      [a] + Answers(t2, c, rs[1..], evicts)
  }

  ghost predicate BucketsOk(t: Tables, c: Config, now: int) {
    forall id :: id in t.rate ==> BucketOk(t.rate[id], c.postsPerMinute, now)
  }

  ghost predicate SamePosts(t: Tables, u: Tables, c: Config, now: int) {
    forall id, later :: now <= later ==> Avail(t, c, id, later) == Avail(u, c, id, later)
  }

  ghost predicate SameHistory(t: Tables, u: Tables, c: Config, now: int) {
    forall id, later :: now <= later ==> Wait(t, c, id, later) == Wait(u, c, id, later)
  }

  ghost predicate SameTimes<K(!new)>(m: map<K, seq<int>>, n: map<K, seq<int>>, window: int, now: int) {
    forall k, later :: now <= later ==> TakeRecent(Times(m, k), later, window) == TakeRecent(Times(n, k), later, window)
  }

  /** The two hubs answer alike from now on. */
  ghost predicate Same(t: Tables, u: Tables, c: Config, now: int) {
    && SamePosts(t, u, c, now)
    && SameHistory(t, u, c, now)
    && SameTimes(t.issued, u.issued, HOUR, now)
    && SameTimes(t.failures, u.failures, LOCKOUT, now)
  }

  // ---- posts ------------------------------------------------------------------

  /** A post is decided by the tokens available, and takes one of them. */
  lemma PostSpends(t: Tables, c: Config, id: Identity, now: int)
    requires BucketsOk(t, c, now)
    ensures var (t2, a) := DoPost(t, c, id, now);
            && a.Allowed? == (Avail(t, c, id, now) >= 1.0)
            && BucketsOk(t2, c, now)
            && t2.rate[id] == Bucket(Avail(t, c, id, now) - (if a.Allowed? then 1.0 else 0.0), now)
  {
    var b := if id in t.rate then t.rate[id] else Bucket(c.postsPerMinute as real, now);
    SpendKeeps(b, c.postsPerMinute, now);
    GainAdds(c.postsPerMinute, 0, 0);
    hide Gain;
    var t2 := DoPost(t, c, id, now).0;
    forall i | i in t2.rate
      ensures BucketOk(t2.rate[i], c.postsPerMinute, now)
    {
      if i != id {
        assert i in t.rate && t2.rate[i] == t.rate[i];
      }
    }
  }

  lemma PostSame(t: Tables, u: Tables, c: Config, id: Identity, now: int)
    requires BucketsOk(t, c, now) && BucketsOk(u, c, now) && SamePosts(t, u, c, now)
    ensures DoPost(t, c, id, now).1 == DoPost(u, c, id, now).1
    ensures SamePosts(DoPost(t, c, id, now).0, DoPost(u, c, id, now).0, c, now)
  {
    PostSpends(t, c, id, now);
    PostSpends(u, c, id, now);
    var t2, u2 := DoPost(t, c, id, now).0, DoPost(u, c, id, now).0;
    assert Avail(t, c, id, now) == Avail(u, c, id, now);
    assert t2.rate[id] == u2.rate[id];
    forall i, later | now <= later
      ensures Avail(t2, c, i, later) == Avail(u2, c, i, later)
    {
      if i != id {
        assert Avail(t2, c, i, later) == Avail(t, c, i, later) && Avail(u2, c, i, later) == Avail(u, c, i, later);
      }
    }
  }

  /** A bucket left alone for a minute is full, like one that is not there. */
  lemma EvictPosts(t: Tables, c: Config, id: Identity, now: int, later: int)
    requires BucketsOk(t, c, now) && now <= later
    ensures Avail(Evicted(t, c, now), c, id, later) == Avail(t, c, id, later)
  {
    if id in t.rate && now - t.rate[id].at > MINUTE {
      GainGrows(c.postsPerMinute, later - t.rate[id].at);
      hide Gain;
    }
  }

  // ---- history and windows -----------------------------------------------------

  lemma HistorySame(t: Tables, u: Tables, c: Config, id: Identity, granted: bool, now: int)
    requires SameHistory(t, u, c, now)
    ensures DoHistory(t, c, id, granted, now).1 == DoHistory(u, c, id, granted, now).1
    ensures SameHistory(DoHistory(t, c, id, granted, now).0, DoHistory(u, c, id, granted, now).0, c, now)
  {
    var t2, u2 := DoHistory(t, c, id, granted, now).0, DoHistory(u, c, id, granted, now).0;
    assert Wait(t, c, id, now) == Wait(u, c, id, now);
    forall i, later | now <= later
      ensures Wait(t2, c, i, later) == Wait(u2, c, i, later)
    {
      assert Wait(t, c, i, later) == Wait(u, c, i, later);
    }
  }

  lemma EvictHistorySame(t: Tables, c: Config, id: Identity, now: int, later: int)
    requires now <= later
    ensures Wait(Evicted(t, c, now), c, id, later) == Wait(t, c, id, later)
  {
  }

  lemma RecentAppend(times: seq<int>, x: int, later: int, window: int)
    ensures TakeRecent(times + [x], later, window) ==
            TakeRecent(times, later, window) + (if later - x < window then [x] else [])
  {
  }

  /** Trimming to the window now loses nothing a later trim would keep. */
  lemma {:induction false} RecentLater(times: seq<int>, now: int, later: int, window: int)
    requires now <= later
    ensures TakeRecent(TakeRecent(times, now, window), later, window) == TakeRecent(times, later, window)
  {
    if times != [] {
      var init, x := times[..|times| - 1], times[|times| - 1];
      var kept := TakeRecent(init, now, window);
      RecentLater(init, now, later, window);
      if now - x < window {
        assert TakeRecent(times, now, window) == kept + [x];
        RecentAppend(kept, x, later, window);
      } else {
        assert TakeRecent(times, now, window) == kept;
        assert TakeRecent(times, later, window) == TakeRecent(init, later, window);
      }
    }
  }

  lemma TrimmedSame(times: seq<int>, more: seq<int>, now: int, later: int, window: int)
    requires now <= later && (more == [] || more == [now])
    ensures TakeRecent(TakeRecent(times, now, window) + more, later, window) ==
            TakeRecent(times, later, window) + TakeRecent(more, later, window)
  {
    RecentLater(times, now, later, window);
    var kept := TakeRecent(times, now, window);
    if more == [] {
      assert kept + more == kept;
    } else {
      RecentAppend(kept, now, later, window);
      assert [now][..0] == [];
    }
  }

  /** Storing the trimmed times, with or without a new one, for one key. */
  lemma StoreSame<K(!new)>(m: map<K, seq<int>>, n: map<K, seq<int>>, k: K, more: seq<int>, now: int, window: int)
    requires SameTimes(m, n, window, now) && (more == [] || more == [now])
    ensures SameTimes(m[k := TakeRecent(Times(m, k), now, window) + more], n[k := TakeRecent(Times(n, k), now, window) + more], window, now)
  {
    var m2 := m[k := TakeRecent(Times(m, k), now, window) + more];
    var n2 := n[k := TakeRecent(Times(n, k), now, window) + more];
    hide TakeRecent;
    forall j, later | now <= later
      ensures TakeRecent(Times(m2, j), later, window) == TakeRecent(Times(n2, j), later, window)
    {
      assert TakeRecent(Times(m, j), later, window) == TakeRecent(Times(n, j), later, window);
      if j == k {
        TrimmedSame(Times(m, k), more, now, later, window);
        TrimmedSame(Times(n, k), more, now, later, window);
      }
    }
  }

  lemma IssueSame(t: Tables, u: Tables, person: PersonId, now: int)
    requires SameTimes(t.issued, u.issued, HOUR, now)
    ensures DoIssue(t, person, now).1 == DoIssue(u, person, now).1
    ensures SameTimes(DoIssue(t, person, now).0.issued, DoIssue(u, person, now).0.issued, HOUR, now)
  {
    hide TakeRecent;
    var recent := TakeRecent(Times(t.issued, person), now, HOUR);
    assert TakeRecent(Times(u.issued, person), now, HOUR) == recent;
    assert recent + [] == recent;
    StoreSame(t.issued, u.issued, person, if |recent| >= CODES_PER_HOUR then [] else [now], now, HOUR);
  }

  lemma GuessSame(t: Tables, u: Tables, id: Identity, wrong: bool, now: int)
    requires SameTimes(t.failures, u.failures, LOCKOUT, now)
    ensures DoGuess(t, id, wrong, now).1 == DoGuess(u, id, wrong, now).1
    ensures SameTimes(DoGuess(t, id, wrong, now).0.failures, DoGuess(u, id, wrong, now).0.failures, LOCKOUT, now)
  {
    hide TakeRecent;
    var recent := TakeRecent(Times(t.failures, id), now, LOCKOUT);
    assert TakeRecent(Times(u.failures, id), now, LOCKOUT) == recent;
    assert recent + [] == recent;
    StoreSame(t.failures, u.failures, id, if |recent| >= GUESSES then [] else [now], now, LOCKOUT);
  }

  lemma EvictTimesSame<K>(m: map<K, seq<int>>, k: K, now: int, later: int, window: int)
    requires now <= later
    ensures TakeRecent(Times(LiveTimes(m, now, window), k), later, window) == TakeRecent(Times(m, k), later, window)
  {
    RecentLater(Times(m, k), now, later, window);
  }

  // ---- clean-up is never noticed -------------------------------------------------

  lemma EvictSame(t: Tables, c: Config, now: int)
    requires BucketsOk(t, c, now)
    ensures Same(Evicted(t, c, now), t, c, now)
    ensures BucketsOk(Evicted(t, c, now), c, now)
  {
    var t2 := Evicted(t, c, now);
    hide Avail, Wait, TakeRecent;
    forall id, later | now <= later
      ensures Avail(t2, c, id, later) == Avail(t, c, id, later)
      ensures Wait(t2, c, id, later) == Wait(t, c, id, later)
    {
      EvictPosts(t, c, id, now, later);
      EvictHistorySame(t, c, id, now, later);
    }
    forall k, later | now <= later
      ensures TakeRecent(Times(t2.issued, k), later, HOUR) == TakeRecent(Times(t.issued, k), later, HOUR)
    {
      EvictTimesSame(t.issued, k, now, later, HOUR);
    }
    forall k, later | now <= later
      ensures TakeRecent(Times(t2.failures, k), later, LOCKOUT) == TakeRecent(Times(t.failures, k), later, LOCKOUT)
    {
      EvictTimesSame(t.failures, k, now, later, LOCKOUT);
    }
  }

  /** Handling a request other than clean-up touches one table only. */
  lemma OtherTables(t: Tables, c: Config, r: Request, now: int)
    requires !r.Maintain?
    ensures var t2 := Handle(t, c, r, now).0;
            && (!r.Post? ==> t2.rate == t.rate)
            && (!r.History? ==> t2.historyAt == t.historyAt)
            && (!r.Issue? ==> t2.issued == t.issued)
            && (!r.Guess? ==> t2.failures == t.failures)
  {
    hide TakeRecent, Spend;
  }

  lemma SameRate(t: Tables, u: Tables, t2: Tables, u2: Tables, c: Config, now: int)
    requires t2.rate == t.rate && u2.rate == u.rate && SamePosts(t, u, c, now)
    ensures SamePosts(t2, u2, c, now)
  {
    forall id, later | now <= later
      ensures Avail(t2, c, id, later) == Avail(u2, c, id, later)
    {
      assert Avail(t, c, id, later) == Avail(u, c, id, later);
    }
  }

  lemma SameHistories(t: Tables, u: Tables, t2: Tables, u2: Tables, c: Config, now: int)
    requires t2.historyAt == t.historyAt && u2.historyAt == u.historyAt && SameHistory(t, u, c, now)
    ensures SameHistory(t2, u2, c, now)
  {
    forall id, later | now <= later
      ensures Wait(t2, c, id, later) == Wait(u2, c, id, later)
    {
      assert Wait(t, c, id, later) == Wait(u, c, id, later);
    }
  }

  lemma HandleSame(t: Tables, u: Tables, c: Config, r: Request, now: int)
    requires BucketsOk(t, c, now) && BucketsOk(u, c, now) && Same(t, u, c, now) && !r.Maintain?
    ensures Handle(t, c, r, now).1 == Handle(u, c, r, now).1
    ensures Same(Handle(t, c, r, now).0, Handle(u, c, r, now).0, c, now)
  {
    var t2, u2 := Handle(t, c, r, now).0, Handle(u, c, r, now).0;
    OtherTables(t, c, r, now);
    OtherTables(u, c, r, now);
    hide SamePosts, SameHistory, SameTimes, BucketsOk, DoPost, DoHistory, DoIssue, DoGuess;
    if !r.Post? {
      SameRate(t, u, t2, u2, c, now);
    }
    if !r.History? {
      SameHistories(t, u, t2, u2, c, now);
    }
    match r
    case Post(id) => PostSame(t, u, c, id, now);
    case History(id, granted) => HistorySame(t, u, c, id, granted, now);
    case Issue(person) => IssueSame(t, u, person, now);
    case Guess(id, wrong) => GuessSame(t, u, id, wrong, now);
  }

  lemma HandleBuckets(t: Tables, c: Config, r: Request, now: int)
    requires BucketsOk(t, c, now)
    ensures BucketsOk(Handle(t, c, r, now).0, c, now)
  {
  }

  lemma SameLater(t: Tables, u: Tables, c: Config, now: int, later: int)
    requires Same(t, u, c, now) && now <= later
    ensures Same(t, u, c, later)
  {
  }

  lemma BucketsLater(t: Tables, c: Config, now: int, later: int)
    requires BucketsOk(t, c, now) && now <= later
    ensures BucketsOk(t, c, later)
  {
  }

  lemma SameJoin(t: Tables, u: Tables, v: Tables, c: Config, now: int)
    requires Same(t, u, c, now) && Same(u, v, c, now)
    ensures Same(t, v, c, now)
  {
  }

  lemma ServeSame(t: Tables, u: Tables, c: Config, r: Timed)
    requires BucketsOk(t, c, r.at) && BucketsOk(u, c, r.at) && Same(t, u, c, r.at)
    ensures Serve(t, c, r, true).1 == Serve(u, c, r, false).1
    ensures Same(Serve(t, c, r, true).0, Serve(u, c, r, false).0, c, r.at)
    ensures BucketsOk(Serve(t, c, r, true).0, c, r.at) && BucketsOk(Serve(u, c, r, false).0, c, r.at)
  {
    HandleBuckets(t, c, r.request, r.at);
    HandleBuckets(u, c, r.request, r.at);
    if r.request.Maintain? {
      EvictSame(t, c, r.at);
      SameJoin(Evicted(t, c, r.at), t, u, c, r.at);
    } else {
      HandleSame(t, u, c, r.request, r.at);
    }
    hide Same, BucketsOk, DoPost, DoHistory, DoIssue, DoGuess;
  }

  lemma {:induction false} SameAnswers(t: Tables, u: Tables, c: Config, rs: seq<Timed>, now: int)
    requires BucketsOk(t, c, now) && BucketsOk(u, c, now) && Same(t, u, c, now) && Ordered(rs, now)
    ensures Answers(t, c, rs, true) == Answers(u, c, rs, false)
    decreases |rs|
  {
    if rs != [] {
      var r := rs[0];
      BucketsLater(t, c, now, r.at);
      BucketsLater(u, c, now, r.at);
      SameLater(t, u, c, now, r.at);
      ServeSame(t, u, c, r);
      hide Serve, Same, BucketsOk;
      SameAnswers(Serve(t, c, r, true).0, Serve(u, c, r, false).0, c, rs[1..], r.at);
    }
  }

  const EMPTY := Tables(map[], map[], map[], map[])

  /** A hub that cleans up its tables answers every request as one that never does. */
  lemma EvictionUnseen(c: Config, rs: seq<Timed>, now: int)
    requires Ordered(rs, now)
    ensures Answers(EMPTY, c, rs, true) == Answers(EMPTY, c, rs, false)
  {
    SameAnswers(EMPTY, EMPTY, c, rs, now);
  }

  // ---- posts in a window -------------------------------------------------------------

  /** Posts of id let through in a run of the hub. */
  function PostsAllowed(t: Tables, c: Config, rs: seq<Timed>, id: Identity): nat
    decreases |rs|
  {
    if rs == [] then 0
    else
      var (t2, a) := Serve(t, c, rs[0], true);
      (if rs[0].request == Post(id) && a.Allowed? then 1 else 0) + PostsAllowed(t2, c, rs[1..], id)
  }

  /** A step takes what it admits out of the tokens available, and nothing else changes them. */
  lemma ServeSpends(t: Tables, c: Config, r: Timed, id: Identity)
    requires BucketsOk(t, c, r.at)
    ensures var (t2, a) := Serve(t, c, r, true);
            && BucketsOk(t2, c, r.at)
            && Avail(t2, c, id, r.at) == Avail(t, c, id, r.at) - (if r.request == Post(id) && a.Allowed? then 1.0 else 0.0)
  {
    HandleBuckets(t, c, r.request, r.at);
    if r.request.Maintain? {
      EvictSame(t, c, r.at);
    } else if r.request.Post? {
      PostSpends(t, c, r.request.id, r.at);
      FullAfter(DoPost(t, c, r.request.id, r.at).0, c, r.request.id, r.at);
    } else {
      OtherTables(t, c, r.request, r.at);
    }
    hide Gain, DoHistory, DoIssue, DoGuess, Evicted, BucketsOk;
  }

  lemma FullAfter(t: Tables, c: Config, id: Identity, now: int)
    requires BucketsOk(t, c, now) && id in t.rate && t.rate[id].at == now
    ensures Avail(t, c, id, now) == t.rate[id].tokens
  {
  }

  lemma AvailLater(t: Tables, c: Config, id: Identity, now: int, later: int)
    requires BucketsOk(t, c, now) && now <= later
    ensures 0.0 <= Avail(t, c, id, now) <= c.postsPerMinute as real
    ensures Avail(t, c, id, later) <= Avail(t, c, id, now) + Gain(c.postsPerMinute, later - now)
  {
    if id in t.rate {
      RefillTwice(t.rate[id], c.postsPerMinute, now, later);
    } else {
      GainGrows(c.postsPerMinute, later - now);
    }
    hide Gain;
  }

  lemma {:induction false} PostsAtMost(t: Tables, c: Config, rs: seq<Timed>, id: Identity)
    requires rs != [] && Ordered(rs, rs[0].at) && BucketsOk(t, c, rs[0].at)
    ensures PostsAllowed(t, c, rs, id) as real <=
            Avail(t, c, id, rs[0].at) + Gain(c.postsPerMinute, rs[|rs| - 1].at - rs[0].at)
    decreases |rs|
  {
    hide Gain, Serve, Avail, BucketsOk;
    var now := rs[0].at;
    var t2 := Serve(t, c, rs[0], true).0;
    ServeSpends(t, c, rs[0], id);
    AvailLater(t2, c, id, now, now);
    GainAdds(c.postsPerMinute, 0, 0);
    if |rs| == 1 {
      assert rs[1..] == [];
    } else {
      var later := rs[1].at;
      BucketsLater(t2, c, now, later);
      PostsAtMost(t2, c, rs[1..], id);
      AvailLater(t2, c, id, now, later);
      GainAdds(c.postsPerMinute, later - now, rs[|rs| - 1].at - later);
    }
  }

  /** The hub's tables after a run. */
  function After(t: Tables, c: Config, rs: seq<Timed>): Tables
    decreases |rs|
  {
    if rs == [] then t else After(Serve(t, c, rs[0], true).0, c, rs[1..])
  }

  lemma {:induction false} AfterOk(t: Tables, c: Config, rs: seq<Timed>, now: int, later: int)
    requires BucketsOk(t, c, now) && Ordered(rs, now) && now <= later && (rs != [] ==> rs[|rs| - 1].at <= later)
    ensures BucketsOk(After(t, c, rs), c, later)
    decreases |rs|
  {
    if rs == [] {
      BucketsLater(t, c, now, later);
    } else {
      BucketsLater(t, c, now, rs[0].at);
      HandleBuckets(t, c, rs[0].request, rs[0].at);
      hide BucketsOk, Handle;
      AfterOk(Serve(t, c, rs[0], true).0, c, rs[1..], rs[0].at, later);
    }
  }

  /** In any stretch of any run, T minutes long, an identity gets at most rate * (1 + T) posts in. */
  lemma PostsInWindow(c: Config, before: seq<Timed>, rs: seq<Timed>, now: int, id: Identity)
    requires rs != [] && Ordered(before + rs, now)
    ensures PostsAllowed(After(EMPTY, c, before), c, rs, id) as real <=
            c.postsPerMinute as real + Gain(c.postsPerMinute, rs[|rs| - 1].at - rs[0].at)
  {
    var all := before + rs;
    assert forall i :: 0 <= i < |before| ==> all[i] == before[i];
    assert forall i :: 0 <= i < |rs| ==> all[|before| + i] == rs[i];
    AfterOk(EMPTY, c, before, now, rs[0].at);
    var t := After(EMPTY, c, before);
    PostsAtMost(t, c, rs, id);
    AvailLater(t, c, id, rs[0].at, rs[0].at);
    hide Gain, After;
  }

  // ---- codes and guesses in a window ----------------------------------------------

  /** Every n + 1 entries in a row span at least the window. */
  ghost predicate Spaced(log: seq<int>, n: nat, window: int) {
    && NonDecreasing(log)
    && forall k :: 0 <= k < |log| - n ==> log[k + n] - log[k] >= window
  }

  /** The table keeps the end of the log; what it has dropped is out of the window. */
  ghost predicate Tracks(kept: seq<int>, log: seq<int>, window: int, now: int) {
    && |kept| <= |log|
    && kept == log[|log| - |kept|..]
    && (forall k :: 0 <= k < |log| - |kept| ==> now - log[k] >= window)
    && (forall k :: 0 <= k < |log| ==> log[k] <= now)
  }

  lemma {:induction false} NoneRecent(times: seq<int>, now: int, window: int)
    requires forall k :: 0 <= k < |times| ==> now - times[k] >= window
    ensures TakeRecent(times, now, window) == []
  {
    if times != [] {
      NoneRecent(times[..|times| - 1], now, window);
    }
  }

  /** Of an ascending sequence, the recent times are its end. */
  lemma {:induction false} RecentIsSuffix(times: seq<int>, now: int, window: int)
    requires NonDecreasing(times)
    ensures TakeRecent(times, now, window) == times[|times| - |TakeRecent(times, now, window)|..]
    ensures forall k :: 0 <= k < |times| - |TakeRecent(times, now, window)| ==> now - times[k] >= window
  {
    if times != [] {
      var init, x := times[..|times| - 1], times[|times| - 1];
      if now - x >= window {
        NoneRecent(times, now, window);
      } else {
        RecentIsSuffix(init, now, window);
        var kept := TakeRecent(init, now, window);
        assert TakeRecent(times, now, window) == kept + [x];
        hide TakeRecent;
        assert kept + [x] == times[|init| - |kept|..];
        assert forall k :: 0 <= k < |init| ==> times[k] == init[k];
      }
    }
  }

  lemma TrimTracks(kept: seq<int>, log: seq<int>, window: int, was: int, now: int)
    requires Tracks(kept, log, window, was) && NonDecreasing(log) && was <= now
    ensures Tracks(TakeRecent(kept, now, window), log, window, now)
  {
    RecentIsSuffix(kept, now, window);
    hide TakeRecent;
    var cut := |log| - |kept|;
    var recent := TakeRecent(kept, now, window);
    assert recent == log[|log| - |recent|..];
    forall k | 0 <= k < |log| - |recent|
      ensures now - log[k] >= window
    {
      if k >= cut {
        assert log[k] == kept[k - cut];
      }
    }
  }

  /** With fewer than n recent entries, one more keeps the log spaced. */
  lemma RecordSpaced(recent: seq<int>, log: seq<int>, n: nat, window: int, now: int)
    requires Tracks(recent, log, window, now) && Spaced(log, n, window) && |recent| < n
    ensures Spaced(log + [now], n, window)
    ensures window > 0 ==> Tracks(recent + [now], log + [now], window, now)
  {
  }

  function CountIn(log: seq<int>, from: int, to: int): nat {
    if log == [] then 0
    else CountIn(log[..|log| - 1], from, to) + (if from <= log[|log| - 1] < to then 1 else 0)
  }

  lemma {:induction false} NoneIn(log: seq<int>, from: int, to: int)
    requires forall k :: 0 <= k < |log| ==> !(from <= log[k] < to)
    ensures CountIn(log, from, to) == 0
  {
    if log != [] {
      NoneIn(log[..|log| - 1], from, to);
    }
  }

  lemma {:induction false} CountIsShort(log: seq<int>, from: int, to: int, n: nat)
    requires NonDecreasing(log)
    requires forall k :: 0 <= k < |log| - n ==> log[k] < from
    ensures CountIn(log, from, to) <= n
    decreases |log|
  {
    if log != [] {
      if n == 0 {
        NoneIn(log, from, to);
      } else {
        CountIsShort(log[..|log| - 1], from, to, n - 1);
      }
    }
  }

  /** A spaced log has at most n entries in any half-open window. */
  lemma {:induction false} SpacedCount(log: seq<int>, n: nat, window: int, from: int)
    requires Spaced(log, n, window)
    ensures CountIn(log, from, from + window) <= n
    decreases |log|
  {
    if log != [] {
      var last := log[|log| - 1];
      if from <= last < from + window {
        forall k | 0 <= k < |log| - n
          ensures log[k] < from
        {
          assert log[k + n] <= last;
        }
        CountIsShort(log, from, from + window, n);
      } else {
        SpacedCount(log[..|log| - 1], n, window, from);
      }
    }
  }

  /** A table of times against the full log of what was recorded in it, key by key. */
  ghost predicate WindowsOk<K(!new)>(m: map<K, seq<int>>, log: map<K, seq<int>>, n: nat, window: int, now: int) {
    forall k :: Spaced(Times(log, k), n, window) && Tracks(Times(m, k), Times(log, k), window, now)
  }

  lemma WindowsLater<K(!new)>(m: map<K, seq<int>>, log: map<K, seq<int>>, n: nat, window: int, now: int, later: int)
    requires WindowsOk(m, log, n, window, now) && now <= later
    ensures WindowsOk(m, log, n, window, later)
  {
  }

  lemma WindowsTrim<K(!new)>(m: map<K, seq<int>>, log: map<K, seq<int>>, n: nat, window: int, now: int, k: K)
    requires WindowsOk(m, log, n, window, now)
    ensures WindowsOk(m[k := TakeRecent(Times(m, k), now, window)], log, n, window, now)
  {
    TrimTracks(Times(m, k), Times(log, k), window, now, now);
    var m2 := m[k := TakeRecent(Times(m, k), now, window)];
    hide TakeRecent, Spaced, Tracks;
    forall j
      ensures Spaced(Times(log, j), n, window) && Tracks(Times(m2, j), Times(log, j), window, now)
    {
      assert Spaced(Times(log, j), n, window) && Tracks(Times(m, j), Times(log, j), window, now);
    }
  }

  lemma WindowsRecord<K(!new)>(m: map<K, seq<int>>, log: map<K, seq<int>>, n: nat, window: int, now: int, k: K)
    requires WindowsOk(m, log, n, window, now) && |TakeRecent(Times(m, k), now, window)| < n && window > 0
    ensures WindowsOk(m[k := TakeRecent(Times(m, k), now, window) + [now]], log[k := Times(log, k) + [now]], n, window, now)
  {
    TrimTracks(Times(m, k), Times(log, k), window, now, now);
    RecordSpaced(TakeRecent(Times(m, k), now, window), Times(log, k), n, window, now);
    var m2, log2 := m[k := TakeRecent(Times(m, k), now, window) + [now]], log[k := Times(log, k) + [now]];
    hide TakeRecent, Spaced, Tracks;
    forall j
      ensures Spaced(Times(log2, j), n, window) && Tracks(Times(m2, j), Times(log2, j), window, now)
    {
      assert Spaced(Times(log, j), n, window) && Tracks(Times(m, j), Times(log, j), window, now);
    }
  }

  lemma WindowsEvict<K(!new)>(m: map<K, seq<int>>, log: map<K, seq<int>>, n: nat, window: int, now: int)
    requires WindowsOk(m, log, n, window, now)
    ensures WindowsOk(LiveTimes(m, now, window), log, n, window, now)
  {
    var m2 := LiveTimes(m, now, window);
    forall j
      ensures Spaced(Times(log, j), n, window) && Tracks(Times(m2, j), Times(log, j), window, now)
    {
      assert Spaced(Times(log, j), n, window) && Tracks(Times(m, j), Times(log, j), window, now);
      TrimTracks(Times(m, j), Times(log, j), window, now, now);
      assert j !in m2 ==> TakeRecent(Times(m, j), now, window) == [];
      hide TakeRecent, Spaced, Tracks;
    }
  }
}
