/**
 What the hub answers in a run, told from the earlier answers alone: when a
 post, a history request, a link code or a guess is refused, and for how long.
 */
module LimitAnswers {
  import opened Common
  import opened Limits
  import opened LimitRuns

  // ---- one answer more ------------------------------------------------------------------------

  /** The tables of a hub that never evicts. */
  function Kept(t: Tables, c: Config, rs: seq<Timed>): Tables
    decreases |rs|
  {
    if rs == [] then t else Kept(Serve(t, c, rs[0], false).0, c, rs[1..])
  }

  lemma {:induction false} AnswersOne(t: Tables, c: Config, rs: seq<Timed>, r: Timed)
    ensures Answers(t, c, rs + [r], false) == Answers(t, c, rs, false) + [Serve(Kept(t, c, rs), c, r, false).1]
    ensures Kept(t, c, rs + [r]) == Serve(Kept(t, c, rs), c, r, false).0
    decreases |rs|
  {
    hide Serve;
    var all := rs + [r];
    if rs == [] {
      assert all[1..] == [];
      var (t2, a) := Serve(t, c, r, false);
      assert Answers(t2, c, [], false) == [] && Kept(t2, c, []) == t2;
      assert [a] + [] == [] + [a];
    } else {
      assert all[1..] == rs[1..] + [r];
      var (t2, a) := Serve(t, c, rs[0], false);
      AnswersOne(t2, c, rs[1..], r);
      var rest, one := Answers(t2, c, rs[1..], false), [Serve(Kept(t, c, rs), c, r, false).1];
      assert [a] + (rest + one) == ([a] + rest) + one;
    }
  }

  lemma {:induction false} AnswersLength(t: Tables, c: Config, rs: seq<Timed>, evicts: bool)
    ensures |Answers(t, c, rs, evicts)| == |rs|
    decreases |rs|
  {
    hide Serve;
    if rs != [] {
      AnswersLength(Serve(t, c, rs[0], evicts).0, c, rs[1..], evicts);
    }
  }

  /** The answers of a run, from the start. */
  function Told(c: Config, rs: seq<Timed>): (ans: seq<Answer>)
    ensures |ans| == |rs|
  {
    AnswersLength(EMPTY, c, rs, true);
    Answers(EMPTY, c, rs, true)
  }

  lemma OrderedPrefix(rs: seq<Timed>, j: nat)
    requires j <= |rs| && (rs == [] || Ordered(rs, rs[0].at))
    ensures rs[..j] == [] || Ordered(rs[..j], rs[..j][0].at)
  {
  }

  /** The last answer is what the tables kept so far give. */
  lemma ToldOne(c: Config, rs: seq<Timed>, r: Timed)
    requires Ordered(rs + [r], (rs + [r])[0].at)
    ensures Told(c, rs + [r]) == Told(c, rs) + [Serve(Kept(EMPTY, c, rs), c, r, false).1]
  {
    NoneAnswered(c);
    hide Serve, Answers;
    assert (rs + [r])[..|rs|] == rs;
    OrderedPrefix(rs + [r], |rs|);
    EvictionUnseen(c, rs + [r], (rs + [r])[0].at);
    if rs != [] {
      EvictionUnseen(c, rs, rs[0].at);
    }
    AnswersOne(EMPTY, c, rs, r);
  }

  lemma NoneAnswered(c: Config)
    ensures Answers(EMPTY, c, [], true) == Answers(EMPTY, c, [], false) == []
  {
  }

  /** The answers to a part of a run are those it had in the run. */
  lemma {:induction false} ToldPrefix(c: Config, rs: seq<Timed>, j: nat)
    requires j <= |rs| && (rs != [] ==> Ordered(rs, rs[0].at))
    ensures Told(c, rs[..j]) == Told(c, rs)[..j]
    decreases |rs|
  {
    hide Told;
    if j == |rs| {
      assert rs[..j] == rs;
    } else {
      var init := rs[..|rs| - 1];
      OrderedPrefix(rs, |rs| - 1);
      assert init + [rs[|rs| - 1]] == rs;
      ToldOne(c, init, rs[|rs| - 1]);
      assert init[..j] == rs[..j];
      ToldPrefix(c, init, j);
    }
  }

  /** A run without its last request. */
  lemma LastStep(c: Config, rs: seq<Timed>)
    requires rs != [] && Ordered(rs, rs[0].at)
    ensures var init, r := rs[..|rs| - 1], rs[|rs| - 1];
            && rs == init + [r]
            && (init != [] ==> Ordered(init, init[0].at) && init[|init| - 1].at <= r.at)
            && Told(c, rs) == Told(c, init) + [Serve(Kept(EMPTY, c, init), c, r, false).1]
            && Kept(EMPTY, c, rs) == Serve(Kept(EMPTY, c, init), c, r, false).0
  {
    hide Told, Kept, Serve;
    var init, r := rs[..|rs| - 1], rs[|rs| - 1];
    assert init + [r] == rs;
    OrderedPrefix(rs, |rs| - 1);
    ToldOne(c, init, r);
    AnswersOne(EMPTY, c, init, r);
  }

  /** Request j of a run, as the last request of the run so far. */
  lemma ToldAt(c: Config, rs: seq<Timed>, j: nat)
    requires j < |rs| && Ordered(rs, rs[0].at)
    ensures Told(c, rs)[j] == Serve(Kept(EMPTY, c, rs[..j]), c, rs[j], false).1
    ensures Told(c, rs[..j]) == Told(c, rs)[..j]
    ensures rs[..j] == [] || Ordered(rs[..j], rs[..j][0].at)
    ensures forall i :: 0 <= i < j ==> rs[i].at <= rs[j].at
  {
    hide Told, Serve;
    OrderedPrefix(rs, j);
    OrderedPrefix(rs, j + 1);
    assert rs[..j] + [rs[j]] == rs[..j + 1];
    ToldOne(c, rs[..j], rs[j]);
    ToldPrefix(c, rs, j);
    ToldPrefix(c, rs, j + 1);
  }

  // ---- history --------------------------------------------------------------------------------

  /** History was granted to id by answer i. */
  predicate Granted(rs: seq<Timed>, ans: seq<Answer>, id: Identity, i: int) {
    0 <= i < |rs| && i < |ans| && rs[i].request == History(id, true) && ans[i].Allowed?
  }

  /** i is the latest grant to id. */
  ghost predicate LatestGrant(rs: seq<Timed>, ans: seq<Answer>, id: Identity, i: int) {
    Granted(rs, ans, id, i) && forall k :: Granted(rs, ans, id, k) ==> k <= i
  }

  /** What the table says of id is the latest grant. */
  ghost predicate HistoryKept(t: Tables, rs: seq<Timed>, ans: seq<Answer>, id: Identity) {
    && (id in t.historyAt ==> exists i :: LatestGrant(rs, ans, id, i) && rs[i].at == t.historyAt[id])
    && (id !in t.historyAt ==> forall i :: !Granted(rs, ans, id, i))
  }

  lemma HistoryServed(t: Tables, c: Config, r: Timed, id: Identity)
    ensures var (t2, a) := Serve(t, c, r, false);
            if r.request == History(id, true) && a.Allowed? then id in t2.historyAt && t2.historyAt[id] == r.at
            else (id in t2.historyAt <==> id in t.historyAt) && (id in t.historyAt ==> t2.historyAt[id] == t.historyAt[id])
  {
    hide DoPost, DoIssue, DoGuess;
    if r.request.Post? || r.request.Issue? || r.request.Guess? {
      OtherTables(t, c, r.request, r.at);
    }
  }

  lemma HistoryMore(t: Tables, t2: Tables, rs: seq<Timed>, ans: seq<Answer>, id: Identity, r: Timed, a: Answer)
    requires |ans| == |rs| && HistoryKept(t, rs, ans, id)
    requires if r.request == History(id, true) && a.Allowed? then id in t2.historyAt && t2.historyAt[id] == r.at
             else (id in t2.historyAt <==> id in t.historyAt) && (id in t.historyAt ==> t2.historyAt[id] == t.historyAt[id])
    ensures HistoryKept(t2, rs + [r], ans + [a], id)
  {
    var rs2, ans2 := rs + [r], ans + [a];
    assert forall i :: i != |rs| ==> Granted(rs2, ans2, id, i) == Granted(rs, ans, id, i);
    if r.request == History(id, true) && a.Allowed? {
      assert LatestGrant(rs2, ans2, id, |rs|);
    } else if id in t.historyAt {
      var i :| LatestGrant(rs, ans, id, i) && rs[i].at == t.historyAt[id];
      assert LatestGrant(rs2, ans2, id, i);
    }
  }

  lemma {:induction false} HistoryInRun(c: Config, rs: seq<Timed>, id: Identity)
    requires rs != [] ==> Ordered(rs, rs[0].at)
    ensures HistoryKept(Kept(EMPTY, c, rs), rs, Told(c, rs), id)
    decreases |rs|
  {
    if rs != [] {
      hide Told, Serve, HistoryKept, Kept, Ordered;
      var init, r := rs[..|rs| - 1], rs[|rs| - 1];
      LastStep(c, rs);
      HistoryInRun(c, init, id);
      HistoryServed(Kept(EMPTY, c, init), c, r, id);
      HistoryMore(Kept(EMPTY, c, init), Kept(EMPTY, c, rs), init, Told(c, init), id, r, Serve(Kept(EMPTY, c, init), c, r, false).1);
    }
  }

  lemma HistoryAnswered(t: Tables, c: Config, id: Identity, granted: bool, at: int)
    ensures Serve(t, c, Timed(History(id, granted), at), false).1 ==
            if id in t.historyAt && at - t.historyAt[id] < c.cooldown then Refused(c.cooldown - (at - t.historyAt[id]))
            else if granted then Allowed else Refused(0)
  {
  }

  /**
   The history cooldown, over every run, clean-ups included: a request is made
   to wait exactly while the latest grant to the same identity is less than the
   cooldown ago, for the rest of it; otherwise it is granted if the room may be
   read.
   */
  lemma HistoryAnswer(c: Config, rs: seq<Timed>, j: nat, id: Identity, granted: bool)
    requires j < |rs| && Ordered(rs, rs[0].at) && rs[j].request == History(id, granted)
    ensures forall i :: LatestGrant(rs[..j], Told(c, rs)[..j], id, i) && rs[j].at - rs[i].at < c.cooldown ==>
              Told(c, rs)[j] == Refused(c.cooldown - (rs[j].at - rs[i].at))
    ensures (forall i :: LatestGrant(rs[..j], Told(c, rs)[..j], id, i) ==> rs[j].at - rs[i].at >= c.cooldown) ==>
              Told(c, rs)[j] == if granted then Allowed else Refused(0)
  {
    var t := Kept(EMPTY, c, rs[..j]);
    ToldAt(c, rs, j);
    HistoryInRun(c, rs[..j], id);
    HistoryAnswered(t, c, id, granted, rs[j].at);
    assert rs[j] == Timed(History(id, granted), rs[j].at);
    hide Told, Serve, Kept;
  }

  /** Two grants to one identity are never closer than the cooldown. */
  lemma GrantsAreSpaced(c: Config, rs: seq<Timed>, i: nat, j: nat, id: Identity)
    requires i < j < |rs| && Ordered(rs, rs[0].at) && Granted(rs, Told(c, rs), id, i) && Granted(rs, Told(c, rs), id, j)
    ensures rs[j].at - rs[i].at >= c.cooldown
  {
    HistoryAnswer(c, rs, j, id, true);
    hide Told;
    var ans := Told(c, rs);
    assert Granted(rs[..j], ans[..j], id, i);
    LatestAfter(rs[..j], ans[..j], id, i);
    var k :| LatestGrant(rs[..j], ans[..j], id, k) && k >= i;
    assert rs[i].at <= rs[k].at;
  }

  lemma {:induction false} LatestAfter(rs: seq<Timed>, ans: seq<Answer>, id: Identity, i: nat)
    requires |ans| == |rs| && Granted(rs, ans, id, i)
    ensures exists k :: LatestGrant(rs, ans, id, k) && k >= i
    decreases |rs| - i
  {
    if k :| k > i && Granted(rs, ans, id, k) {
      LatestAfter(rs, ans, id, k);
    } else {
      assert LatestGrant(rs, ans, id, i);
    }
  }

  // ---- link codes and guesses --------------------------------------------------------------------

  /** The times of the requests r that were allowed. */
  function TimesOf(rs: seq<Timed>, ans: seq<Answer>, r: Request): seq<int>
    requires |ans| == |rs|
  {
    if rs == [] then []
    else TimesOf(rs[..|rs| - 1], ans[..|rs| - 1], r) +
         (if rs[|rs| - 1].request == r && ans[|rs| - 1].Allowed? then [rs[|rs| - 1].at] else [])
  }

  lemma TimesOfMore(rs: seq<Timed>, ans: seq<Answer>, r: Request, x: Timed, a: Answer)
    requires |ans| == |rs|
    ensures TimesOf(rs + [x], ans + [a], r) == TimesOf(rs, ans, r) + (if x.request == r && a.Allowed? then [x.at] else [])
  {
    assert (rs + [x])[..|rs|] == rs && (ans + [a])[..|rs|] == ans;
  }

  /** From now on the table's times for k count as the full list does. */
  ghost predicate CountAlike(kept: seq<int>, all: seq<int>, now: int, window: int) {
    forall later :: now <= later ==> TakeRecent(kept, later, window) == TakeRecent(all, later, window)
  }

  lemma AlikeTrimmed(kept: seq<int>, all: seq<int>, was: int, now: int, window: int, more: seq<int>)
    requires CountAlike(kept, all, was, window) && was <= now && (more == [] || more == [now])
    ensures CountAlike(TakeRecent(kept, now, window) + more, all + more, now, window)
  {
    hide TakeRecent;
    forall later | now <= later
      ensures TakeRecent(TakeRecent(kept, now, window) + more, later, window) == TakeRecent(all + more, later, window)
    {
      TrimmedSame(kept, more, now, later, window);
      if more == [] {
        assert all + more == all;
        assert TakeRecent([], later, window) == [];
        assert TakeRecent(kept, later, window) + [] == TakeRecent(kept, later, window);
      } else {
        RecentAppend(all, now, later, window);
        RecentAppend([], now, later, window);
        assert [] + [now] == [now];
        assert TakeRecent([], later, window) == [];
        assert [] + (if later - now < window then [now] else []) == (if later - now < window then [now] else []);
      }
    }
  }

  lemma AlikeLater(kept: seq<int>, all: seq<int>, now: int, later: int, window: int)
    requires CountAlike(kept, all, now, window) && now <= later
    ensures CountAlike(kept, all, later, window)
  {
  }

  ghost predicate IssuesKept(t: Tables, rs: seq<Timed>, ans: seq<Answer>, p: PersonId, now: int)
    requires |ans| == |rs|
  {
    CountAlike(Times(t.issued, p), TimesOf(rs, ans, Issue(p)), now, HOUR)
  }

  ghost predicate GuessesKept(t: Tables, rs: seq<Timed>, ans: seq<Answer>, id: Identity, now: int)
    requires |ans| == |rs|
  {
    CountAlike(Times(t.failures, id), TimesOf(rs, ans, Guess(id, true)), now, LOCKOUT)
  }

  /** What one request does to a person's code times. */
  lemma IssueServed(t: Tables, c: Config, r: Timed, p: PersonId)
    ensures var (t2, a) := Serve(t, c, r, false);
            Times(t2.issued, p) ==
              if r.request == Issue(p) then TakeRecent(Times(t.issued, p), r.at, HOUR) + (if a.Allowed? then [r.at] else [])
              else Times(t.issued, p)
  {
    hide TakeRecent, DoPost, DoHistory, DoGuess;
    if !r.request.Maintain? && !r.request.Issue? {
      OtherTables(t, c, r.request, r.at);
    }
    assert TakeRecent(Times(t.issued, p), r.at, HOUR) + [] == TakeRecent(Times(t.issued, p), r.at, HOUR);
  }

  /** And to the times of an identity's wrong guesses. */
  lemma GuessServed(t: Tables, c: Config, r: Timed, id: Identity)
    ensures var (t2, a) := Serve(t, c, r, false);
            Times(t2.failures, id) ==
              if r.request == Guess(id, true) || (r.request == Guess(id, false) && a.Refused?)
              then TakeRecent(Times(t.failures, id), r.at, LOCKOUT) + (if a.Allowed? then [r.at] else [])
              else Times(t.failures, id)
  {
    hide TakeRecent, DoPost, DoHistory, DoIssue;
    if !r.request.Maintain? && !r.request.Guess? {
      OtherTables(t, c, r.request, r.at);
    }
    assert TakeRecent(Times(t.failures, id), r.at, LOCKOUT) + [] == TakeRecent(Times(t.failures, id), r.at, LOCKOUT);
  }

  /** The table trimmed or left alone, with or without the request recorded. */
  lemma AlikeMore(kept: seq<int>, all: seq<int>, kept2: seq<int>, more: seq<int>, was: int, now: int, window: int)
    requires CountAlike(kept, all, was, window) && was <= now && (more == [] || more == [now])
    requires kept2 == TakeRecent(kept, now, window) + more || (kept2 == kept && more == [])
    ensures CountAlike(kept2, all + more, now, window)
  {
    hide TakeRecent, CountAlike;
    if kept2 == kept && more == [] {
      assert all + [] == all;
      AlikeLater(kept, all, was, now, window);
    } else {
      AlikeTrimmed(kept, all, was, now, window, more);
    }
  }

  lemma IssuesMore(t: Tables, c: Config, rs: seq<Timed>, ans: seq<Answer>, p: PersonId, was: int, r: Timed)
    requires |ans| == |rs| && IssuesKept(t, rs, ans, p, was) && was <= r.at
    ensures IssuesKept(Serve(t, c, r, false).0, rs + [r], ans + [Serve(t, c, r, false).1], p, r.at)
  {
    hide Serve, TakeRecent, TimesOf, CountAlike;
    var (t2, a) := Serve(t, c, r, false);
    TimesOfMore(rs, ans, Issue(p), r, a);
    IssueServed(t, c, r, p);
    AlikeMore(Times(t.issued, p), TimesOf(rs, ans, Issue(p)), Times(t2.issued, p), if r.request == Issue(p) && a.Allowed? then [r.at] else [], was, r.at, HOUR);
  }

  lemma GuessesMore(t: Tables, c: Config, rs: seq<Timed>, ans: seq<Answer>, id: Identity, was: int, r: Timed)
    requires |ans| == |rs| && GuessesKept(t, rs, ans, id, was) && was <= r.at
    ensures GuessesKept(Serve(t, c, r, false).0, rs + [r], ans + [Serve(t, c, r, false).1], id, r.at)
  {
    hide Serve, TakeRecent, TimesOf, CountAlike;
    var (t2, a) := Serve(t, c, r, false);
    TimesOfMore(rs, ans, Guess(id, true), r, a);
    GuessServed(t, c, r, id);
    AlikeMore(Times(t.failures, id), TimesOf(rs, ans, Guess(id, true)), Times(t2.failures, id),
              if r.request == Guess(id, true) && a.Allowed? then [r.at] else [], was, r.at, LOCKOUT);
  }

  lemma {:induction false} WindowsInRun(c: Config, rs: seq<Timed>, p: PersonId, id: Identity, now: int)
    requires rs != [] ==> Ordered(rs, rs[0].at) && rs[|rs| - 1].at <= now
    ensures IssuesKept(Kept(EMPTY, c, rs), rs, Told(c, rs), p, now)
    ensures GuessesKept(Kept(EMPTY, c, rs), rs, Told(c, rs), id, now)
    decreases |rs|
  {
    if rs == [] {
      NothingKept(c, rs, p, id, now);
    } else {
      hide Told, Serve, IssuesKept, GuessesKept, Kept, Ordered;
      var init, r := rs[..|rs| - 1], rs[|rs| - 1];
      LastStep(c, rs);
      WindowsInRun(c, init, p, id, r.at);
      IssuesMore(Kept(EMPTY, c, init), c, init, Told(c, init), p, r.at, r);
      GuessesMore(Kept(EMPTY, c, init), c, init, Told(c, init), id, r.at, r);
      KeptLater(Kept(EMPTY, c, rs), rs, Told(c, rs), p, id, r.at, now);
    }
  }

  lemma KeptLater(t: Tables, rs: seq<Timed>, ans: seq<Answer>, p: PersonId, id: Identity, now: int, later: int)
    requires |ans| == |rs| && now <= later && IssuesKept(t, rs, ans, p, now) && GuessesKept(t, rs, ans, id, now)
    ensures IssuesKept(t, rs, ans, p, later) && GuessesKept(t, rs, ans, id, later)
  {
    hide TakeRecent;
  }

  lemma NothingKept(c: Config, rs: seq<Timed>, p: PersonId, id: Identity, now: int)
    requires rs == []
    ensures IssuesKept(Kept(EMPTY, c, rs), rs, Told(c, rs), p, now) && GuessesKept(Kept(EMPTY, c, rs), rs, Told(c, rs), id, now)
  {
  }

  lemma {:induction false} RecentIsCount(times: seq<int>, now: int, window: int)
    requires forall i :: 0 <= i < |times| ==> times[i] <= now
    ensures |TakeRecent(times, now, window)| == CountIn(times, now - window + 1, now + 1)
  {
    if times != [] {
      RecentIsCount(times[..|times| - 1], now, window);
    }
  }

  lemma {:induction false} TimesOfBefore(rs: seq<Timed>, ans: seq<Answer>, r: Request, now: int)
    requires |ans| == |rs| && forall i :: 0 <= i < |rs| ==> rs[i].at <= now
    ensures forall i :: 0 <= i < |TimesOf(rs, ans, r)| ==> TimesOf(rs, ans, r)[i] <= now
  {
    if rs != [] {
      TimesOfBefore(rs[..|rs| - 1], ans[..|rs| - 1], r, now);
    }
  }

  /** How many requests r were allowed in the window up to now. */
  function AllowedIn(rs: seq<Timed>, ans: seq<Answer>, r: Request, now: int, window: int): nat
    requires |ans| == |rs|
  {
    CountIn(TimesOf(rs, ans, r), now - window + 1, now + 1)
  }

  /** In every run a link code is given out if and only if fewer than three went to the person in the hour before. */
  lemma IssueAnswer(c: Config, rs: seq<Timed>, j: nat, p: PersonId)
    requires j < |rs| && Ordered(rs, rs[0].at) && rs[j].request == Issue(p)
    ensures Told(c, rs)[j].Allowed? <==> AllowedIn(rs[..j], Told(c, rs)[..j], Issue(p), rs[j].at, HOUR) < 3
  {
    ToldAt(c, rs, j);
    var before, now := rs[..j], rs[j].at;
    assert before != [] ==> before[|before| - 1].at <= now;
    WindowsInRun(c, before, p, Identity(0), now);
    TimesOfBefore(before, Told(c, before), Issue(p), now);
    hide Told, Kept, TakeRecent, TimesOf;
    RecentIsCount(TimesOf(before, Told(c, before), Issue(p)), now, HOUR);
    assert rs[j] == Timed(Issue(p), now);
  }

  /** And a guess is looked at if and only if fewer than five wrong ones of the identity were in the ten minutes before. */
  lemma GuessAnswer(c: Config, rs: seq<Timed>, j: nat, id: Identity, wrong: bool)
    requires j < |rs| && Ordered(rs, rs[0].at) && rs[j].request == Guess(id, wrong)
    ensures Told(c, rs)[j].Allowed? <==> AllowedIn(rs[..j], Told(c, rs)[..j], Guess(id, true), rs[j].at, LOCKOUT) < 5
  {
    ToldAt(c, rs, j);
    var before, now := rs[..j], rs[j].at;
    assert before != [] ==> before[|before| - 1].at <= now;
    WindowsInRun(c, before, PersonId(0), id, now);
    TimesOfBefore(before, Told(c, before), Guess(id, true), now);
    hide Told, Kept, TakeRecent, TimesOf;
    RecentIsCount(TimesOf(before, Told(c, before), Guess(id, true)), now, LOCKOUT);
    assert rs[j] == Timed(Guess(id, wrong), now);
  }

  // ---- posts ----------------------------------------------------------------------------------------

  /** Posts of id let in by the run from request s on. */
  function PostsFrom(rs: seq<Timed>, ans: seq<Answer>, id: Identity, s: nat): nat
    requires |ans| == |rs|
  {
    if |rs| <= s then 0
    else PostsFrom(rs[..|rs| - 1], ans[..|rs| - 1], id, s) + (if rs[|rs| - 1].request == Post(id) && ans[|rs| - 1].Allowed? then 1 else 0)
  }

  lemma PostsFromMore(rs: seq<Timed>, ans: seq<Answer>, id: Identity, s: nat, r: Timed, a: Answer)
    requires |ans| == |rs|
    ensures PostsFrom(rs + [r], ans + [a], id, s) ==
            if s > |rs| then 0 else PostsFrom(rs, ans, id, s) + (if r.request == Post(id) && a.Allowed? then 1 else 0)
    ensures PostsFrom(rs, ans, id, |rs|) == 0
  {
    assert (rs + [r])[..|rs|] == rs && (ans + [a])[..|rs|] == ans;
  }

  /** x more would not be too many for the stretch of the run from its request s up to now. */
  predicate Fits(c: Config, rs: seq<Timed>, ans: seq<Answer>, id: Identity, x: real, now: int, s: nat)
    requires |ans| == |rs| && s < |rs|
  {
    x + PostsFrom(rs, ans, id, s) as real <= c.postsPerMinute as real + Gain(c.postsPerMinute, now - rs[s].at)
  }

  /** x more would not be too many, for any stretch that begins with a post of id. */
  ghost predicate Roomy(c: Config, rs: seq<Timed>, ans: seq<Answer>, id: Identity, x: real, now: int)
    requires |ans| == |rs|
  {
    x <= c.postsPerMinute as real && forall s: nat :: s < |rs| && rs[s].request == Post(id) ==> Fits(c, rs, ans, id, x, now, s)
  }

  /** The tokens available are the most the run leaves room for. */
  ghost predicate TokensAreRoom(t: Tables, c: Config, rs: seq<Timed>, ans: seq<Answer>, id: Identity, was: int)
    requires |ans| == |rs|
  {
    forall x: real, now: int :: was <= now ==> (x <= Avail(t, c, id, now) <==> Roomy(c, rs, ans, id, x, now))
  }

  /** A request that is no post of id leaves its room as it is. */
  lemma RoomSame(c: Config, rs: seq<Timed>, ans: seq<Answer>, id: Identity, x: real, now: int, r: Timed, a: Answer)
    requires |ans| == |rs| && r.request != Post(id)
    ensures Roomy(c, rs + [r], ans + [a], id, x, now) <==> Roomy(c, rs, ans, id, x, now)
  {
    hide Gain, PostsFrom;
    var rs2, ans2 := rs + [r], ans + [a];
    forall s: nat | s < |rs|
      ensures Fits(c, rs2, ans2, id, x, now, s) == Fits(c, rs, ans, id, x, now, s)
      ensures rs2[s] == rs[s]
    {
      PostsFromMore(rs, ans, id, s, r, a);
    }
    hide Fits;
    assert rs2[|rs|] == r;
    if Roomy(c, rs2, ans2, id, x, now) {
      forall s: nat | s < |rs| && rs[s].request == Post(id)
        ensures Fits(c, rs, ans, id, x, now, s)
      {
        assert Fits(c, rs2, ans2, id, x, now, s);
      }
    }
  }

  /** Room after a post is room before it for one more, and for what time adds back. */
  lemma RoomPosted(c: Config, rs: seq<Timed>, ans: seq<Answer>, id: Identity, x: real, now: int, r: Timed, a: Answer)
    requires |ans| == |rs| && r.request == Post(id)
    ensures var spent := if a.Allowed? then 1.0 else 0.0;
            Roomy(c, rs + [r], ans + [a], id, x, now) <==>
              x <= c.postsPerMinute as real && Roomy(c, rs, ans, id, x + spent - Gain(c.postsPerMinute, now - r.at), r.at)
  {
    var spent := if a.Allowed? then 1.0 else 0.0;
    var y := x + spent - Gain(c.postsPerMinute, now - r.at);
    var rs2, ans2 := rs + [r], ans + [a];
    assert rs2[|rs|] == r;
    forall s: nat | s < |rs|
      ensures Fits(c, rs2, ans2, id, x, now, s) == Fits(c, rs, ans, id, y, r.at, s)
      ensures rs2[s] == rs[s]
    {
      PostsFromMore(rs, ans, id, s, r, a);
      GainAdds(c.postsPerMinute, now - r.at, r.at - rs[s].at);
      hide Gain, PostsFrom;
    }
    PostsFromMore(rs, ans, id, |rs|, r, a);
    assert Fits(c, rs2, ans2, id, x, now, |rs|) <==> y <= c.postsPerMinute as real by { hide Gain, PostsFrom; }
    hide Fits, Gain;
    if Roomy(c, rs2, ans2, id, x, now) {
      assert Fits(c, rs2, ans2, id, x, now, |rs|);
      forall s: nat | s < |rs| && rs[s].request == Post(id)
        ensures Fits(c, rs, ans, id, y, r.at, s)
      {
        assert Fits(c, rs2, ans2, id, x, now, s);
      }
    }
  }

  lemma PostServed(t: Tables, c: Config, r: Timed, id: Identity, now: int)
    requires BucketsOk(t, c, r.at) && r.at <= now && r.request == Post(id)
    ensures var (t2, a) := Serve(t, c, r, false);
            var spent := if a.Allowed? then 1.0 else 0.0;
            Avail(t2, c, id, now) == Lesser(c.postsPerMinute as real, Avail(t, c, id, r.at) - spent + Gain(c.postsPerMinute, now - r.at))
  {
    PostSpends(t, c, id, r.at);
    hide Gain, DoPost, BucketsOk;
    assert Avail(t, c, id, r.at) == Avail(t, c, id, r.at);
  }

  lemma OthersServed(t: Tables, c: Config, r: Timed, id: Identity, now: int)
    requires r.request != Post(id)
    ensures Avail(Serve(t, c, r, false).0, c, id, now) == Avail(t, c, id, now)
  {
    if !r.request.Maintain? && !r.request.Post? {
      OtherTables(t, c, r.request, r.at);
    }
    hide Refill, Spend, DoHistory, DoIssue, DoGuess;
  }

  lemma RoomServed(t: Tables, c: Config, rs: seq<Timed>, ans: seq<Answer>, id: Identity, was: int, r: Timed)
    requires |ans| == |rs| && TokensAreRoom(t, c, rs, ans, id, was) && was <= r.at && BucketsOk(t, c, r.at)
    ensures TokensAreRoom(Serve(t, c, r, false).0, c, rs + [r], ans + [Serve(t, c, r, false).1], id, r.at)
  {
    hide Serve, Avail, Roomy, Gain, BucketsOk;
    var (t2, a) := Serve(t, c, r, false);
    forall x: real, now: int | r.at <= now
      ensures x <= Avail(t2, c, id, now) <==> Roomy(c, rs + [r], ans + [a], id, x, now)
    {
      if r.request == Post(id) {
        var y := x + (if a.Allowed? then 1.0 else 0.0) - Gain(c.postsPerMinute, now - r.at);
        PostServed(t, c, r, id, now);
        RoomPosted(c, rs, ans, id, x, now, r, a);
        assert y <= Avail(t, c, id, r.at) <==> Roomy(c, rs, ans, id, y, r.at);
      } else {
        OthersServed(t, c, r, id, now);
        RoomSame(c, rs, ans, id, x, now, r, a);
        assert x <= Avail(t, c, id, now) <==> Roomy(c, rs, ans, id, x, now);
      }
    }
  }

  lemma NothingPosted(c: Config, rs: seq<Timed>, id: Identity, was: int)
    requires rs == []
    ensures TokensAreRoom(Kept(EMPTY, c, rs), c, rs, Told(c, rs), id, was) && BucketsOk(Kept(EMPTY, c, rs), c, was)
  {
  }

  lemma {:induction false} RoomInRun(c: Config, rs: seq<Timed>, id: Identity, now: int)
    requires rs != [] ==> Ordered(rs, rs[0].at) && rs[|rs| - 1].at <= now
    ensures TokensAreRoom(Kept(EMPTY, c, rs), c, rs, Told(c, rs), id, now)
    ensures BucketsOk(Kept(EMPTY, c, rs), c, now)
    decreases |rs|
  {
    if rs == [] {
      NothingPosted(c, rs, id, now);
    } else {
      hide Told, Serve, TokensAreRoom, BucketsOk, Kept, Ordered;
      var init, r := rs[..|rs| - 1], rs[|rs| - 1];
      LastStep(c, rs);
      RoomInRun(c, init, id, r.at);
      RoomServed(Kept(EMPTY, c, init), c, init, Told(c, init), id, r.at, r);
      ServedBuckets(Kept(EMPTY, c, init), c, r);
      RoomLater(Kept(EMPTY, c, rs), c, rs, Told(c, rs), id, r.at, now);
    }
  }

  lemma ServedBuckets(t: Tables, c: Config, r: Timed)
    requires BucketsOk(t, c, r.at)
    ensures BucketsOk(Serve(t, c, r, false).0, c, r.at)
  {
    HandleBuckets(t, c, r.request, r.at);
    hide Handle, BucketsOk;
  }

  lemma RoomLater(t: Tables, c: Config, rs: seq<Timed>, ans: seq<Answer>, id: Identity, now: int, later: int)
    requires |ans| == |rs| && now <= later && TokensAreRoom(t, c, rs, ans, id, now) && BucketsOk(t, c, now)
    ensures TokensAreRoom(t, c, rs, ans, id, later) && BucketsOk(t, c, later)
  {
    BucketsLater(t, c, now, later);
    hide Avail, Roomy, BucketsOk;
  }

  lemma PostAnswered(t: Tables, c: Config, id: Identity, at: int)
    requires BucketsOk(t, c, at)
    ensures Serve(t, c, Timed(Post(id), at), false).1.Allowed? <==> 1.0 <= Avail(t, c, id, at)
  {
    PostSpends(t, c, id, at);
    hide DoPost, Avail, BucketsOk;
  }

  /**
   In every run a post is let in if and only if it is not one too many for any
   stretch of the run: from no earlier post of the same identity on would there
   be more than the rate and what the time since adds.
   */
  lemma PostAnswer(c: Config, rs: seq<Timed>, j: nat, id: Identity)
    requires j < |rs| && Ordered(rs, rs[0].at) && rs[j].request == Post(id)
    ensures Told(c, rs)[j].Allowed? <==>
            && c.postsPerMinute >= 1
            && forall s: nat :: s < j && rs[s].request == Post(id) ==>
                 PostsFrom(rs[..j], Told(c, rs)[..j], id, s) as real + 1.0 <= c.postsPerMinute as real + Gain(c.postsPerMinute, rs[j].at - rs[s].at)
  {
    ToldAt(c, rs, j);
    var before, now := rs[..j], rs[j].at;
    assert before != [] ==> before[|before| - 1].at <= now;
    RoomInRun(c, before, id, now);
    hide Told, Kept, Serve, Avail, Gain, PostsFrom, BucketsOk;
    PostAnswered(Kept(EMPTY, c, before), c, id, now);
    assert rs[j] == Timed(Post(id), now);
    assert 1.0 <= Avail(Kept(EMPTY, c, before), c, id, now) <==> Roomy(c, before, Told(c, before), id, 1.0, now);
    forall s: nat | s < j
      ensures before[s] == rs[s]
    {
    }
    if Roomy(c, before, Told(c, before), id, 1.0, now) {
      forall s: nat | s < j && rs[s].request == Post(id)
        ensures PostsFrom(before, Told(c, before), id, s) as real + 1.0 <= c.postsPerMinute as real + Gain(c.postsPerMinute, now - rs[s].at)
      {
        assert Fits(c, before, Told(c, before), id, 1.0, now, s);
      }
    }
  }

  // ---- the clean-up ---------------------------------------------------------------------------------

  lemma {:induction false} RecentMembers(times: seq<int>, now: int, window: int)
    ensures forall x :: x in TakeRecent(times, now, window) <==> x in times && now - x < window
  {
    if times != [] {
      RecentMembers(times[..|times| - 1], now, window);
      assert times == times[..|times| - 1] + [times[|times| - 1]];
    }
  }

  /** What is left of a table of times: the entries with a time still in the window, unchanged. */
  lemma LiveIff<K(!new)>(m: map<K, seq<int>>, now: int, window: int, k: K)
    ensures k in LiveTimes(m, now, window) <==> k in m && exists x :: x in m[k] && now - x < window
    ensures k in LiveTimes(m, now, window) ==> LiveTimes(m, now, window)[k] == m[k]
  {
    if k in m {
      RecentMembers(m[k], now, window);
      hide TakeRecent;
      if TakeRecent(m[k], now, window) != [] {
        var x := TakeRecent(m[k], now, window)[0];
        assert x in TakeRecent(m[k], now, window);
        assert x in m[k] && now - x < window;
      }
    }
  }

  /** After a clean-up exactly what can still matter is there: buckets not yet full again, cooldowns not over, times in their windows. */
  lemma MaintainDrops(t: Tables, c: Config, now: int, id: Identity, p: PersonId)
    ensures var u := Handle(t, c, Maintain, now).0;
            && (id in u.rate <==> id in t.rate && t.rate[id].at >= now - MINUTE)
            && (id in u.historyAt <==> id in t.historyAt && t.historyAt[id] >= now - c.cooldown)
            && (p in u.issued <==> p in t.issued && exists x :: x in t.issued[p] && now - x < HOUR)
            && (id in u.failures <==> id in t.failures && exists x :: x in t.failures[id] && now - x < LOCKOUT)
            && (id in u.rate ==> u.rate[id] == t.rate[id]) && (id in u.historyAt ==> u.historyAt[id] == t.historyAt[id])
            && (p in u.issued ==> u.issued[p] == t.issued[p]) && (id in u.failures ==> u.failures[id] == t.failures[id])
  {
    LiveIff(t.issued, now, HOUR, p);
    LiveIff(t.failures, now, LOCKOUT, id);
    hide LiveTimes;
  }
}
