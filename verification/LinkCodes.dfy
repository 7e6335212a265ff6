/**
 Link codes, told by what has happened: which code is taken, whom it links, and
 that it was issued by an app of that person less than ten minutes before.
 */
module LinkCodes {
  import opened Common
  import opened People
  import opened PeopleLaws
  import opened TearApart
  import opened Ranks
  import opened Links
  import opened LinkRuns
  import LimitRuns
  import Limits

  // ---- counters, from what has happened ------------------------------------------------------------

  /** How many of the times are in the window up to now. */
  function InLast(times: seq<int>, window: int, now: int): nat {
    LimitRuns.CountIn(times, now - window + 1, now + 1)
  }

  lemma {:induction false} RecentCount(kept: seq<int>, log: seq<int>, n: nat, window: int, now: int)
    requires LimitRuns.Tracks(kept, log, window, now)
    ensures |Limits.TakeRecent(kept, now, window)| == InLast(log, window, now)
    decreases |log|
  {
    if log == [] {
      assert kept == [];
    } else {
      var init, last := log[..|log| - 1], log[|log| - 1];
      if kept == [] {
        RecentCount([], init, n, window, now);
      } else {
        assert kept[|kept| - 1] == last;
        assert kept[..|kept| - 1] == init[|init| - (|kept| - 1)..];
        RecentCount(kept[..|kept| - 1], init, n, window, now);
      }
    }
  }

  lemma LockedIff(w: World, owners: set<Identity>, me: Identity)
    requires Inv(w, owners)
    ensures LockedOut(w, me) <==> InLast(Limits.Times(w.log.wrong, me), Limits.LOCKOUT, w.now) >= 5
  {
    assert GuessesOk(w);
    hide Inv, Limits.TakeRecent, InLast;
    assert LimitRuns.Spaced(Limits.Times(w.log.wrong, me), Limits.GUESSES, Limits.LOCKOUT);
    RecentCount(Limits.Times(w.lim.failures, me), Limits.Times(w.log.wrong, me), 5, Limits.LOCKOUT, w.now);
  }

  lemma IssueIff(w: World, owners: set<Identity>, p: PersonId)
    requires Inv(w, owners)
    ensures Limits.DoIssue(w.lim, p, w.now).1.Allowed? <==> InLast(Limits.Times(w.log.issued, p), Limits.HOUR, w.now) < 3
  {
    assert IssuesOk(w);
    hide Inv, Limits.TakeRecent, InLast;
    assert LimitRuns.Spaced(Limits.Times(w.log.issued, p), Limits.CODES_PER_HOUR, Limits.HOUR);
    RecentCount(Limits.Times(w.lim.issued, p), Limits.Times(w.log.issued, p), 3, Limits.HOUR, w.now);
  }

  // ---- asking for a code -----------------------------------------------------------------------------

  /** A person with fewer than five apps gets a code, if it got fewer than three in the last hour. */
  predicate MayIssue(w: World, me: Identity, h: Hash)
    requires me in w.t.identities
  {
    var p := w.t.identities[me].person;
    |Apps(w.t, p)| < 5 && h !in w.log.codes && InLast(Limits.Times(w.log.issued, p), Limits.HOUR, w.now) < 3
  }

  /** The new code holds for ten minutes; the person's unredeemed ones are gone, all others stay. */
  lemma IssueOutcome(w: World, owners: set<Identity>, me: Identity, h: Hash)
    requires Inv(w, owners) && me in w.t.identities
    ensures var w2, p := Issue(w, me, h), w.t.identities[me].person;
            && w2.t == w.t.(codes := w2.t.codes)
            && (!MayIssue(w, me, h) ==> w2.t == w.t && w2.log == w.log)
            && (MayIssue(w, me, h) ==>
                  && h in w2.t.codes && w2.t.codes[h] == Code(p, me, w.now + 10 * Limits.MINUTE, None)
                  && (forall k :: k != h ==> (k in w2.t.codes <==> k in w.t.codes && !(w.t.codes[k].person == p && w.t.codes[k].redeemedBy.None?)))
                  && (forall k :: k != h && k in w2.t.codes ==> w2.t.codes[k] == w.t.codes[k])
                  && Limits.Times(w2.log.issued, p) == Limits.Times(w.log.issued, p) + [w.now])
  {
    hide Inv, Apps, InLast, Limits.DoIssue, PutCode;
    IssueIff(w, owners, w.t.identities[me].person);
    if MayIssue(w, me, h) {
      PutCodeIs(w.t.codes, h, Code(w.t.identities[me].person, me, w.now + CODE_TTL, None));
    }
  }

  lemma PutCodeIs(codes: map<Hash, Code>, h: Hash, c: Code)
    ensures var put := PutCode(codes, h, c);
            && h in put && put[h] == c
            && (forall k :: k != h ==> (k in put <==> k in codes && !(codes[k].person == c.person && codes[k].redeemedBy.None?)))
            && (forall k :: k != h && k in put ==> put[k] == codes[k])
  {
  }

  // ---- using one ----------------------------------------------------------------------------------------

  /** A code that is known, has not run out, has not been used, and whose issuer is not banned. */
  predicate Usable(w: World, h: Hash) {
    h in w.t.codes && w.now < w.t.codes[h].expiresAt && w.t.codes[h].redeemedBy.None? && w.t.codes[h].issuedBy !in w.banned
  }

  /** me may become an app of the code's person: another one, not ranked below it, with room for an app; and me, no owner, gives up no name unasked. */
  predicate Fitting(w: World, owners: set<Identity>, me: Identity, p: PersonId, confirmed: bool)
    requires me in w.t.identities
  {
    var mine := w.t.identities[me].person;
    && mine != p && me !in owners
    && PersonRank(w.t, owners, mine) <= PersonRank(w.t, owners, p)
    && |Apps(w.t, p)| < 5
    && (confirmed || mine !in w.t.names || !Alone(w.t, me))
  }

  /** me is an app of p now, everyone else where they were. */
  ghost predicate MovedTo(t: Tables, u: Tables, me: Identity, p: PersonId) {
    && u.identities.Keys == t.identities.Keys
    && me in u.identities && u.identities[me].person == p
    && forall i :: i in t.identities && i != me ==> u.identities[i] == t.identities[i]
  }

  lemma HubLinkedMoves(t: Tables, me: Identity, p: PersonId, now: int)
    requires Valid(t) && me in t.identities && p in t.people
    ensures HubLinked(t, me, p, now).Ok? && MovedTo(t, HubLinked(t, me, p, now).value, me, p)
  {
    hide MergedIgnores, MergedWhispers, OthersCodes, Alone, Valid;
    HubLinkNeverBlockedByName(t, me, p, now);
  }

  lemma LinkByMoves(w: World, owners: set<Identity>, me: Identity, p: PersonId, h: Hash)
    requires Inv(w, owners) && me in w.t.identities && p in w.t.people
    ensures LinkBy(w, me, p, h).Some?
    ensures var w2 := LinkBy(w, me, p, h).value; MovedTo(w.t, w2.t, me, p) && h !in w2.t.codes && w2.banned == w.banned
  {
    assert Valid(w.t);
    HubLinkedMoves(w.t, me, p, w.now);
    hide Inv, Valid, HubLinked;
  }

  lemma CodePerson(w: World, owners: set<Identity>, h: Hash)
    requires Inv(w, owners) && h in w.t.codes
    ensures w.t.codes[h].person in w.t.people
    ensures w.t.codes[h].redeemedBy.Some? ==> w.t.codes[h].redeemedBy.value !in owners
  {
  }

  /** Everything a /link CODE can come to. */
  ghost predicate Redeemed(w: World, w2: World, owners: set<Identity>, me: Identity, h: Hash, confirmed: bool)
    requires me in w.t.identities
  {
    if InLast(Limits.Times(w.log.wrong, me), Limits.LOCKOUT, w.now) >= 5 then w2.t == w.t && w2.log == w.log
    else if !Usable(w, h) then w2.t == w.t && w2.log.wrong == w.log.wrong[me := Limits.Times(w.log.wrong, me) + [w.now]]
    else if !Fitting(w, owners, me, w.t.codes[h].person, confirmed) then w2.t == w.t && w2.log == w.log
    else if PersonRank(w.t, owners, w.t.codes[h].person) == MEMBER then
      MovedTo(w.t, w2.t, me, w.t.codes[h].person) && h !in w2.t.codes && w2.log.wrong == w.log.wrong
    else w2.t == w.t.(codes := w.t.codes[h := w.t.codes[h].(redeemedBy := Some(me))]) && w2.log == w.log
  }

  /** A code links, waits for approval, is refused or counted as wrong, exactly as it should, and nothing else happens. */
  lemma RedeemOutcome(w: World, owners: set<Identity>, me: Identity, h: Hash, confirmed: bool)
    requires Inv(w, owners) && me in w.t.identities
    ensures Redeem(w, owners, me, h, confirmed).Some? && Redeem(w, owners, me, h, confirmed).value.banned == w.banned
    ensures Redeemed(w, Redeem(w, owners, me, h, confirmed).value, owners, me, h, confirmed)
  {
    hide Inv, InLast, Apps, PersonRank, Alone, LinkBy, MovedTo, RedeemGood, Fitting, LockedOut, Guessed;
    LockedIff(w, owners, me);
    GuessOutcome(w, me);
    if Usable(w, h) {
      CodePerson(w, owners, h);
      RedeemGoodOutcome(w, owners, me, h, confirmed);
    }
  }

  /** A guess that is looked at is counted if it is wrong; one that is not changes nothing. */
  lemma GuessOutcome(w: World, me: Identity)
    ensures LockedOut(w, me) ==> Guessed(w, me, false).t == w.t && Guessed(w, me, false).log == w.log
    ensures !LockedOut(w, me) ==> Guessed(w, me, true).t == w.t && Guessed(w, me, true).log.wrong == w.log.wrong[me := Limits.Times(w.log.wrong, me) + [w.now]]
    ensures forall wrong :: Guessed(w, me, wrong).banned == w.banned
  {
    hide Limits.TakeRecent;
  }

  lemma RedeemGoodOutcome(w: World, owners: set<Identity>, me: Identity, h: Hash, confirmed: bool)
    requires Inv(w, owners) && me in w.t.identities && h in w.t.codes && w.t.codes[h].redeemedBy.None?
    ensures var r, p := RedeemGood(w, owners, me, h, confirmed), w.t.codes[h].person;
            && r.Some? && r.value.banned == w.banned && r.value.log.wrong == w.log.wrong
            && if !Fitting(w, owners, me, p, confirmed) then r.value.t == w.t && r.value.log == w.log
               else if PersonRank(w.t, owners, p) == MEMBER then MovedTo(w.t, r.value.t, me, p) && h !in r.value.t.codes
               else r.value.t == w.t.(codes := w.t.codes[h := w.t.codes[h].(redeemedBy := Some(me))]) && r.value.log == w.log
  {
    hide Inv, Apps, PersonRank, Alone, LinkBy, MovedTo;
    CodePerson(w, owners, h);
    LinkByMoves(w, owners, me, w.t.codes[h].person, h);
    LinkByLog(w, me, w.t.codes[h].person, h);
  }

  lemma LinkByLog(w: World, me: Identity, p: PersonId, h: Hash)
    ensures LinkBy(w, me, p, h).Some? ==> LinkBy(w, me, p, h).value.log.wrong == w.log.wrong
  {
    hide HubLinked;
  }

  // ---- answering for one ----------------------------------------------------------------------------------

  /** The code is of my person and waits for an answer. */
  predicate Waiting(w: World, me: Identity, h: Hash) {
    && me in w.t.identities && h in w.t.codes && w.t.codes[h].person == w.t.identities[me].person
    && w.t.codes[h].redeemedBy.Some? && w.now < w.t.codes[h].expiresAt
  }

  ghost predicate Answered(w: World, w2: World, me: Identity, h: Hash, approve: bool) {
    if !Waiting(w, me, h) then w2 == w
    else if approve && w.t.codes[h].redeemedBy.value !in w.banned then
      MovedTo(w.t, w2.t, w.t.codes[h].redeemedBy.value, w.t.codes[h].person) && h !in w2.t.codes
    else w2.t == w.t.(codes := w.t.codes - {h})
  }

  /** An approval links whoever redeemed the code, unless banned; a denial, or a banned redeemer, uses it up. */
  lemma DecideOutcome(w: World, owners: set<Identity>, me: Identity, h: Hash, approve: bool)
    requires Inv(w, owners)
    requires Waiting(w, me, h) ==> w.t.codes[h].redeemedBy.value in w.t.identities
    ensures Decide(w, me, h, approve).Some? && Decide(w, me, h, approve).value.banned == w.banned
    ensures Answered(w, Decide(w, me, h, approve).value, me, h, approve)
  {
    if Waiting(w, me, h) {
      CodePerson(w, owners, h);
      LinkByMoves(w, owners, w.t.codes[h].redeemedBy.value, w.t.codes[h].person, h);
    }
    hide Inv, LinkBy, MovedTo;
  }
}
