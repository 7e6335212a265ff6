/** Where a code that links an app comes from, over every run of the commands. */
module CodeOrigins {
  import opened Common
  import opened People
  import opened PeopleLaws
  import opened TearApart
  import opened Ranks
  import opened Links
  import opened LinkRuns
  import opened LinkCodes
  import Limits
  import Names

  /** The step gets to run its command. */
  predicate Runs(w: World, s: Step) {
    s.Do? && s.me !in w.banned && s.row !in w.t.people
  }

  /** The state the command runs in: the time, and its caller on record. */
  function Entering(w: World, s: Step): World
    requires Runs(w, s)
  {
    Touch(Clock(w, s.at), s.me, s.row)
  }

  // ---- what a step does to the codes -----------------------------------------------------------------

  predicate FreshCode(w2: World, s: Step, h: Hash)
    requires h in w2.t.codes
  {
    && s.Do? && s.cmd == AskCode(h) && s.me in w2.t.identities
    && w2.t.codes[h] == Code(w2.t.identities[s.me].person, s.me, w2.now + CODE_TTL, None)
  }

  predicate NowRedeemed(w: World, w2: World, s: Step, h: Hash)
    requires h in w2.t.codes
  {
    && s.Do? && s.cmd.UseLinkCode? && s.cmd.h == h && s.me in w2.t.identities
    && h in w.t.codes && w2.now < w.t.codes[h].expiresAt
    && w2.t.codes[h] == w.t.codes[h].(redeemedBy := Some(s.me))
  }

  /** Every code after the step was there before, was issued by it or was redeemed by it; and identities stay on record. */
  ghost predicate CodesStep(w: World, w2: World, s: Step) {
    && w.now <= w2.now && w.t.identities.Keys <= w2.t.identities.Keys
    && forall h :: h in w2.t.codes ==>
         (h in w.t.codes && w2.t.codes[h] == w.t.codes[h]) || FreshCode(w2, s, h) || NowRedeemed(w, w2, s, h)
  }

  lemma QuietCodes(w: World, w2: World, s: Step)
    requires w.now <= w2.now && w.t.identities.Keys <= w2.t.identities.Keys && Fewer(w.t.codes, w2.t.codes)
    ensures CodesStep(w, w2, s)
  {
  }

  /** The tables' identities are never forgotten. */
  lemma {:induction false} UnlinkEachKeys(t: Tables, others: seq<Identity>, rows: seq<PersonId>, now: int)
    requires |rows| == |others|
    ensures UnlinkEach(t, others, rows, now).identities.Keys == t.identities.Keys
    decreases |others|
  {
    if others != [] && rows[0] !in t.people {
      var u := Unlinked(t, others[0], rows[0], now);
      if u.Ok? {
        UnlinkEachKeys(u.value, others[1..], rows[1..], now);
        hide Alone;
      }
    }
  }

  lemma TornCodes(t: Tables, id: Identity, others: seq<Identity>, rows: seq<PersonId>, now: int)
    requires |rows| == |others|
    ensures var u := TornApart(t, id, others, rows, now); u.codes == t.codes && u.identities.Keys == t.identities.Keys
  {
    hide UnlinkEach;
    UnlinkEachSame(t, others, rows, now);
    UnlinkEachKeys(t, others, rows, now);
  }

  /** Commands that neither give out nor take codes. */
  predicate NoCode(cmd: Cmd) {
    !cmd.AskCode? && !cmd.UseLinkCode? && !cmd.Answer?
  }

  lemma MovesSame(w: World, owners: set<Identity>, me: Identity, cmd: Cmd)
    requires (cmd.UnlinkApp? || cmd.SetRankOf? || cmd.PutOut? || cmd.ForgetMe?) && Exec(w, owners, me, cmd).Some?
    ensures var w2 := Exec(w, owners, me, cmd).value; w2.now == w.now && w2.t.codes == w.t.codes && w2.t.identities.Keys == w.t.identities.Keys
  {
    hide May, WhoIs, Listed, Alone, UnlinkEach, TornApart;
    match cmd
    case UnlinkApp(target, row) =>
    case SetRankOf(target, rank) =>
    case PutOut(target, others, rows, ban) =>
      if Listed(w.t, target, others, rows) {
        assert |rows| == |others| by { ListedFits(w.t, target, others, rows); }
        TornCodes(w.t, target, others, rows, w.now);
      }
    case ForgetMe(others, rows) =>
      if Listed(w.t, me, others, rows) {
        assert |rows| == |others| by { ListedFits(w.t, me, others, rows); }
        UnlinkEachSame(w.t, others, rows, w.now);
        UnlinkEachKeys(w.t, others, rows, w.now);
      }
  }

  lemma ListedFits(t: Tables, id: Identity, others: seq<Identity>, rows: seq<PersonId>)
    requires Listed(t, id, others, rows)
    ensures |rows| == |others| && OtherApps(t, id, others) && Fresh(t, rows)
  {
  }

  lemma WordsSame(w: World, owners: set<Identity>, me: Identity, cmd: Cmd)
    requires NoCode(cmd) && !(cmd.UnlinkApp? || cmd.SetRankOf? || cmd.PutOut? || cmd.ForgetMe?) && Exec(w, owners, me, cmd).Some?
    ensures var w2 := Exec(w, owners, me, cmd).value; w2.now == w.now && w2.t.codes == w.t.codes && w2.t.identities == w.t.identities
  {
    hide May, WhoIs, IdentityRank, Names.CheckName, TakenByOther, Listed;
  }

  lemma IssueCodes(w: World, owners: set<Identity>, me: Identity, h: Hash, s: Step)
    requires Inv(w, owners) && me in w.t.identities && s.Do? && s.me == me && s.cmd == AskCode(h)
    ensures CodesStep(w, Issue(w, me, h), s)
  {
    IssueOutcome(w, owners, me, h);
    IssueNow(w, me, h);
    hide Inv, Issue, MayIssue;
  }

  lemma IssueNow(w: World, me: Identity, h: Hash)
    ensures Issue(w, me, h).now == w.now
  {
    hide Limits.DoIssue, PutCode, Apps;
  }

  lemma RedeemCodes(w: World, owners: set<Identity>, me: Identity, h: Hash, confirmed: bool, s: Step)
    requires Inv(w, owners) && me in w.t.identities && s.Do? && s.me == me && s.cmd == UseLinkCode(h, confirmed)
    requires Redeem(w, owners, me, h, confirmed).Some?
    ensures CodesStep(w, Redeem(w, owners, me, h, confirmed).value, s)
  {
    hide Inv, Redeem, InLast, Alone, Apps, PersonRank;
    var w2 := Redeem(w, owners, me, h, confirmed).value;
    RedeemOutcome(w, owners, me, h, confirmed);
    RedeemNow(w, owners, me, h, confirmed);
  }

  lemma RedeemNow(w: World, owners: set<Identity>, me: Identity, h: Hash, confirmed: bool)
    requires Inv(w, owners) && Redeem(w, owners, me, h, confirmed).Some?
    ensures var w2 := Redeem(w, owners, me, h, confirmed).value;
            w2.now == w.now && (w2.t.identities != w.t.identities ==> Fewer(w.t.codes, w2.t.codes))
  {
    hide Inv, LinkBy, LockedOut, Refused, PersonRank, Limits.DoGuess, Fewer;
    if h in w.t.codes && LinkBy(w, me, w.t.codes[h].person, h).Some? {
      LinkByCodes(w, owners, me, w.t.codes[h].person, h);
    }
  }

  lemma LinkByCodes(w: World, owners: set<Identity>, me: Identity, p: PersonId, h: Hash)
    requires Inv(w, owners) && LinkBy(w, me, p, h).Some?
    ensures LinkBy(w, me, p, h).value.now == w.now && Fewer(w.t.codes, LinkBy(w, me, p, h).value.t.codes)
    ensures LinkBy(w, me, p, h).value.t.identities.Keys == w.t.identities.Keys
  {
    hide Inv, Valid, HubLinked;
    InvValid(w, owners);
    HubLinkedQuiet(w.t, me, p, w.now);
    HubLinkedKeys(w.t, me, p, w.now);
  }

  lemma InvValid(w: World, owners: set<Identity>)
    requires Inv(w, owners)
    ensures Valid(w.t)
  {
  }

  lemma HubLinkedKeys(t: Tables, id: Identity, to: PersonId, now: int)
    requires HubLinked(t, id, to, now).Ok?
    ensures HubLinked(t, id, to, now).value.identities.Keys == t.identities.Keys
  {
    hide Linked, Alone;
    LinkedKeys(t, id, to, now);
    LinkedKeys(Released(t, id), id, to, now);
  }

  lemma LinkedKeys(t: Tables, id: Identity, to: PersonId, now: int)
    ensures Linked(t, id, to, now).Ok? ==> Linked(t, id, to, now).value.identities.Keys == t.identities.Keys
  {
    hide MergedIgnores, MergedWhispers, OthersCodes, Alone;
  }

  lemma DecideCodes(w: World, owners: set<Identity>, me: Identity, h: Hash, approve: bool, s: Step)
    requires Inv(w, owners) && Decide(w, me, h, approve).Some?
    ensures CodesStep(w, Decide(w, me, h, approve).value, s)
  {
    hide Inv, LinkBy, CodesStep, Fewer;
    if h in w.t.codes && w.t.codes[h].redeemedBy.Some? && LinkBy(w, w.t.codes[h].redeemedBy.value, w.t.codes[h].person, h).Some? {
      LinkByCodes(w, owners, w.t.codes[h].redeemedBy.value, w.t.codes[h].person, h);
    }
    LessCodes(w, h);
    QuietCodes(w, Decide(w, me, h, approve).value, s);
  }

  lemma LessCodes(w: World, h: Hash)
    ensures Fewer(w.t.codes, w.t.codes) && Fewer(w.t.codes, UseCode(w, h).t.codes)
  {
  }

  lemma ExecCodes(w: World, owners: set<Identity>, s: Step)
    requires Inv(w, owners) && s.Do? && s.me in w.t.identities && Exec(w, owners, s.me, s.cmd).Some?
    ensures CodesStep(w, Exec(w, owners, s.me, s.cmd).value, s)
  {
    if NoCode(s.cmd) {
      if s.cmd.UnlinkApp? || s.cmd.SetRankOf? || s.cmd.PutOut? || s.cmd.ForgetMe? {
        MovesSame(w, owners, s.me, s.cmd);
      } else {
        WordsSame(w, owners, s.me, s.cmd);
      }
      hide Exec, Inv;
      QuietCodes(w, Exec(w, owners, s.me, s.cmd).value, s);
    } else {
      hide Inv, Issue, Redeem, Decide, CodesStep;
      match s.cmd
      case AskCode(h) => IssueCodes(w, owners, s.me, h, s);
      case UseLinkCode(h, confirmed) => RedeemCodes(w, owners, s.me, h, confirmed, s);
      case Answer(h, approve) => DecideCodes(w, owners, s.me, h, approve, s);
    }
  }

  /** Entering the step adds at most the caller, and no code. */
  lemma EnteringSame(w: World, owners: set<Identity>, s: Step)
    requires Inv(w, owners) && Runs(w, s)
    ensures var e := Entering(w, s);
            && Inv(e, owners) && s.me in e.t.identities && e.t.codes == w.t.codes && w.t.identities.Keys <= e.t.identities.Keys
            && e.banned == w.banned && e.log == w.log && e.now >= w.now && e.t.names == w.t.names
            && (forall i :: i in w.t.identities ==> e.t.identities[i] == w.t.identities[i])
  {
    hide Inv;
    ClockKeeps(w, owners, s.at);
    TouchKeeps(Clock(w, s.at), owners, s.me, s.row);
  }

  lemma NextCodes(w: World, owners: set<Identity>, s: Step)
    requires Inv(w, owners)
    ensures CodesStep(w, Next(w, owners, s), s)
  {
    if s.CleanUp? {
      hide Inv, Limits.Evicted;
      QuietCodes(w, Next(w, owners, s), s);
    } else if Runs(w, s) {
      EnteringSame(w, owners, s);
      var e := Entering(w, s);
      hide Inv, Exec, Entering;
      assert Next(w, owners, s) == if Exec(e, owners, s.me, s.cmd).Some? then Exec(e, owners, s.me, s.cmd).value else Clock(w, s.at) by { NextRuns(w, owners, s); }
      hide Next;
      if Exec(e, owners, s.me, s.cmd).Some? {
        ExecCodes(e, owners, s);
      } else {
        QuietCodes(w, Clock(w, s.at), s);
      }
    } else {
      hide Inv, Exec;
      QuietCodes(w, Clock(w, s.at), s);
    }
  }

  lemma NextRuns(w: World, owners: set<Identity>, s: Step)
    requires Runs(w, s)
    ensures var r := Exec(Entering(w, s), owners, s.me, s.cmd);
            Next(w, owners, s) == if r.Some? then r.value else Clock(w, s.at)
  {
    hide Exec;
  }

  // ---- over a run -----------------------------------------------------------------------------------------

  /** Step j of the run issued h, by an app of p, to hold until `expires`. */
  ghost predicate IssuedAt(owners: set<Identity>, ss: seq<Step>, h: Hash, c: Code, j: nat) {
    && j < |ss| && ss[j].Do? && ss[j].cmd == AskCode(h) && ss[j].me == c.issuedBy
    && var w := Run(owners, ss[..j + 1]);
       && c.issuedBy in w.t.identities && w.t.identities[c.issuedBy].person == c.person
       && c.expiresAt == w.now + CODE_TTL
  }

  /** Step j of the run redeemed h, in time, for id. */
  ghost predicate RedeemedAt(owners: set<Identity>, ss: seq<Step>, h: Hash, c: Code, id: Identity, j: nat) {
    && j < |ss| && ss[j].Do? && ss[j].cmd.UseLinkCode? && ss[j].cmd.h == h && ss[j].me == id
    && Run(owners, ss[..j + 1]).now < c.expiresAt
  }

  ghost predicate CodeKnown(owners: set<Identity>, ss: seq<Step>, w: World, h: Hash)
    requires h in w.t.codes
  {
    var c := w.t.codes[h];
    && (exists j: nat :: IssuedAt(owners, ss, h, c, j))
    && (c.redeemedBy.Some? ==> c.redeemedBy.value in w.t.identities && exists j: nat :: RedeemedAt(owners, ss, h, c, c.redeemedBy.value, j))
  }

  lemma AtEarlier(owners: set<Identity>, ss: seq<Step>, h: Hash, c: Code, id: Identity, j: nat)
    requires ss != []
    ensures IssuedAt(owners, ss[..|ss| - 1], h, c, j) ==> IssuedAt(owners, ss, h, c, j)
    ensures RedeemedAt(owners, ss[..|ss| - 1], h, c, id, j) ==> RedeemedAt(owners, ss, h, c, id, j)
  {
    hide Run;
    if j < |ss| - 1 {
      assert ss[..|ss| - 1][..j + 1] == ss[..j + 1];
    }
  }

  lemma KnownMore(owners: set<Identity>, ss: seq<Step>, h: Hash)
    requires ss != [] && h in Run(owners, ss).t.codes
    requires var init := ss[..|ss| - 1];
             && CodesStep(Run(owners, init), Run(owners, ss), ss[|ss| - 1])
             && (h in Run(owners, init).t.codes ==> CodeKnown(owners, init, Run(owners, init), h))
    ensures CodeKnown(owners, ss, Run(owners, ss), h)
  {
    hide Run;
    var n, init := |ss| - 1, ss[..|ss| - 1];
    var w, w2 := Run(owners, init), Run(owners, ss);
    var c := w2.t.codes[h];
    assert ss[..n + 1] == ss;
    if FreshCode(w2, ss[n], h) {
      assert IssuedAt(owners, ss, h, c, n);
    } else {
      var was := w.t.codes[h];
      var j: nat :| IssuedAt(owners, init, h, was, j);
      AtEarlier(owners, ss, h, was, was.issuedBy, j);
      assert IssuedAt(owners, ss, h, c, j);
      if NowRedeemed(w, w2, ss[n], h) {
        assert RedeemedAt(owners, ss, h, c, ss[n].me, n);
      } else if c.redeemedBy.Some? {
        var k: nat :| RedeemedAt(owners, init, h, was, c.redeemedBy.value, k);
        AtEarlier(owners, ss, h, was, c.redeemedBy.value, k);
        assert RedeemedAt(owners, ss, h, c, c.redeemedBy.value, k);
      }
    }
  }

  lemma {:induction false} CodesKnown(owners: set<Identity>, ss: seq<Step>, h: Hash)
    requires h in Run(owners, ss).t.codes
    ensures CodeKnown(owners, ss, Run(owners, ss), h)
    decreases |ss|
  {
    hide Next, CodeKnown, CodesStep;
    var init := ss[..|ss| - 1];
    if h in Run(owners, init).t.codes {
      CodesKnown(owners, init, h);
    }
    RunKeeps(owners, init);
    NextCodes(Run(owners, init), owners, ss[|ss| - 1]);
    KnownMore(owners, ss, h);
  }

  lemma {:induction false} TimeGoesOn(owners: set<Identity>, ss: seq<Step>, j: nat)
    requires j <= |ss|
    ensures Run(owners, ss[..j]).now <= Run(owners, ss).now
    decreases |ss|
  {
    if j == |ss| {
      assert ss[..j] == ss;
    } else {
      var init := ss[..|ss| - 1];
      assert init[..j] == ss[..j];
      hide Next;
      TimeGoesOn(owners, init, j);
      RunKeeps(owners, init);
      NextCodes(Run(owners, init), owners, ss[|ss| - 1]);
    }
  }

  // ---- what this means --------------------------------------------------------------------------------------

  /** The code was issued by an app of its person, less than ten minutes before now. */
  ghost predicate IssuedInTime(owners: set<Identity>, ss: seq<Step>, h: Hash, c: Code, now: int) {
    exists j: nat :: IssuedAt(owners, ss, h, c, j) && Run(owners, ss[..j + 1]).now <= now < Run(owners, ss[..j + 1]).now + 10 * Limits.MINUTE
  }

  lemma InTime(owners: set<Identity>, ss: seq<Step>, h: Hash, now: int)
    requires h in Run(owners, ss).t.codes && Run(owners, ss).now <= now < Run(owners, ss).t.codes[h].expiresAt
    ensures IssuedInTime(owners, ss, h, Run(owners, ss).t.codes[h], now)
  {
    CodesKnown(owners, ss, h);
    hide Run;
    var c := Run(owners, ss).t.codes[h];
    var j: nat :| IssuedAt(owners, ss, h, c, j);
    TimeGoesOn(owners, ss, j + 1);
  }

  /**
   In every run: a /link CODE that moves its caller or leaves the code waiting
   for it uses a code that an app of the code's person asked for less than ten
   minutes before, that nobody used since, and whose issuer is not banned. The
   caller ends up with that person.
   */
  lemma RedeemedInTime(owners: set<Identity>, ss: seq<Step>, s: Step)
    requires s.Do? && s.cmd.UseLinkCode? && Runs(Run(owners, ss), s)
    requires var w, w2 := Run(owners, ss), Next(Run(owners, ss), owners, s);
             || w2.t.identities != Entering(w, s).t.identities
             || (s.cmd.h in w2.t.codes && s.cmd.h in w.t.codes && w2.t.codes[s.cmd.h] != w.t.codes[s.cmd.h])
             || (s.cmd.h in w.t.codes && s.cmd.h !in w2.t.codes)
    ensures var w, w2 := Run(owners, ss), Next(Run(owners, ss), owners, s);
            && s.cmd.h in w.t.codes
            && var c := w.t.codes[s.cmd.h];
               && IssuedInTime(owners, ss, s.cmd.h, c, w2.now)
               && c.redeemedBy.None? && c.issuedBy !in w.banned
               && s.me in w2.t.identities
               && (w2.t.identities != Entering(w, s).t.identities ==> w2.t.identities[s.me].person == c.person)
  {
    hide Inv, Redeem, InLast, Fitting, PersonRank, Run, Next, Entering, IssuedInTime;
    var w := Run(owners, ss);
    var h := s.cmd.h;
    RunKeeps(owners, ss);
    EnteringSame(w, owners, s);
    var e := Entering(w, s);
    RedeemRuns(w, owners, s);
    RedeemOutcome(e, owners, s.me, h, s.cmd.confirmed);
    RedeemNow(e, owners, s.me, h, s.cmd.confirmed);
    if Usable(e, h) {
      InTime(owners, ss, h, e.now);
    }
  }

  lemma RedeemRuns(w: World, owners: set<Identity>, s: Step)
    requires s.Do? && s.cmd.UseLinkCode? && Runs(w, s)
    ensures var r := Redeem(Entering(w, s), owners, s.me, s.cmd.h, s.cmd.confirmed);
            Next(w, owners, s) == if r.Some? then r.value else Clock(w, s.at)
  {
    NextRuns(w, owners, s);
    hide Next, Entering, Redeem;
  }

  lemma DecideRuns(w: World, owners: set<Identity>, s: Step)
    requires s.Do? && s.cmd.Answer? && Runs(w, s)
    ensures var r := Decide(Entering(w, s), s.me, s.cmd.h, s.cmd.approve);
            Next(w, owners, s) == if r.Some? then r.value else Clock(w, s.at)
  {
    NextRuns(w, owners, s);
    hide Next, Entering, Decide;
  }

  /**
   In every run: an approval that moves anyone moves whoever redeemed the code,
   in time and not banned by now, to the person of both the approver and the
   issuer, less than ten minutes after the code was issued.
   */
  lemma ApprovedInTime(owners: set<Identity>, ss: seq<Step>, s: Step)
    requires s.Do? && s.cmd.Answer? && Runs(Run(owners, ss), s)
    requires Next(Run(owners, ss), owners, s).t.identities != Entering(Run(owners, ss), s).t.identities
    ensures var w, w2 := Run(owners, ss), Next(Run(owners, ss), owners, s);
            && s.cmd.approve && s.cmd.h in w.t.codes
            && var c := w.t.codes[s.cmd.h];
               && IssuedInTime(owners, ss, s.cmd.h, c, w2.now)
               && c.redeemedBy.Some? && c.redeemedBy.value !in w.banned
               && (exists j: nat :: RedeemedAt(owners, ss, s.cmd.h, c, c.redeemedBy.value, j))
               && s.me in w.t.identities && w.t.identities[s.me].person == c.person
               && MovedTo(Entering(w, s).t, w2.t, c.redeemedBy.value, c.person)
  {
    hide Inv, Decide, Run, Next, Entering, IssuedInTime, IssuedAt, RedeemedAt, MovedTo;
    var w := Run(owners, ss);
    var h := s.cmd.h;
    RunKeeps(owners, ss);
    EnteringSame(w, owners, s);
    var e := Entering(w, s);
    DecideRuns(w, owners, s);
    if h in w.t.codes {
      CodesKnown(owners, ss, h);
      CallerKnown(w, owners, s, h);
    }
    DecideOutcome(e, owners, s.me, h, s.cmd.approve);
    DecideNow(e, s.me, h, s.cmd.approve);
    if Waiting(e, s.me, h) {
      InTime(owners, ss, h, e.now);
    }
  }

  lemma DecideNow(w: World, me: Identity, h: Hash, approve: bool)
    ensures Decide(w, me, h, approve).Some? ==> Decide(w, me, h, approve).value.now == w.now
  {
    hide HubLinked;
  }

  /** A code's person was there before whoever comes in now. */
  lemma CallerKnown(w: World, owners: set<Identity>, s: Step, h: Hash)
    requires Inv(w, owners) && Runs(w, s) && h in w.t.codes
    ensures w.t.codes[h].person in w.t.people
    ensures s.me !in w.t.identities ==> Entering(w, s).t.identities[s.me].person !in w.t.people
  {
    CodePerson(w, owners, h);
    hide Inv;
  }

  /** What /link CODE comes to, in every run. */
  lemma RedeemInRun(owners: set<Identity>, ss: seq<Step>, s: Step)
    requires s.Do? && s.cmd.UseLinkCode? && Runs(Run(owners, ss), s)
    ensures var e, w2 := Entering(Run(owners, ss), s), Next(Run(owners, ss), owners, s);
            s.me in e.t.identities && Redeemed(e, w2, owners, s.me, s.cmd.h, s.cmd.confirmed) && w2.banned == e.banned
  {
    var w := Run(owners, ss);
    RunKeeps(owners, ss);
    EnteringSame(w, owners, s);
    NextRuns(w, owners, s);
    hide Inv, Redeemed, Redeem, Run, Next, Entering;
    RedeemOutcome(Entering(w, s), owners, s.me, s.cmd.h, s.cmd.confirmed);
  }

  /** Whoever has redeemed a code is known to the hub. */
  lemma RedeemerKnown(owners: set<Identity>, ss: seq<Step>, h: Hash)
    ensures var t := Run(owners, ss).t; h in t.codes && t.codes[h].redeemedBy.Some? ==> t.codes[h].redeemedBy.value in t.identities
  {
    hide Run;
    if h in Run(owners, ss).t.codes {
      CodesKnown(owners, ss, h);
    }
  }

  /** What an answer comes to, in every run. */
  lemma AnswerInRun(owners: set<Identity>, ss: seq<Step>, s: Step)
    requires s.Do? && s.cmd.Answer? && Runs(Run(owners, ss), s)
    ensures var e, w2 := Entering(Run(owners, ss), s), Next(Run(owners, ss), owners, s);
            Answered(e, w2, s.me, s.cmd.h, s.cmd.approve) && w2.banned == e.banned
  {
    var w := Run(owners, ss);
    RunKeeps(owners, ss);
    EnteringSame(w, owners, s);
    NextRuns(w, owners, s);
    RedeemerKnown(owners, ss, s.cmd.h);
    hide Inv, Answered, Decide, Run, Next, Entering;
    DecideOutcome(Entering(w, s), owners, s.me, s.cmd.h, s.cmd.approve);
  }
}
