/** How anyone comes to hold a rank: by a grant from above, or by joining a ranked person with its consent. */
module RankRuns {
  import opened Common
  import opened People
  import opened PeopleLaws
  import opened TearApart
  import opened Ranks
  import opened Links
  import opened LinkRuns
  import Limits

  /** i gets to do more, and is now a mod or above. */
  ghost predicate Rises(t: Tables, u: Tables, owners: set<Identity>, i: Identity) {
    IdentityRank(u, owners, i) > IdentityRank(t, owners, i) && IdentityRank(u, owners, i) >= MOD
  }

  ghost predicate NoRise(t: Tables, u: Tables, owners: set<Identity>) {
    forall i :: !Rises(t, u, owners, i)
  }

  lemma NoRiseTwice(t: Tables, m: Tables, u: Tables, owners: set<Identity>)
    requires NoRise(t, m, owners) && NoRise(m, u, owners)
    ensures NoRise(t, u, owners)
  {
    hide IdentityRank;
    forall i
      ensures !Rises(t, u, owners, i)
    {
      assert !Rises(t, m, owners, i) && !Rises(m, u, owners, i);
    }
  }

  // ---- what decides a rank ---------------------------------------------------------

  lemma OwnerStays(t: Tables, u: Tables, owners: set<Identity>, p: PersonId)
    requires forall o :: o in owners ==> (o in t.identities && t.identities[o].person == p <==> o in u.identities && u.identities[o].person == p)
    ensures HasOwner(t, owners, p) == HasOwner(u, owners, p)
  {
  }

  /** The same apps in the same persons with the same stored ranks: nobody's rank changes. */
  lemma SameRanks(t: Tables, u: Tables, owners: set<Identity>)
    requires u.identities == t.identities && u.people == t.people
    ensures forall i :: IdentityRank(u, owners, i) == IdentityRank(t, owners, i)
    ensures NoRise(t, u, owners)
  {
  }

  lemma TouchedNoRise(t: Tables, owners: set<Identity>, id: Identity, row: PersonId, now: int)
    requires Homed(t) && row !in t.people
    ensures NoRise(t, Touched(t, id, row, now), owners)
  {
  }

  /** A person whose only app is no owner's has no owner. */
  lemma OnlyAppOwner(u: Tables, owners: set<Identity>, id: Identity)
    requires id in u.identities && id !in owners
    requires forall o :: o in owners && o in u.identities ==> u.identities[o].person != u.identities[id].person
    ensures !HasOwner(u, owners, u.identities[id].person)
  {
  }

  // ---- linking ---------------------------------------------------------------------

  /** id, no owner's identity, moves to person `to`; persons that keep an app keep their stored rank. */
  ghost predicate JustMoved(t: Tables, u: Tables, id: Identity, to: PersonId) {
    && id in t.identities && u.identities.Keys == t.identities.Keys && u.identities[id].person == to
    && (forall i :: i in t.identities && i != id ==> u.identities[i].person == t.identities[i].person)
    && (forall i :: i in t.identities && i != id ==> StoredRank(u, t.identities[i].person) == StoredRank(t, t.identities[i].person))
    && StoredRank(u, to) == StoredRank(t, to)
  }

  lemma LinkedMoves(t: Tables, id: Identity, to: PersonId, now: int)
    requires Homed(t) && id in t.identities && Linked(t, id, to, now).Ok? && t.identities[id].person != to
    ensures JustMoved(t, Linked(t, id, to, now).value, id, to)
  {
    hide MergedIgnores, MergedWhispers, OthersCodes;
    var u := Linked(t, id, to, now).value;
    var from := t.identities[id].person;
    forall i | i in t.identities && i != id
      ensures StoredRank(u, t.identities[i].person) == StoredRank(t, t.identities[i].person)
    {
      assert Alone(t, id) ==> t.identities[i].person != from;
    }
  }

  /** Everyone but id keeps their rank, and id ranks no higher than the person it joined. */
  lemma MovedRanks(t: Tables, u: Tables, owners: set<Identity>, id: Identity, to: PersonId)
    requires JustMoved(t, u, id, to) && id !in owners
    ensures forall i :: i != id ==> IdentityRank(u, owners, i) == IdentityRank(t, owners, i)
    ensures IdentityRank(u, owners, id) <= PersonRank(t, owners, to)
  {
  }

  /** hub.link, id being no owner's: only id can rise, and not above the person it joins. */
  lemma HubLinkedRanks(t: Tables, owners: set<Identity>, id: Identity, to: PersonId, now: int)
    requires Valid(t) && HubLinked(t, id, to, now).Ok? && id !in owners
    ensures forall i :: i != id ==> IdentityRank(HubLinked(t, id, to, now).value, owners, i) == IdentityRank(t, owners, i)
    ensures IdentityRank(HubLinked(t, id, to, now).value, owners, id) <= Max(PersonRank(t, owners, to), IdentityRank(t, owners, id))
  {
    var m := if Alone(t, id) && t.identities[id].person in t.names then Released(t, id) else t;
    assert m.identities == t.identities && m.people == t.people;
    assert Homed(m);
    SameRanks(t, m, owners);
    OwnerStays(t, m, owners, to);
    assert PersonRank(m, owners, to) == PersonRank(t, owners, to);
    hide IdentityRank, PersonRank, Valid, Linked, Released, Alone;
    var u := Linked(m, id, to, now).value;
    if m.identities[id].person == to {
      assert u == m by { LinkedHere(m, id, to, now); }
    } else {
      LinkedMoves(m, id, to, now);
      MovedRanks(m, u, owners, id, to);
    }
  }

  lemma LinkedHere(t: Tables, id: Identity, to: PersonId, now: int)
    requires id in t.identities && t.identities[id].person == to
    ensures Linked(t, id, to, now) == Ok(t)
  {
  }

  // ---- unlinking and tearing apart ----------------------------------------------------

  lemma UnlinkedNoRise(t: Tables, owners: set<Identity>, id: Identity, row: PersonId, now: int)
    requires Homed(t) && row !in t.people && Unlinked(t, id, row, now).Ok?
    ensures NoRise(t, Unlinked(t, id, row, now).value, owners)
  {
    var u := Unlinked(t, id, row, now).value;
    if Alone(t, id) {
      SameRanks(t, t, owners);
    } else {
      forall i
        ensures !Rises(t, u, owners, i)
      {
        if i in t.identities && i !in owners {
          HomeOf(t, i);
          if i == id {
            NobodyIn(t, row);
            OnlyAppOwner(u, owners, id);
          } else {
            OwnerLeaves(t, u, owners, t.identities[i].person);
          }
        }
      }
    }
  }

  lemma NobodyIn(t: Tables, row: PersonId)
    requires Homed(t) && row !in t.people
    ensures forall i :: i in t.identities ==> t.identities[i].person != row
  {
  }

  /** A person gains no owner by someone leaving it. */
  lemma OwnerLeaves(t: Tables, u: Tables, owners: set<Identity>, p: PersonId)
    requires forall o :: o in u.identities && u.identities[o].person == p ==> o in t.identities && t.identities[o].person == p
    ensures HasOwner(u, owners, p) ==> HasOwner(t, owners, p)
  {
  }

  lemma {:induction false} UnlinkEachNoRise(t: Tables, owners: set<Identity>, others: seq<Identity>, rows: seq<PersonId>, now: int)
    requires Valid(t) && |rows| == |others|
    ensures NoRise(t, UnlinkEach(t, others, rows, now), owners)
    decreases |others|
  {
    assert Homed(t);
    hide NoRise, Valid, Unlinked, Homed;
    SameRanks(t, t, owners);
    if others != [] && rows[0] !in t.people && Unlinked(t, others[0], rows[0], now).Ok? {
      var m := Unlinked(t, others[0], rows[0], now).value;
      UnlinkedNoRise(t, owners, others[0], rows[0], now);
      UnlinkedKeeps(t, others[0], rows[0], now);
      UnlinkEachNoRise(m, owners, others[1..], rows[1..], now);
      NoRiseTwice(t, m, UnlinkEach(m, others[1..], rows[1..], now), owners);
    }
  }

  lemma ReleasedNoRise(t: Tables, owners: set<Identity>, id: Identity)
    ensures NoRise(t, Released(t, id), owners)
  {
  }

  /** A stored rank changes for the apps of one person, and for nobody else. */
  lemma RankedRanks(t: Tables, owners: set<Identity>, id: Identity, rank: Stored)
    requires Ranked(t, id, rank).Ok?
    ensures forall i :: !(i in t.identities && t.identities[i].person == t.identities[id].person) ==>
              IdentityRank(Ranked(t, id, rank).value, owners, i) == IdentityRank(t, owners, i)
    ensures rank == Member ==> NoRise(t, Ranked(t, id, rank).value, owners)
  {
  }

  lemma TornApartNoRise(t: Tables, owners: set<Identity>, id: Identity, others: seq<Identity>, rows: seq<PersonId>, now: int)
    requires Valid(t) && |rows| == |others|
    ensures NoRise(t, TornApart(t, id, others, rows, now), owners)
  {
    hide NoRise, Valid, UnlinkEach, Released, Ranked;
    var m := UnlinkEach(t, others, rows, now);
    var u := Released(m, id);
    UnlinkEachNoRise(t, owners, others, rows, now);
    ReleasedNoRise(m, owners, id);
    NoRiseTwice(t, m, u, owners);
    if Ranked(u, id, Member).Ok? {
      RankedRanks(u, owners, id, Member);
      NoRiseTwice(t, u, Ranked(u, id, Member).value, owners);
    }
  }

  // ---- commands ------------------------------------------------------------------------

  /** A grant by someone of admin rank or above on a different, lower person that i is part of. */
  ghost predicate Granted(t: Tables, owners: set<Identity>, me: Identity, cmd: Cmd, i: Identity) {
    && cmd.SetRankOf? && cmd.rank != Member
    && cmd.target in t.identities && i in t.identities && t.identities[i].person == t.identities[cmd.target].person
    && IdentityRank(t, owners, me) >= ADMIN
    && PersonRank(t, owners, t.identities[i].person) < OWNER
    && PersonRank(t, owners, t.identities[i].person) < IdentityRank(t, owners, me)
    && (me in t.identities ==> t.identities[me].person != t.identities[i].person)
  }

  /** An app of the ranked person lets i in, which had redeemed a code of that person. */
  ghost predicate Approved(t: Tables, u: Tables, owners: set<Identity>, me: Identity, cmd: Cmd, i: Identity) {
    && cmd.Answer? && cmd.approve
    && cmd.h in t.codes && t.codes[cmd.h].redeemedBy == Some(i)
    && me in t.identities && t.codes[cmd.h].person == t.identities[me].person
    && IdentityRank(u, owners, i) <= PersonRank(t, owners, t.identities[me].person)
  }

  lemma RedeemNoRise(w: World, owners: set<Identity>, me: Identity, h: Hash, confirmed: bool)
    requires Valid(w.t) && Redeem(w, owners, me, h, confirmed).Some?
    ensures NoRise(w.t, Redeem(w, owners, me, h, confirmed).value.t, owners)
  {
    hide Valid, NoRise, IdentityRank, HubLinked, Limits.DoGuess, LockedOut;
    var w2 := Redeem(w, owners, me, h, confirmed).value;
    if w2.t.identities == w.t.identities && w2.t.people == w.t.people {
      SameRanks(w.t, w2.t, owners);
    } else {
      var p := w.t.codes[h].person;
      var u := HubLinked(w.t, me, p, w.now).value;
      assert me !in owners && PersonRank(w.t, owners, p) < MOD;
      assert w2.t.identities == u.identities && w2.t.people == u.people;
      HubLinkedRanks(w.t, owners, me, p, w.now);
      SameRanks(u, w2.t, owners);
      NotAbove(w.t, w2.t, owners, me);
    }
  }

  lemma NotAbove(t: Tables, u: Tables, owners: set<Identity>, id: Identity)
    requires forall i :: i != id ==> IdentityRank(u, owners, i) == IdentityRank(t, owners, i)
    requires IdentityRank(u, owners, id) < MOD || IdentityRank(u, owners, id) <= IdentityRank(t, owners, id)
    ensures NoRise(t, u, owners)
  {
  }

  lemma DecideExplained(w: World, owners: set<Identity>, me: Identity, h: Hash, approve: bool, i: Identity)
    requires Valid(w.t) && CodesOk(w.t, w.log, owners) && Decide(w, me, h, approve).Some?
    requires Rises(w.t, Decide(w, me, h, approve).value.t, owners, i)
    ensures Approved(w.t, Decide(w, me, h, approve).value.t, owners, me, Answer(h, approve), i)
  {
    hide Valid, IdentityRank, HubLinked, PersonRank;
    var w2 := Decide(w, me, h, approve).value;
    if w2.t.identities == w.t.identities && w2.t.people == w.t.people {
      SameRanks(w.t, w2.t, owners);
      assert false;
    } else {
      var c := w.t.codes[h];
      var u := HubLinked(w.t, c.redeemedBy.value, c.person, w.now).value;
      HubLinkedRanks(w.t, owners, c.redeemedBy.value, c.person, w.now);
      SameRanks(u, w2.t, owners);
    }
  }

  lemma GrantExplained(w: World, owners: set<Identity>, me: Identity, target: Identity, rank: Stored, i: Identity)
    requires Grant(w, owners, me, target, rank).Some?
    requires Rises(w.t, Grant(w, owners, me, target, rank).value.t, owners, i)
    ensures Granted(w.t, owners, me, SetRankOf(target, rank), i)
  {
    hide IdentityRank, PersonRank, Ranked;
    var w2 := Grant(w, owners, me, target, rank).value;
    if w2 == w {
      SameRanks(w.t, w.t, owners);
      assert false;
    } else {
      RankedRanks(w.t, owners, target, rank);
      RankedKnown(w.t, target, rank);
    }
  }

  lemma RankedKnown(t: Tables, id: Identity, rank: Stored)
    requires Ranked(t, id, rank).Ok?
    ensures id in t.identities
  {
  }

  /** Commands that leave apps, persons and stored ranks alone. */
  ghost predicate Harmless(cmd: Cmd) {
    cmd.Visit? || cmd.AskCode? || cmd.Nick? || cmd.NickOf? || cmd.FreeName? || cmd.IgnoreOne? || cmd.UnignoreOne? || cmd.WhisperTo? || cmd.LiftBans?
  }

  lemma HarmlessSame(w: World, owners: set<Identity>, me: Identity, cmd: Cmd)
    requires Harmless(cmd) && Exec(w, owners, me, cmd).Some?
    ensures var u := Exec(w, owners, me, cmd).value.t; u.identities == w.t.identities && u.people == w.t.people
  {
    hide Issue, Claim, RenameOther, ReleaseOther, Redeem, Decide, Unlink, Grant, Remove, Forget, Listed, IgnoreThem, UnignoreThem, Whisper, LiftSome;
    match cmd
    case AskCode(h) => IssueSame(w, me, h);
    case Nick(want) => ClaimSame(w, me, want);
    case NickOf(target, want) => RenameSame(w, owners, me, target, want);
    case FreeName(target) => ReleaseSame(w, owners, me, target);
    case _ => SmallSame(w, owners, me, cmd);
  }

  lemma IssueSame(w: World, me: Identity, h: Hash)
    ensures var u := Issue(w, me, h).t; u.identities == w.t.identities && u.people == w.t.people
  {
    hide Limits.DoIssue, Apps, PutCode;
  }

  lemma RenameSame(w: World, owners: set<Identity>, me: Identity, target: Identity, want: string)
    ensures var u := RenameOther(w, owners, me, target, want).t; u.identities == w.t.identities && u.people == w.t.people
  {
    hide May, WhoIs, Claim;
    ClaimSame(w, target, want);
  }

  lemma ReleaseSame(w: World, owners: set<Identity>, me: Identity, target: Identity)
    ensures var u := ReleaseOther(w, owners, me, target).t; u.identities == w.t.identities && u.people == w.t.people
  {
    hide May, WhoIs;
  }

  lemma SmallSame(w: World, owners: set<Identity>, me: Identity, cmd: Cmd)
    requires cmd.Visit? || cmd.IgnoreOne? || cmd.UnignoreOne? || cmd.WhisperTo? || cmd.LiftBans?
    ensures Exec(w, owners, me, cmd).Some?
    ensures var u := Exec(w, owners, me, cmd).value.t; u.identities == w.t.identities && u.people == w.t.people
  {
    hide May, WhoIs, Issue, Claim, RenameOther, ReleaseOther, Redeem, Decide, Unlink, Grant, Remove, Forget, Listed;
  }

  lemma ClaimSame(w: World, id: Identity, want: string)
    ensures Claim(w, id, want).t.identities == w.t.identities && Claim(w, id, want).t.people == w.t.people
  {
  }

  lemma ExecExplained(w: World, owners: set<Identity>, me: Identity, cmd: Cmd, i: Identity)
    requires Inv(w, owners) && Exec(w, owners, me, cmd).Some?
    requires Rises(w.t, Exec(w, owners, me, cmd).value.t, owners, i)
    ensures Granted(w.t, owners, me, cmd, i) || Approved(w.t, Exec(w, owners, me, cmd).value.t, owners, me, cmd, i)
  {
    assert Valid(w.t) && CodesOk(w.t, w.log, owners);
    hide Inv, Valid, CodesOk, Rises, Granted, Approved, Redeem, Decide, Grant, Unlinked, TornApart, UnlinkEach, Released, May, WhoIs, Alone;
    var w2 := Exec(w, owners, me, cmd).value;
    match cmd
    case UseLinkCode(h, confirmed) => RedeemNoRise(w, owners, me, h, confirmed);
    case Answer(h, approve) => DecideExplained(w, owners, me, h, approve, i);
    case SetRankOf(target, rank) => GrantExplained(w, owners, me, target, rank, i);
    case UnlinkApp(target, row) => UnlinkStepNoRise(w, owners, me, target, row);
    case PutOut(target, others, rows, ban) =>
      SameRanks(w.t, w.t, owners);
      TornApartNoRise(w.t, owners, target, others, rows, w.now);
    case ForgetMe(others, rows) => ForgetNoRise(w, owners, me, others, rows);
    case _ =>
      HarmlessSame(w, owners, me, cmd);
      SameRanks(w.t, w2.t, owners);
  }

  lemma UnlinkStepNoRise(w: World, owners: set<Identity>, me: Identity, target: Identity, row: PersonId)
    requires Valid(w.t) && Unlink(w, owners, me, target, row).Some?
    ensures NoRise(w.t, Unlink(w, owners, me, target, row).value.t, owners)
  {
    hide NoRise, Unlinked, May, WhoIs, Alone;
    SameRanks(w.t, w.t, owners);
    if row !in w.t.people && Unlinked(w.t, target, row, w.now).Ok? {
      UnlinkedNoRise(w.t, owners, target, row, w.now);
    }
  }

  lemma ForgetNoRise(w: World, owners: set<Identity>, me: Identity, others: seq<Identity>, rows: seq<PersonId>)
    requires Valid(w.t) && |rows| == |others|
    ensures NoRise(w.t, Forget(w, me, others, rows).t, owners)
  {
    hide NoRise, UnlinkEach, Released, Valid;
    var m := UnlinkEach(w.t, others, rows, w.now);
    UnlinkEachNoRise(w.t, owners, others, rows, w.now);
    ReleasedNoRise(m, owners, me);
    NoRiseTwice(w.t, m, Released(m, me), owners);
  }

  // ---- whole runs -----------------------------------------------------------------------

  /** The state a command runs in: the time, and its caller noted. */
  function Entered(w: World, s: Step): World
    requires s.Do?
  {
    if s.row in w.t.people then Clock(w, s.at) else Touch(Clock(w, s.at), s.me, s.row)
  }

  /** The step is a grant from above, or an approval by an app of the ranked person. */
  ghost predicate Explained(w: World, w2: World, owners: set<Identity>, s: Step, i: Identity) {
    s.Do? && (Granted(Entered(w, s).t, owners, s.me, s.cmd, i) || Approved(Entered(w, s).t, w2.t, owners, s.me, s.cmd, i))
  }

  lemma NextExplained(w: World, owners: set<Identity>, s: Step, i: Identity)
    requires Inv(w, owners) && Rises(w.t, Next(w, owners, s).t, owners, i)
    ensures Explained(w, Next(w, owners, s), owners, s, i)
  {
    hide Exec, Granted, Approved;
    var w2 := Next(w, owners, s);
    if w2.t.identities == w.t.identities && w2.t.people == w.t.people {
      SameRanks(w.t, w2.t, owners);
      assert false;
    } else {
      var w1 := Entered(w, s);
      assert Homed(w.t);
      TouchedNoRise(w.t, owners, s.me, s.row, w1.now);
      ClockKeeps(w, owners, s.at);
      TouchKeeps(Clock(w, s.at), owners, s.me, s.row);
      hide Inv, Touched, IdentityRank;
      assert !Rises(w.t, w1.t, owners, i);
      assert Rises(w1.t, w2.t, owners, i);
      ExecExplained(w1, owners, s.me, s.cmd, i);
    }
  }

  /** At step k of the run i rose, for one of the two reasons. */
  ghost predicate RoseAt(owners: set<Identity>, ss: seq<Step>, i: Identity, k: nat)
    requires k < |ss|
  {
    && Rises(Run(owners, ss[..k]).t, Run(owners, ss[..k + 1]).t, owners, i)
    && Explained(Run(owners, ss[..k]), Run(owners, ss[..k + 1]), owners, ss[k], i)
  }

  /** Rising at a step of a prefix is rising at that step of the run. */
  lemma RoseEarlier(owners: set<Identity>, ss: seq<Step>, i: Identity, k: nat)
    requires ss != [] && k < |ss| - 1 && RoseAt(owners, ss[..|ss| - 1], i, k)
    ensures RoseAt(owners, ss, i, k)
  {
    hide Run, Rises, Explained;
    var init := ss[..|ss| - 1];
    assert init[..k] == ss[..k] && init[..k + 1] == ss[..k + 1] && init[k] == ss[k];
  }

  lemma RoseLast(owners: set<Identity>, ss: seq<Step>, i: Identity)
    requires ss != [] && Rises(Run(owners, ss[..|ss| - 1]).t, Run(owners, ss).t, owners, i)
    ensures RoseAt(owners, ss, i, |ss| - 1)
  {
    var init := ss[..|ss| - 1];
    assert Run(owners, ss) == Next(Run(owners, init), owners, ss[|ss| - 1]);
    assert ss[..|ss|] == ss;
    hide Run, Next, Rises, Explained;
    RunKeeps(owners, init);
    NextExplained(Run(owners, init), owners, ss[|ss| - 1], i);
  }

  /** Over every run, every step at which anyone's rank rises, be it the first time or again, is explained. */
  lemma EveryRiseExplained(owners: set<Identity>, ss: seq<Step>, i: Identity, k: nat)
    requires k < |ss| && Rises(Run(owners, ss[..k]).t, Run(owners, ss[..k + 1]).t, owners, i)
    ensures Explained(Run(owners, ss[..k]), Run(owners, ss[..k + 1]), owners, ss[k], i)
  {
    hide Run, Rises, Explained;
    var done := ss[..k + 1];
    assert done[..k] == ss[..k] && done[..k + 1] == done && done[k] == ss[k];
    RoseLast(owners, done, i);
  }

  /**
   Over every run: whoever is a mod or above without being an owner in the
   configuration was once granted the rank from above, or was let in by an app
   of a ranked person.
   */
  lemma {:induction false} RanksAreGiven(owners: set<Identity>, ss: seq<Step>, i: Identity)
    requires i !in owners && IdentityRank(Run(owners, ss).t, owners, i) >= MOD
    ensures exists k :: 0 <= k < |ss| && RoseAt(owners, ss, i, k)
    decreases |ss|
  {
    assert ss != [];
    hide Run, RoseAt, IdentityRank;
    if Rises(Run(owners, ss[..|ss| - 1]).t, Run(owners, ss).t, owners, i) {
      RoseLast(owners, ss, i);
    } else {
      RanksAreGiven(owners, ss[..|ss| - 1], i);
      var k :| 0 <= k < |ss| - 1 && RoseAt(owners, ss[..|ss| - 1], i, k);
      RoseEarlier(owners, ss, i, k);
    }
  }

  lemma LinkByMovesOne(w: World, id: Identity, p: PersonId, h: Hash, o: Identity)
    requires LinkBy(w, id, p, h).Some? && o in w.t.identities && o != id
    ensures var u := LinkBy(w, id, p, h).value.t; o in u.identities && u.identities[o] == w.t.identities[o]
  {
    hide HubLinked;
    HubLinkedMovesOne(w.t, id, p, w.now, o);
  }

  lemma HubLinkedMovesOne(t: Tables, id: Identity, p: PersonId, now: int, o: Identity)
    requires HubLinked(t, id, p, now).Ok? && o in t.identities && o != id
    ensures o in HubLinked(t, id, p, now).value.identities && HubLinked(t, id, p, now).value.identities[o] == t.identities[o]
  {
    hide MergedIgnores, MergedWhispers, OthersCodes, Alone;
  }

  lemma RedeemLeavesOwners(w: World, owners: set<Identity>, me: Identity, h: Hash, confirmed: bool, o: Identity)
    requires o in owners && o in w.t.identities && Redeem(w, owners, me, h, confirmed).Some?
    ensures var u := Redeem(w, owners, me, h, confirmed).value.t; o in u.identities && u.identities[o] == w.t.identities[o]
  {
    hide LinkBy, PersonRank, Limits.DoGuess, LockedOut, Apps, Alone;
    if h in w.t.codes && LinkBy(w, me, w.t.codes[h].person, h).Some? && me != o {
      LinkByMovesOne(w, me, w.t.codes[h].person, h, o);
    }
  }

  lemma DecideLeavesOwners(w: World, owners: set<Identity>, me: Identity, h: Hash, approve: bool, o: Identity)
    requires CodesOk(w.t, w.log, owners) && o in owners && o in w.t.identities && Decide(w, me, h, approve).Some?
    ensures var u := Decide(w, me, h, approve).value.t; o in u.identities && u.identities[o] == w.t.identities[o]
  {
    hide LinkBy;
    if h in w.t.codes && w.t.codes[h].redeemedBy.Some? {
      var id := w.t.codes[h].redeemedBy.value;
      if LinkBy(w, id, w.t.codes[h].person, h).Some? {
        LinkByMovesOne(w, id, w.t.codes[h].person, h, o);
      }
    }
  }

  /** Linking never moves an owner's configured identity out of its person. */
  lemma OwnersAreNotLinkedAway(w: World, owners: set<Identity>, me: Identity, cmd: Cmd, o: Identity)
    requires Inv(w, owners) && o in owners && o in w.t.identities && (cmd.UseLinkCode? || cmd.Answer?)
    requires Exec(w, owners, me, cmd).Some?
    ensures var u := Exec(w, owners, me, cmd).value.t; o in u.identities && u.identities[o] == w.t.identities[o]
  {
    assert CodesOk(w.t, w.log, owners);
    hide Inv, CodesOk, Redeem, Decide;
    match cmd
    case UseLinkCode(h, confirmed) => RedeemLeavesOwners(w, owners, me, h, confirmed, o);
    case Answer(h, approve) => DecideLeavesOwners(w, owners, me, h, approve, o);
  }
}
