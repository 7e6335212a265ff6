/** Who may do what to whom, by what the commands do: each has its effect if and only if the caller ranks for it. */
module Powers {
  import opened Common
  import opened People
  import opened PeopleLaws
  import opened TearApart
  import opened Ranks
  import opened Links
  import opened LinkRuns
  import opened CodeOrigins
  import Limits
  import Names

  /** How high someone ranks as a target: as their whole person, or as themselves if nobody has seen them. */
  function RankOf(t: Tables, owners: set<Identity>, id: Identity): Rank {
    if id in t.identities then PersonRank(t, owners, t.identities[id].person)
    else if id in owners then OWNER else MEMBER
  }

  /** A configured identity is an owner, the other apps of its person are admins, everyone else has their person's stored rank. */
  lemma RankIs(t: Tables, owners: set<Identity>, id: Identity)
    ensures IdentityRank(t, owners, id) == OWNER <==> id in owners
    ensures id !in owners && (exists o :: o in owners && SamePerson(t, o, id)) ==> IdentityRank(t, owners, id) == ADMIN
    ensures id !in owners && id in t.identities && t.identities[id].person in t.people && (forall o :: o in owners ==> !SamePerson(t, o, id)) ==>
              IdentityRank(t, owners, id) == match t.people[t.identities[id].person].rank { case Member => MEMBER case Mod => MOD case Admin => ADMIN }
    ensures RankOf(t, owners, id) == OWNER <==> id in owners || exists o :: o in owners && SamePerson(t, o, id)
  {
  }

  predicate SamePerson(t: Tables, a: Identity, b: Identity) {
    a in t.identities && b in t.identities && t.identities[a].person == t.identities[b].person
  }

  /** me has at least this rank, target is somebody else, no owner, and ranks lower. */
  predicate Outranks(t: Tables, owners: set<Identity>, me: Identity, target: Identity, least: Rank) {
    && IdentityRank(t, owners, me) >= least
    && !SamePerson(t, me, target)
    && RankOf(t, owners, target) < OWNER
    && RankOf(t, owners, target) < IdentityRank(t, owners, me)
  }

  lemma MayIsOutranks(t: Tables, owners: set<Identity>, me: Identity, a: Action, target: Identity)
    requires me in t.identities && (a.Kick? || a.Ban? || a.Rename? || a.MakeMod? || a.MakeAdmin? || a.Demote?)
    ensures May(WhoIs(t, owners, me), a, Some(WhoIs(t, owners, target)))
            <==> Outranks(t, owners, me, target, if a.Kick? || a.Ban? || a.Rename? then MOD else ADMIN)
  {
    RankWithinPerson(t, owners, me);
    hide HasOwner;
  }

  lemma MayUnlink(t: Tables, owners: set<Identity>, me: Identity, target: Identity)
    requires me in t.identities
    ensures May(WhoIs(t, owners, me), UnlinkOther, Some(WhoIs(t, owners, target)))
            <==> SamePerson(t, me, target) || Outranks(t, owners, me, target, MOD)
  {
    RankWithinPerson(t, owners, me);
    hide HasOwner;
  }

  // ---- kicks and bans --------------------------------------------------------------------------------

  /** All apps of the target's person are out and taken apart, and banned if it was a ban. */
  ghost predicate PutOutDone(w: World, w2: World, target: Identity, ban: bool)
    requires target in w.t.identities
  {
    && AllSingle(w.t, w2.t, target)
    && w2.banned == if ban then w.banned + Apps(w.t, w.t.identities[target].person) else w.banned
  }

  lemma RemoveOutcome(w: World, owners: set<Identity>, me: Identity, target: Identity, others: seq<Identity>, rows: seq<PersonId>, ban: bool)
    requires Inv(w, owners) && me in w.t.identities && Listed(w.t, target, others, rows) && |rows| == |others| && target in w.t.identities
    ensures Remove(w, owners, me, target, others, rows, ban).Some?
    ensures var w2 := Remove(w, owners, me, target, others, rows, ban).value;
            if Outranks(w.t, owners, me, target, MOD) then PutOutDone(w, w2, target, ban) else w2 == w
  {
    hide Inv, Valid, Outranks, May, WhoIs, TornApart, AllSingle, Fresh;
    InvValid(w, owners);
    MayIsOutranks(w.t, owners, me, if ban then Ban else Kick, target);
    ListedFits(w.t, target, others, rows);
    TornApartSeparates(w.t, target, others, rows, w.now);
    ListedApps(w.t, target, others);
  }

  lemma ListedApps(t: Tables, id: Identity, others: seq<Identity>)
    requires OtherApps(t, id, others)
    ensures id in t.identities && Apps(t, t.identities[id].person) == {id} + (set o | o in others)
  {
  }

  // ---- ranks ---------------------------------------------------------------------------------------------

  /** The target's person has the rank given, and nothing else has changed. */
  predicate GrantDone(t: Tables, u: Tables, target: Identity, rank: Stored)
    requires target in t.identities
  {
    var p := t.identities[target].person;
    p in t.people && u == t.(people := t.people[p := t.people[p].(rank := rank)])
  }

  lemma GrantOutcome(w: World, owners: set<Identity>, me: Identity, target: Identity, rank: Stored)
    requires Inv(w, owners) && me in w.t.identities && target in w.t.identities
    ensures Grant(w, owners, me, target, rank).Some?
    ensures var w2 := Grant(w, owners, me, target, rank).value;
            if Outranks(w.t, owners, me, target, ADMIN) && RankOf(w.t, owners, target) != Level(rank)
            then GrantDone(w.t, w2.t, target, rank) && w2.banned == w.banned else w2 == w
  {
    hide Inv, Valid, Outranks, May, HasOwner;
    InvValid(w, owners);
    HomeOfValid(w.t, target);
    MayIsOutranks(w.t, owners, me, match rank case Admin => MakeAdmin case Mod => MakeMod case Member => Demote, target);
  }

  lemma HomeOfValid(t: Tables, id: Identity)
    requires Valid(t) && id in t.identities
    ensures t.identities[id].person in t.people
  {
    HomeOf(t, id);
  }

  // ---- unlinking ---------------------------------------------------------------------------------------------

  /** An app of one's own person, or of someone outranked; an owner's own identity only by itself. */
  predicate MayTakeOut(t: Tables, owners: set<Identity>, me: Identity, target: Identity) {
    && (SamePerson(t, me, target) || Outranks(t, owners, me, target, MOD))
    && (target in owners ==> target == me)
  }

  lemma UnlinkOutcome(w: World, owners: set<Identity>, me: Identity, target: Identity, row: PersonId)
    requires Inv(w, owners) && me in w.t.identities && row !in w.t.people && target in w.t.identities
    ensures Unlink(w, owners, me, target, row).Some?
    ensures var w2 := Unlink(w, owners, me, target, row).value;
            if MayTakeOut(w.t, owners, me, target) && !Alone(w.t, target)
            then OneOut(w.t, w2.t, target, row) && w2.banned == w.banned else w2 == w
  {
    hide Inv, Valid, Outranks, May, WhoIs, Alone, OneOut, Unlinked;
    InvValid(w, owners);
    MayUnlink(w.t, owners, me, target);
    if !Alone(w.t, target) {
      UnlinkIsOneOut(w.t, target, row, w.now);
    }
  }

  // ---- names ------------------------------------------------------------------------------------------------

  /** When the claim to a name dates from: spelling it differently is no new claim. */
  function ClaimTime(w: World, p: PersonId, skeleton: string): int {
    if p in w.t.names && w.t.names[p].skeleton == skeleton then w.t.names[p].claimedAt else w.now
  }

  /** id's person holds the name asked for, if it is clean and looks like nobody else's; else nothing has changed. */
  ghost predicate ClaimDone(w: World, w2: World, id: Identity, want: string)
    requires id in w.t.identities
  {
    var c, p := Names.CheckName(want), w.t.identities[id].person;
    if c.Clean? && forall q :: q in w.t.names && q != p ==> w.t.names[q].skeleton != c.skeleton then
      w2 == w.(t := w.t.(names := w.t.names[p := Name(c.name, c.skeleton, ClaimTime(w, p, c.skeleton))]))
    else w2 == w
  }

  lemma ClaimOutcome(w: World, owners: set<Identity>, id: Identity, want: string)
    requires Inv(w, owners) && id in w.t.identities
    ensures ClaimDone(w, Claim(w, id, want), id, want)
  {
    hide Inv, Names.CheckName, Claimed;
    var c, p := Names.CheckName(want), w.t.identities[id].person;
    if c.Clean? {
      ClaimedIs(w, id, c.name, c.skeleton);
      if p in w.t.names && w.t.names[p].name == c.name {
        HeldIsClean(w, owners, p);
        Names.CleanIdempotent(want);
        HeldIsFree(w, owners, p);
        assert w.t.names[p := w.t.names[p]] == w.t.names;
      }
    }
  }

  lemma ClaimedIs(w: World, id: Identity, name: string, skeleton: string)
    requires id in w.t.identities
    ensures var p, r := w.t.identities[id].person, Claimed(w.t, id, name, skeleton, w.now);
            && (r.Ok? <==> forall q :: q in w.t.names && q != p ==> w.t.names[q].skeleton != skeleton)
            && (r.Ok? ==> r.value == w.t.(names := w.t.names[p := Name(name, skeleton, ClaimTime(w, p, skeleton))]))
  {
  }

  lemma HeldIsFree(w: World, owners: set<Identity>, p: PersonId)
    requires Inv(w, owners) && p in w.t.names
    ensures forall q :: q in w.t.names && q != p ==> w.t.names[q].skeleton != w.t.names[p].skeleton
  {
    assert UniqueSkeletons(w.t);
    hide Homed, Peopled, NamesHeld, IgnoresOk, WhispersOk, CodesHeld, CodesOk, OneLive, NamesClean, IssuesOk, GuessesOk, LinkedOnce;
  }

  lemma HeldIsClean(w: World, owners: set<Identity>, p: PersonId)
    requires Inv(w, owners) && p in w.t.names
    ensures Names.CheckName(w.t.names[p].name) == Names.Clean(w.t.names[p].name, w.t.names[p].skeleton)
  {
    assert NamesClean(w.t);
  }

  lemma RenameOutcome(w: World, owners: set<Identity>, me: Identity, target: Identity, want: string)
    requires Inv(w, owners) && me in w.t.identities && target in w.t.identities
    ensures var w2 := RenameOther(w, owners, me, target, want);
            if Outranks(w.t, owners, me, target, MOD) then ClaimDone(w, w2, target, want) else w2 == w
  {
    hide Inv, Outranks, May, WhoIs, Claim, ClaimDone;
    MayIsOutranks(w.t, owners, me, Ranks.Rename, target);
    ClaimOutcome(w, owners, target, want);
  }

  /** Only an owner takes a name away. */
  lemma ReleaseOutcome(w: World, owners: set<Identity>, me: Identity, target: Identity)
    requires target in w.t.identities
    ensures var w2 := ReleaseOther(w, owners, me, target);
            if me in owners then w2 == w.(t := w.t.(names := w.t.names - {w.t.identities[target].person})) else w2 == w
  {
    hide HasOwner;
  }

  // ---- lifting bans ---------------------------------------------------------------------------------------

  lemma LiftOutcome(w: World, owners: set<Identity>, me: Identity, ids: set<Identity>)
    requires me in w.t.identities
    ensures LiftSome(w, owners, me, ids) == if IdentityRank(w.t, owners, me) >= MOD then w.(banned := w.banned - ids) else w
  {
    hide IdentityRank, PersonRank;
  }

  // ---- /forget, ignores, whispers ----------------------------------------------------------------------

  /** The other apps are on their own, the name is free, the rank and everyone else stay. */
  lemma ForgetOutcome(w: World, owners: set<Identity>, me: Identity, others: seq<Identity>, rows: seq<PersonId>)
    requires Inv(w, owners) && Listed(w.t, me, others, rows) && |rows| == |others|
    ensures var u := Forget(w, me, others, rows).t;
            && me in w.t.identities && me in u.identities && u.identities[me] == w.t.identities[me] && Alone(u, me)
            && (forall o :: o in others ==> Single(u, o))
            && (forall i :: i in w.t.identities && i !in others ==> SameFor(w.t, u, i))
            && u.names == w.t.names - {w.t.identities[me].person}
  {
    hide Inv, Valid, UnlinkEach, Fresh, Separated, Alone, Single, SameFor;
    InvValid(w, owners);
    ListedFits(w.t, me, others, rows);
    OthersAreFellows(w.t, me, others);
    UnlinkEachSeparates(w.t, me, others, rows, w.now);
    var m := UnlinkEach(w.t, others, rows, w.now);
    AloneAfter(w.t, m, me, others);
    ForgetFrees(w.t, m, Released(m, me), me, others);
  }

  lemma OthersAreFellows(t: Tables, id: Identity, others: seq<Identity>)
    requires OtherApps(t, id, others)
    ensures FellowApps(t, id, others)
  {
  }

  lemma ForgetFrees(t: Tables, m: Tables, u: Tables, me: Identity, others: seq<Identity>)
    requires Separated(t, m, others) && me in t.identities && me in m.identities && m.identities[me] == t.identities[me] && Alone(m, me) && u == Released(m, me)
    ensures me in u.identities && u.identities[me] == t.identities[me] && Alone(u, me)
    ensures forall o :: o in others ==> Single(u, o)
    ensures forall i :: i in t.identities && i !in others ==> SameFor(t, u, i)
    ensures u.names == t.names - {t.identities[me].person}
  {
  }

  lemma IgnoreOutcome(w: World, owners: set<Identity>, me: Identity, them: Identity)
    requires Inv(w, owners) && me in w.t.identities && them in w.t.identities
    ensures var q, w2 := Pair(w.t.identities[me].person, w.t.identities[them].person), IgnoreThem(w, me, them);
            if q.who == q.ignored then w2 == w
            else w2 == w.(t := w.t.(ignores := w.t.ignores[q := if q in w.t.ignores then w.t.ignores[q] else w.now]))
    ensures UnignoreThem(w, me, them) == w.(t := w.t.(ignores := w.t.ignores - {Pair(w.t.identities[me].person, w.t.identities[them].person)}))
  {
    hide Inv, Valid;
    InvValid(w, owners);
    HomeOfValid(w.t, me);
    HomeOfValid(w.t, them);
    var q := Pair(w.t.identities[me].person, w.t.identities[them].person);
    if q in w.t.ignores {
      assert w.t.ignores[q := w.t.ignores[q]] == w.t.ignores;
    }
  }

  lemma WhisperOutcome(w: World, owners: set<Identity>, to: Identity, row: WhisperId)
    requires Inv(w, owners) && to in w.t.identities && row !in w.t.whispers
    ensures Whisper(w, to, row) == w.(t := w.t.(whispers := w.t.whispers[row := w.t.identities[to].person]))
  {
    hide Inv, Valid;
    InvValid(w, owners);
    HomeOfValid(w.t, to);
  }

  // ---- over every run ------------------------------------------------------------------------------------

  /** In every run a kick or ban has its effect if and only if the caller is a mod at least and outranks the target. */
  lemma RemovalsAreRanked(owners: set<Identity>, ss: seq<Step>, s: Step)
    requires s.Do? && s.cmd.PutOut? && Runs(Run(owners, ss), s) && Listed(Entering(Run(owners, ss), s).t, s.cmd.target, s.cmd.others, s.cmd.rows)
    ensures var e, w2 := Entering(Run(owners, ss), s), Next(Run(owners, ss), owners, s);
            && s.cmd.target in e.t.identities
            && if Outranks(e.t, owners, s.me, s.cmd.target, MOD) then PutOutDone(e, w2, s.cmd.target, s.cmd.ban) else w2 == e
  {
    hide Inv, Outranks, PutOutDone, Remove, Run, Next, Exec, Entering, Listed, OtherApps, Fresh, Runs;
    var w := Run(owners, ss);
    RunKeeps(owners, ss);
    EnteringSame(w, owners, s);
    NextRuns(w, owners, s);
    var e := Entering(w, s);
    ListedFits(e.t, s.cmd.target, s.cmd.others, s.cmd.rows);
    ListedApps(e.t, s.cmd.target, s.cmd.others);
    ListedRemoves(e, owners, s);
    RemoveOutcome(e, owners, s.me, s.cmd.target, s.cmd.others, s.cmd.rows, s.cmd.ban);
  }

  /** Of all commands only a ban, and the lifting of one, says who is banned. */
  lemma ExecBanned(w: World, owners: set<Identity>, me: Identity, cmd: Cmd)
    requires Inv(w, owners) && me in w.t.identities && Exec(w, owners, me, cmd).Some? && !cmd.PutOut?
    ensures Exec(w, owners, me, cmd).value.banned <= w.banned
  {
    hide Inv, Limits.DoIssue, Limits.DoGuess, Apps, PersonRank, Refused, HubLinked, May, WhoIs, IdentityRank, Alone, Unlinked, UnlinkEach, Names.CheckName, TakenByOther, Listed, PutCode;
  }

  /** In every run, whoever is newly banned by a step is an app of someone whom the caller, a mod at least, outranks; never an owner's. */
  lemma BansAreRanked(owners: set<Identity>, ss: seq<Step>, s: Step, i: Identity)
    requires i !in Run(owners, ss).banned && i in Next(Run(owners, ss), owners, s).banned
    ensures s.Do? && s.cmd.PutOut? && s.cmd.ban && Runs(Run(owners, ss), s)
    ensures var e := Entering(Run(owners, ss), s);
            SamePerson(e.t, i, s.cmd.target) && Outranks(e.t, owners, s.me, s.cmd.target, MOD) && i !in owners
  {
    var w := Run(owners, ss);
    hide Run, Inv, Exec, Outranks, Listed, AllSingle, Entering;
    RunKeeps(owners, ss);
    if s.Do? && Runs(w, s) {
      EnteringSame(w, owners, s);
      NextRuns(w, owners, s);
      var e := Entering(w, s);
      hide Next;
      if s.cmd.PutOut? {
        AbortedUnlisted(e, owners, s);
        RemovalsAreRanked(owners, ss, s);
        AppsAreNoOwners(e.t, owners, s.me, s.cmd.target, i);
      } else if Exec(e, owners, s.me, s.cmd).Some? {
        ExecBanned(e, owners, s.me, s.cmd);
      }
    }
  }

  lemma ListedRemoves(w: World, owners: set<Identity>, s: Step)
    requires s.Do? && s.cmd.PutOut? && Listed(w.t, s.cmd.target, s.cmd.others, s.cmd.rows) && |s.cmd.rows| == |s.cmd.others|
    ensures Exec(w, owners, s.me, s.cmd) == Remove(w, owners, s.me, s.cmd.target, s.cmd.others, s.cmd.rows, s.cmd.ban)
  {
    hide Remove, Listed;
  }

  lemma AbortedUnlisted(w: World, owners: set<Identity>, s: Step)
    requires s.Do? && s.cmd.PutOut?
    ensures !Listed(w.t, s.cmd.target, s.cmd.others, s.cmd.rows) ==> Exec(w, owners, s.me, s.cmd).None?
  {
    hide Remove, Listed;
  }

  lemma AppsAreNoOwners(t: Tables, owners: set<Identity>, me: Identity, target: Identity, i: Identity)
    requires target in t.identities
    ensures Outranks(t, owners, me, target, MOD) && i in Apps(t, t.identities[target].person) ==> i !in owners && SamePerson(t, i, target)
  {
  }
}
