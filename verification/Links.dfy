/**
 The commands that change who is who: claiming names, linking apps with
 one-time codes, approving and undoing links, granting and taking away ranks,
 kicking and banning.
 */
module Links {
  import opened Common
  import opened People
  import opened PeopleLaws
  import opened TearApart
  import opened Ranks
  import Limits
  import Names

  const CODE_TTL: int := 10 * Limits.MINUTE
  const MAX_APPS := 5

  /**
   What has happened so far, for stating properties: when codes were issued to
   each person, when each identity's wrong codes were looked at, which codes
   were ever issued, and how many apps each code linked.
   */
  datatype Log = Log(issued: map<PersonId, seq<int>>, wrong: map<Identity, seq<int>>, codes: set<Hash>, linked: map<Hash, nat>)

  datatype World = World(t: Tables, lim: Limits.Tables, banned: set<Identity>, now: int, log: Log)

  function Times(m: map<Hash, nat>, h: Hash): nat {
    if h in m then m[h] else 0
  }

  // ---- link codes ---------------------------------------------------------------

  predicate Unredeemed(codes: map<Hash, Code>, h: Hash) {
    h in codes && codes[h].redeemedBy.None?
  }

  /** A new code replaces the person's unredeemed ones. */
  function PutCode(codes: map<Hash, Code>, h: Hash, c: Code): map<Hash, Code> {
    (map k | k in codes && !(codes[k].person == c.person && Unredeemed(codes, k)) :: codes[k])[h := c]
  }

  /** h stands for a random code; one that was drawn before never comes up again. */
  function Issue(w: World, me: Identity, h: Hash): World {
    if me !in w.t.identities then w
    else
      var p := w.t.identities[me].person;
      var (lim, answer) := Limits.DoIssue(w.lim, p, w.now);
      if |Apps(w.t, p)| >= MAX_APPS || h in w.log.codes then w
      else if answer.Refused? then w.(lim := lim)
      else
        w.(lim := lim,
           t := w.t.(codes := PutCode(w.t.codes, h, Code(p, me, w.now + CODE_TTL, None))),
           log := w.log.(codes := w.log.codes + {h}, issued := w.log.issued[p := Limits.Times(w.log.issued, p) + [w.now]]))
  }

  /** Unknown, expired and used codes, and those of someone banned, all get the same answer. */
  predicate BadCode(w: World, h: Hash) {
    || h !in w.t.codes
    || w.t.codes[h].expiresAt <= w.now
    || w.t.codes[h].redeemedBy.Some?
    || w.t.codes[h].issuedBy in w.banned
  }

  /** Why a good code is still not taken. */
  predicate Refused(w: World, owners: set<Identity>, me: Identity, c: Code, confirmed: bool)
    requires me in w.t.identities
  {
    var mine := w.t.identities[me].person;
    || c.person == mine
    || me in owners
    || PersonRank(w.t, owners, mine) > PersonRank(w.t, owners, c.person)
    || |Apps(w.t, c.person)| >= MAX_APPS
    || (mine in w.t.names && Alone(w.t, me) && !confirmed)
  }

  function UseCode(w: World, h: Hash): World {
    w.(t := w.t.(codes := w.t.codes - {h}))
  }

  /** me becomes an app of p, by code h. */
  function LinkBy(w: World, me: Identity, p: PersonId, h: Hash): Option<World> {
    var r := HubLinked(w.t, me, p, w.now);
    if r.Err? then None
    else Some(UseCode(w.(t := r.value, log := w.log.(linked := w.log.linked[h := Times(w.log.linked, h) + 1])), h))
  }

  function AwaitApproval(w: World, me: Identity, h: Hash): World
    requires h in w.t.codes
  {
    var c := w.t.codes[h];
    w.(t := w.t.(codes := w.t.codes[h := Code(c.person, c.issuedBy, c.expiresAt, Some(me))]))
  }

  function Guessed(w: World, me: Identity, wrong: bool): World {
    var (lim, answer) := Limits.DoGuess(w.lim, me, wrong, w.now);
    w.(lim := lim,
       log := if wrong && answer.Allowed? then w.log.(wrong := w.log.wrong[me := Limits.Times(w.log.wrong, me) + [w.now]]) else w.log)
  }

  predicate LockedOut(w: World, me: Identity) {
    Limits.DoGuess(w.lim, me, false, w.now).1.Refused?
  }

  function Redeem(w: World, owners: set<Identity>, me: Identity, h: Hash, confirmed: bool): Option<World> {
    if me !in w.t.identities then None
    else if LockedOut(w, me) then Some(Guessed(w, me, false))
    else if BadCode(w, h) then Some(Guessed(w, me, true))
    else RedeemGood(w, owners, me, h, confirmed)
  }

  /** A good code links the app, or waits for approval when the person has a rank. */
  function RedeemGood(w: World, owners: set<Identity>, me: Identity, h: Hash, confirmed: bool): Option<World>
    requires me in w.t.identities && h in w.t.codes
  {
    var c := w.t.codes[h];
    if Refused(w, owners, me, c, confirmed) then Some(w)
    else if PersonRank(w.t, owners, c.person) >= MOD then Some(AwaitApproval(w, me, h))
    else LinkBy(w, me, c.person, h)
  }

  /** An app of p answers a redeemed code of p that has not expired. */
  function Decide(w: World, me: Identity, h: Hash, approve: bool): Option<World> {
    if me !in w.t.identities || h !in w.t.codes then Some(w)
    else
      var c := w.t.codes[h];
      if c.person != w.t.identities[me].person || c.redeemedBy.None? || c.expiresAt <= w.now then Some(w)
      else if !approve || c.redeemedBy.value in w.banned then Some(UseCode(w, h))
      else LinkBy(w, c.redeemedBy.value, c.person, h)
  }

  // ---- unlinking, ranks, removal ----------------------------------------------------

  function Unlink(w: World, owners: set<Identity>, me: Identity, target: Identity, row: PersonId): Option<World> {
    if row in w.t.people then None
    else if !May(WhoIs(w.t, owners, me), UnlinkOther, Some(WhoIs(w.t, owners, target))) then Some(w)
    else if target !in w.t.identities || Alone(w.t, target) then Some(w)
    else if target in owners && target != me then Some(w)
    else
      var r := Unlinked(w.t, target, row, w.now);
      if r.Err? then None else Some(w.(t := r.value))
  }

  function Grant(w: World, owners: set<Identity>, me: Identity, target: Identity, rank: Stored): Option<World> {
    var action := match rank case Admin => MakeAdmin case Mod => MakeMod case Member => Demote;
    var who := WhoIs(w.t, owners, target);
    if !May(WhoIs(w.t, owners, me), action, Some(who)) || who.personRank == Level(rank) then Some(w)
    else
      var r := Ranked(w.t, target, rank);
      if r.Err? then None else Some(w.(t := r.value))
  }

  /** Kick or ban: others are the target's further apps, rows the numbers of the persons they become. */
  function Remove(w: World, owners: set<Identity>, me: Identity, target: Identity, others: seq<Identity>, rows: seq<PersonId>, ban: bool): Option<World>
    requires |rows| == |others|
  {
    if !May(WhoIs(w.t, owners, me), if ban then Ban else Kick, Some(WhoIs(w.t, owners, target))) then Some(w)
    else
      Some(w.(t := TornApart(w.t, target, others, rows, w.now),
              banned := if ban then w.banned + {target} + (set o | o in others) else w.banned))
  }

  /** /forget: the other apps go their own way and the name is freed; the rank stays. */
  function Forget(w: World, me: Identity, others: seq<Identity>, rows: seq<PersonId>): World
    requires |rows| == |others|
  {
    w.(t := Released(UnlinkEach(w.t, others, rows, w.now), me))
  }

  // ---- names ----------------------------------------------------------------------

  /** Asking for the name you hold changes nothing. */
  function Claim(w: World, id: Identity, want: string): World {
    match Names.CheckName(want)
    case Refused(_) => w
    case Clean(name, skeleton) =>
      if id in w.t.identities && w.t.identities[id].person in w.t.names && w.t.names[w.t.identities[id].person].name == name then w
      else
        var r := Claimed(w.t, id, name, skeleton, w.now);
        if r.Ok? then w.(t := r.value) else w
  }

  function RenameOther(w: World, owners: set<Identity>, me: Identity, target: Identity, want: string): World {
    if May(WhoIs(w.t, owners, me), Ranks.Rename, Some(WhoIs(w.t, owners, target))) then Claim(w, target, want) else w
  }

  function ReleaseOther(w: World, owners: set<Identity>, me: Identity, target: Identity): World {
    if IdentityRank(w.t, owners, me) >= OWNER then w.(t := Released(w.t, target)) else w
  }

  // ---- the rest ---------------------------------------------------------------------

  function IgnoreThem(w: World, me: Identity, them: Identity): World {
    if me !in w.t.identities || them !in w.t.identities then w
    else
      var r := Ignored(w.t, Pair(w.t.identities[me].person, w.t.identities[them].person), w.now);
      if r.Ok? then w.(t := r.value) else w
  }

  function UnignoreThem(w: World, me: Identity, them: Identity): World {
    if me !in w.t.identities || them !in w.t.identities then w
    else w.(t := Unignored(w.t, Pair(w.t.identities[me].person, w.t.identities[them].person)))
  }

  function Whisper(w: World, to: Identity, row: WhisperId): World {
    if to !in w.t.identities then w
    else
      var r := Whispered(w.t, row, w.t.identities[to].person);
      if r.Ok? then w.(t := r.value) else w
  }

  function LiftSome(w: World, owners: set<Identity>, me: Identity, ids: set<Identity>): World {
    if May(WhoIs(w.t, owners, me), Ranks.Unban, None) then w.(banned := w.banned - ids) else w
  }

  function LiveCodes(codes: map<Hash, Code>, now: int): map<Hash, Code> {
    map h | h in codes && codes[h].expiresAt > now :: codes[h]
  }

  /** The clean-up every minute: counters, expired codes, and bans that have run out. */
  function Maintain(w: World, c: Limits.Config, lifted: set<Identity>): World {
    w.(lim := Limits.Evicted(w.lim, c, w.now), t := w.t.(codes := LiveCodes(w.t.codes, w.now)), banned := w.banned - lifted)
  }
}
