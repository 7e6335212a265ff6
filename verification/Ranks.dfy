/** Ranks on the hub and the rank rule: who may act on whom. */
module Ranks {
  import opened Common
  import opened People

  /** 0 member, 1 mod, 2 admin, 3 owner. */
  type Rank = r: nat | r <= 3

  const MEMBER: Rank := 0
  const MOD: Rank := 1
  const ADMIN: Rank := 2
  const OWNER: Rank := 3

  function Level(stored: Stored): Rank {
    match stored
    case Member => MEMBER
    case Mod => MOD
    case Admin => ADMIN
  }

  function StoredRank(t: Tables, p: PersonId): Rank {
    if p in t.people then Level(t.people[p].rank) else MEMBER
  }

  predicate HasOwner(t: Tables, owners: set<Identity>, p: PersonId) {
    exists id :: id in owners && id in t.identities && t.identities[id].person == p
  }

  /** A person ranks as its highest app. */
  function PersonRank(t: Tables, owners: set<Identity>, p: PersonId): Rank {
    if HasOwner(t, owners, p) then OWNER else StoredRank(t, p)
  }

  /** An owner's own identity is an owner; the other apps of an owner are admins. */
  function IdentityRank(t: Tables, owners: set<Identity>, id: Identity): Rank {
    if id in owners then OWNER
    else if id !in t.identities then MEMBER
    else
      var p := t.identities[id].person;
      if HasOwner(t, owners, p) then Max(ADMIN, StoredRank(t, p)) else StoredRank(t, p)
  }

  /** Someone as a command sees them. */
  datatype Who = Who(person: Option<PersonId>, rank: Rank, personRank: Rank)

  function WhoIs(t: Tables, owners: set<Identity>, id: Identity): Who {
    var rank := IdentityRank(t, owners, id);
    if id in t.identities then Who(Some(t.identities[id].person), rank, PersonRank(t, owners, t.identities[id].person))
    else Who(None, rank, rank)
  }

  datatype Action =
    | Kick | Ban | Unban | ListBans | Rename | Modlog | MakeMod | MakeAdmin | Demote
    | DevicesOf | UnlinkOther | Release | Stats | Delete

  function MinRank(a: Action): Rank {
    match a
    case MakeMod | MakeAdmin | Demote => ADMIN
    case Release | Stats => OWNER
    case DevicesOf | UnlinkOther | Delete => MEMBER
    case _ => MOD
  }

  predicate HasTarget(a: Action) {
    !(a.Unban? || a.ListBans? || a.Modlog? || a.Release? || a.Stats?)
  }

  predicate OnYourself(a: Action) {
    a.DevicesOf? || a.UnlinkOther? || a.Delete?
  }

  function May(actor: Who, a: Action, target: Option<Who>): bool {
    if actor.rank < MinRank(a) then false
    else if !HasTarget(a) || target.None? then true
    else if actor.person.Some? && actor.person == target.value.person then OnYourself(a)
    else if OnYourself(a) && actor.rank < MOD then false
    else if target.value.personRank == OWNER then false
    else actor.rank == OWNER || target.value.personRank < actor.rank
  }

  /** The rank rule: on someone else, only mods and up, only on lower persons, and never on an owner. */
  lemma RankRule(actor: Who, a: Action, target: Who)
    requires HasTarget(a) && !(actor.person.Some? && actor.person == target.person)
    ensures May(actor, a, Some(target)) <==>
            && actor.rank >= Max(MOD, MinRank(a))
            && target.personRank < OWNER
            && target.personRank < actor.rank
  {
  }

  /** An identity never ranks above its person. */
  lemma RankWithinPerson(t: Tables, owners: set<Identity>, id: Identity)
    requires id in t.identities
    ensures IdentityRank(t, owners, id) <= PersonRank(t, owners, t.identities[id].person)
    ensures id !in owners ==> IdentityRank(t, owners, id) < OWNER
  {
  }
}
