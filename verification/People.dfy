/**
 The tables about people: identities (apps) grouped into persons, the names
 persons hold, whom they ignore, the whispers sent to them and the link codes
 they have issued.
 */
module People {
  import opened Common

  /** Stored ranks; owners come from the configuration and are not stored. */
  datatype Stored = Member | Mod | Admin

  datatype Person = Person(rank: Stored, prefs: nat)

  const DEFAULT_PREFS: nat := 0

  /** Where an identity belongs, and since when. */
  datatype Home = Home(person: PersonId, since: int)

  datatype Name = Name(name: string, skeleton: string, claimedAt: int)

  datatype Pair = Pair(who: PersonId, ignored: PersonId)

  datatype Hash = Hash(sum: nat)
  datatype WhisperId = WhisperId(row: nat)

  datatype Code = Code(person: PersonId, issuedBy: Identity, expiresAt: int, redeemedBy: Option<Identity>)

  /** ignores maps each pair to when it was made. */
  datatype Tables = Tables(
    identities: map<Identity, Home>,
    people: map<PersonId, Person>,
    names: map<PersonId, Name>,
    ignores: map<Pair, int>,
    whispers: map<WhisperId, PersonId>,
    codes: map<Hash, Code>)

  const NOBODY := Tables(map[], map[], map[], map[], map[], map[])

  datatype Error = NotFound | NameTaken | PersonHasName | IgnoreSelf

  datatype Result<T> = Ok(value: T) | Err(error: Error)

  function Apps(t: Tables, p: PersonId): set<Identity> {
    set id | id in t.identities && t.identities[id].person == p
  }

  /** id is its person's only app. */
  predicate Alone(t: Tables, id: Identity)
    requires id in t.identities
  {
    forall other :: other in t.identities && t.identities[other].person == t.identities[id].person ==> other == id
  }

  // ---- the operations ---------------------------------------------------------

  /** A new identity is a person of its own; row is the number the table gives it. */
  function Touched(t: Tables, id: Identity, row: PersonId, now: int): Tables
    requires row !in t.people
  {
    if id in t.identities then t
    else t.(people := t.people[row := Person(Member, DEFAULT_PREFS)], identities := t.identities[id := Home(row, now)])
  }

  predicate TakenByOther(t: Tables, p: PersonId, skeleton: string) {
    exists q :: q in t.names && q != p && t.names[q].skeleton == skeleton
  }

  /** Re-spelling a name with the same skeleton keeps its claim time. */
  function Claimed(t: Tables, id: Identity, name: string, skeleton: string, now: int): Result<Tables> {
    if id !in t.identities then Err(NotFound)
    else
      var p := t.identities[id].person;
      if TakenByOther(t, p, skeleton) then Err(NameTaken)
      else
        var at := if p in t.names && t.names[p].skeleton == skeleton then t.names[p].claimedAt else now;
        Ok(t.(names := t.names[p := Name(name, skeleton, at)]))
  }

  function Released(t: Tables, id: Identity): Tables {
    if id in t.identities then t.(names := t.names - {t.identities[id].person}) else t
  }

  function Rename(p: PersonId, from: PersonId, to: PersonId): PersonId {
    if p == from then to else p
  }

  function RenamePair(q: Pair, from: PersonId, to: PersonId): Pair {
    Pair(Rename(q.who, from, to), Rename(q.ignored, from, to))
  }

  /** The ignores with from renamed to to, less self-pairs. */
  function RenamedPairs(ignores: map<Pair, int>, from: PersonId, to: PersonId): set<Pair> {
    set q | q in ignores && RenamePair(q, from, to).who != RenamePair(q, from, to).ignored :: RenamePair(q, from, to)
  }

  /** A pair made before keeps its time; otherwise it takes over the time of the one it came from. */
  function PairTime(ignores: map<Pair, int>, from: PersonId, to: PersonId, q: Pair): int {
    if q in ignores then ignores[q]
    else if q.who == to && Pair(from, q.ignored) in ignores then ignores[Pair(from, q.ignored)]
    else if Pair(q.who, from) in ignores then ignores[Pair(q.who, from)]
    else 0
  }

  function MergedIgnores(ignores: map<Pair, int>, from: PersonId, to: PersonId): map<Pair, int> {
    map q | q in RenamedPairs(ignores, from, to) :: PairTime(ignores, from, to, q)
  }

  function MergedWhispers(whispers: map<WhisperId, PersonId>, from: PersonId, to: PersonId): map<WhisperId, PersonId> {
    map w | w in whispers :: Rename(whispers[w], from, to)
  }

  function OthersCodes(codes: map<Hash, Code>, from: PersonId): map<Hash, Code> {
    map h | h in codes && codes[h].person != from :: codes[h]
  }

  function Moved(t: Tables, id: Identity, to: PersonId, now: int): Tables {
    t.(identities := t.identities[id := Home(to, now)])
  }

  /** from is gone; what pointed at it points at to, and its codes are dropped. */
  function Merged(t: Tables, from: PersonId, to: PersonId): Tables {
    t.(people := t.people - {from},
       ignores := MergedIgnores(t.ignores, from, to),
       whispers := MergedWhispers(t.whispers, from, to),
       codes := OthersCodes(t.codes, from))
  }

  function Linked(t: Tables, id: Identity, to: PersonId, now: int): Result<Tables> {
    if id !in t.identities then Err(NotFound)
    else
      var from := t.identities[id].person;
      if from == to then Ok(t)
      else if to !in t.people then Err(NotFound)
      else if Alone(t, id) && from in t.names then Err(PersonHasName)
      else if Alone(t, id) then Ok(Merged(Moved(t, id, to, now), from, to))
      else Ok(Moved(t, id, to, now))
  }

  /** The new person has a copy of the preferences, but no name and no rank. */
  function Unlinked(t: Tables, id: Identity, row: PersonId, now: int): Result<Tables>
    requires row !in t.people
  {
    if id !in t.identities || t.identities[id].person !in t.people then Err(NotFound)
    else if Alone(t, id) then Ok(t)
    else
      var prefs := t.people[t.identities[id].person].prefs;
      Ok(Moved(t.(people := t.people[row := Person(Member, prefs)]), id, row, now))
  }

  function Ranked(t: Tables, id: Identity, rank: Stored): Result<Tables> {
    if id !in t.identities || t.identities[id].person !in t.people then Err(NotFound)
    else
      var p := t.identities[id].person;
      Ok(t.(people := t.people[p := Person(rank, t.people[p].prefs)]))
  }

  /** Ignoring again keeps the original time. */
  function Ignored(t: Tables, q: Pair, at: int): Result<Tables> {
    if q.who == q.ignored then Err(IgnoreSelf)
    else if q.who !in t.people || q.ignored !in t.people then Err(NotFound)
    else Ok(if q in t.ignores then t else t.(ignores := t.ignores[q := at]))
  }

  function Unignored(t: Tables, q: Pair): Tables {
    t.(ignores := t.ignores - {q})
  }

  function Whispered(t: Tables, w: WhisperId, to: PersonId): Result<Tables> {
    if to in t.people && w !in t.whispers then Ok(t.(whispers := t.whispers[w := to])) else Err(NotFound)
  }

  // ---- the store --------------------------------------------------------------

  class Store {
    var identities: map<Identity, Home>
    var people: map<PersonId, Person>
    var names: map<PersonId, Name>
    var ignores: map<Pair, int>
    var whispers: map<WhisperId, PersonId>
    var codes: map<Hash, Code>

    constructor ()
      ensures View() == NOBODY
    {
      identities, people, names, ignores, whispers, codes := map[], map[], map[], map[], map[], map[];
    }

    ghost function View(): Tables
      reads this
    {
      Tables(identities, people, names, ignores, whispers, codes)
    }

    method TouchIdentity(id: Identity, row: PersonId, now: int)
      requires row !in people
      modifies this`identities, this`people
      ensures View() == Touched(old(View()), id, row, now)
    {
      if id in identities {
        return;
      }
      people := people[row := Person(Member, DEFAULT_PREFS)];
      identities := identities[id := Home(row, now)];
    }

    /** The person holding a skeleton, if any does. */
    method NameBySkeleton(skeleton: string) returns (holder: Option<PersonId>)
      ensures holder.Some? ==> holder.value in names && names[holder.value].skeleton == skeleton
      ensures holder.None? ==> forall q :: q in names ==> names[q].skeleton != skeleton
    {
      var todo := names.Keys;
      while todo != {}
        invariant todo <= names.Keys
        invariant forall q :: q in names && q !in todo ==> names[q].skeleton != skeleton
      {
        var q :| q in todo;
        if names[q].skeleton == skeleton {
          return Some(q);
        }
        todo := todo - {q};
      }
      return None;
    }

    method ClaimName(id: Identity, name: string, skeleton: string, now: int) returns (r: Option<Error>)
      requires UniqueSkeletons(View())
      modifies this`names
      ensures Claimed(old(View()), id, name, skeleton, now) == if r.None? then Ok(View()) else Err(r.value)
      ensures r.Some? ==> View() == old(View())
    {
      if id !in identities {
        return Some(NotFound);
      }
      var p := identities[id].person;
      var holder := NameBySkeleton(skeleton);
      if holder.Some? && holder.value != p {
        return Some(NameTaken);
      }
      var at := if holder.Some? then names[p].claimedAt else now;
      names := names[p := Name(name, skeleton, at)];
      return None;
    }

    method ReleaseName(id: Identity) returns (freed: Option<Name>)
      modifies this`names
      ensures View() == Released(old(View()), id)
      ensures freed == if id in identities && identities[id].person in old(names) then Some(old(names)[identities[id].person]) else None
    {
      if id !in identities || identities[id].person !in names {
        return None;
      }
      freed := Some(names[identities[id].person]);
      names := names - {identities[id].person};
    }

    method UnlinkIdentity(id: Identity, row: PersonId, now: int) returns (r: Option<Error>)
      requires row !in people
      modifies this`people, this`identities
      ensures Unlinked(old(View()), id, row, now) == if r.None? then Ok(View()) else Err(r.value)
      ensures r.Some? ==> View() == old(View())
    {
      if id !in identities || identities[id].person !in people {
        return Some(NotFound);
      }
      var p := identities[id].person;
      var others := set o | o in identities && identities[o].person == p && o != id;
      assert others == Apps(View(), p) - {id};
      AloneHasNoOthers(View(), id);
      if others != {} {
        people := people[row := Person(Member, people[p].prefs)];
        identities := identities[id := Home(row, now)];
      }
      return None;
    }

    method SetRank(id: Identity, rank: Stored) returns (r: Option<Error>)
      modifies this`people
      ensures Ranked(old(View()), id, rank) == if r.None? then Ok(View()) else Err(r.value)
      ensures r.Some? ==> View() == old(View())
    {
      if id !in identities || identities[id].person !in people {
        return Some(NotFound);
      }
      var p := identities[id].person;
      people := people[p := Person(rank, people[p].prefs)];
      return None;
    }

    method Ignore(who: PersonId, whom: PersonId, at: int) returns (r: Option<Error>)
      modifies this`ignores
      ensures Ignored(old(View()), Pair(who, whom), at) == if r.None? then Ok(View()) else Err(r.value)
      ensures r.Some? ==> View() == old(View())
    {
      if who == whom {
        return Some(IgnoreSelf);
      }
      if who !in people || whom !in people {
        return Some(NotFound);
      }
      if Pair(who, whom) !in ignores {
        ignores := ignores[Pair(who, whom) := at];
      }
      return None;
    }

    /** Statement by statement: move the identity; if its person is left empty, move what points at it and delete it. */
    method LinkIdentity(id: Identity, to: PersonId, now: int) returns (r: Option<Error>)
      requires IgnoresOk(View())
      modifies this
      ensures Linked(old(View()), id, to, now) == if r.None? then Ok(View()) else Err(r.value)
      ensures r.Some? ==> View() == old(View())
    {
      if id !in identities {
        return Some(NotFound);
      }
      var from := identities[id].person;
      if from == to {
        return None;
      }
      if to !in people {
        return Some(NotFound);
      }
      var others := set o | o in identities && identities[o].person == from && o != id;
      assert others == Apps(View(), from) - {id};
      AloneHasNoOthers(View(), id);
      if others == {} && from in names {
        return Some(PersonHasName);
      }
      identities := identities[id := Home(to, now)];
      if others != {} {
        return None;
      }
      MergeInto(from, to);
      return None;
    }

    method MergeInto(from: PersonId, to: PersonId)
      requires from != to && forall q :: q in ignores ==> q.who != q.ignored
      modifies this`people, this`ignores, this`whispers, this`codes
      ensures View() == Merged(old(View()), from, to)
    {
      whispers := map w | w in whispers :: if whispers[w] == from then to else whispers[w];
      ignores := MergeIgnores(ignores, from, to);
      DeletePerson(from);
      assert forall q :: q in RenamedPairs(old(ignores), from, to) ==> q.who != from && q.ignored != from;
      assert ignores == MergedIgnores(old(ignores), from, to);
      assert whispers == MergedWhispers(old(whispers), from, to);
    }

    /** Deleting a person takes its codes, and every ignore of or by it, along. */
    method DeletePerson(from: PersonId)
      modifies this`people, this`ignores, this`codes
      ensures people == old(people) - {from}
      ensures ignores == (map q | q in old(ignores) && q.who != from && q.ignored != from :: old(ignores)[q])
      ensures codes == OthersCodes(old(codes), from)
    {
      people := people - {from};
      ignores := map q | q in ignores && q.who != from && q.ignored != from :: ignores[q];
      codes := map h | h in codes && codes[h].person != from :: codes[h];
    }
  }

  lemma AloneHasNoOthers(t: Tables, id: Identity)
    requires id in t.identities
    ensures Alone(t, id) <==> Apps(t, t.identities[id].person) - {id} == {}
  {
    var others := Apps(t, t.identities[id].person) - {id};
    if Alone(t, id) {
      assert forall o :: o !in others;
    } else {
      var o :| o in t.identities && t.identities[o].person == t.identities[id].person && o != id;
      assert o in others;
    }
  }

  /** The ignores as the two INSERT OR IGNORE statements leave them: rows already there win. */
  method MergeIgnores(ignores: map<Pair, int>, from: PersonId, to: PersonId) returns (out: map<Pair, int>)
    requires from != to && forall q :: q in ignores ==> q.who != q.ignored
    ensures forall q: Pair :: q.who != from && q.ignored != from ==> (q in out <==> q in RenamedPairs(ignores, from, to))
    ensures forall q: Pair :: q.who != from && q.ignored != from && q in out ==> out[q] == PairTime(ignores, from, to, q)
  {
    var made := map q | q in ignores && q.who == from && q.ignored != to :: Pair(to, q.ignored) := ignores[q];
    out := made + ignores;
    made := map q | q in out && q.ignored == from && q.who != to :: Pair(q.who, to) := out[q];
    out := made + out;
    forall q: Pair | q.who != from && q.ignored != from
      ensures q in out <==> q in RenamedPairs(ignores, from, to)
      ensures q in out ==> out[q] == PairTime(ignores, from, to, q)
    {
      MergedPair(ignores, from, to, q);
    }
  }

  /** Where a pair of the merged relation comes from. */
  lemma MergedPair(ignores: map<Pair, int>, from: PersonId, to: PersonId, q: Pair)
    requires from != to && forall q :: q in ignores ==> q.who != q.ignored
    requires q.who != from && q.ignored != from
    ensures q in RenamedPairs(ignores, from, to) <==>
            || q in ignores
            || (q.who == to && q.ignored != to && Pair(from, q.ignored) in ignores)
            || (q.ignored == to && q.who != to && Pair(q.who, from) in ignores)
  {
    if q in ignores {
      assert RenamePair(q, from, to) == q;
    }
    if q.who == to && q.ignored != to && Pair(from, q.ignored) in ignores {
      assert RenamePair(Pair(from, q.ignored), from, to) == q;
    }
    if q.ignored == to && q.who != to && Pair(q.who, from) in ignores {
      assert RenamePair(Pair(q.who, from), from, to) == q;
    }
  }

  // ---- what the tables keep -----------------------------------------------------

  /** Every identity is part of a person that exists. */
  ghost predicate Homed(t: Tables) {
    forall id :: id in t.identities ==> t.identities[id].person in t.people
  }

  /** No person is without apps. */
  ghost predicate Peopled(t: Tables) {
    forall p :: p in t.people ==> exists id :: id in t.identities && t.identities[id].person == p
  }

  ghost predicate NamesHeld(t: Tables) {
    forall p :: p in t.names ==> p in t.people
  }

  ghost predicate UniqueSkeletons(t: Tables) {
    forall p, q :: p in t.names && q in t.names && p != q ==> t.names[p].skeleton != t.names[q].skeleton
  }

  ghost predicate IgnoresOk(t: Tables) {
    forall q :: q in t.ignores ==> q.who != q.ignored && q.who in t.people && q.ignored in t.people
  }

  ghost predicate WhispersOk(t: Tables) {
    forall w :: w in t.whispers ==> t.whispers[w] in t.people
  }

  ghost predicate CodesHeld(t: Tables) {
    forall h :: h in t.codes ==> t.codes[h].person in t.people
  }

  ghost predicate Valid(t: Tables) {
    && Homed(t) && Peopled(t) && NamesHeld(t) && UniqueSkeletons(t)
    && IgnoresOk(t) && WhispersOk(t) && CodesHeld(t)
  }
}
