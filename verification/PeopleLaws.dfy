/**
 What every operation on the people tables keeps, and what linking two apps
 does to everything that pointed at the person it empties.
 */
module PeopleLaws {
  import opened Common
  import opened People

  // ---- what an operation leaves alone --------------------------------------------

  lemma NamesKept(t: Tables, u: Tables)
    requires NamesHeld(t) && UniqueSkeletons(t) && u.names == t.names && t.people.Keys <= u.people.Keys
    ensures NamesHeld(u) && UniqueSkeletons(u)
  {
  }

  lemma IgnoresKept(t: Tables, u: Tables)
    requires IgnoresOk(t) && u.ignores == t.ignores && t.people.Keys <= u.people.Keys
    ensures IgnoresOk(u)
  {
  }

  lemma WhispersKept(t: Tables, u: Tables)
    requires WhispersOk(t) && u.whispers == t.whispers && t.people.Keys <= u.people.Keys
    ensures WhispersOk(u)
  {
  }

  lemma CodesKept(t: Tables, u: Tables)
    requires CodesHeld(t) && u.codes == t.codes && t.people.Keys <= u.people.Keys
    ensures CodesHeld(u)
  {
  }

  lemma GroupingKept(t: Tables, u: Tables)
    requires Homed(t) && Peopled(t) && u.people.Keys == t.people.Keys && u.identities == t.identities
    ensures Homed(u) && Peopled(u)
  {
  }

  // ---- persons and names -----------------------------------------------------------

  lemma TouchedKeeps(t: Tables, id: Identity, row: PersonId, now: int)
    requires Valid(t) && row !in t.people
    ensures Valid(Touched(t, id, row, now))
  {
    hide Homed, Peopled, NamesHeld, UniqueSkeletons, IgnoresOk, WhispersOk, CodesHeld;
    var u := Touched(t, id, row, now);
    if id !in t.identities {
      AddedPerson(t, u, id, row);
      NamesKept(t, u);
      IgnoresKept(t, u);
      WhispersKept(t, u);
      CodesKept(t, u);
    }
  }

  /** A person added together with its first app. */
  lemma AddedPerson(t: Tables, u: Tables, id: Identity, row: PersonId)
    requires Homed(t) && Peopled(t) && row !in t.people && id !in t.identities
    requires u.people.Keys == t.people.Keys + {row}
    requires u.identities.Keys == t.identities.Keys + {id} && u.identities[id].person == row
    requires forall i :: i in t.identities ==> u.identities[i] == t.identities[i]
    ensures Homed(u) && Peopled(u)
  {
  }

  lemma ClaimedKeeps(t: Tables, id: Identity, name: string, skeleton: string, now: int)
    requires Valid(t) && Claimed(t, id, name, skeleton, now).Ok?
    ensures Valid(Claimed(t, id, name, skeleton, now).value)
  {
    var u := Claimed(t, id, name, skeleton, now).value;
    hide Homed, Peopled, IgnoresOk, WhispersOk, CodesHeld;
    GroupingKept(t, u);
    IgnoresKept(t, u);
    WhispersKept(t, u);
    CodesKept(t, u);
    assert t.identities[id].person in t.people by { HomeOf(t, id); }
    assert NamesHeld(u);
    assert UniqueSkeletons(u);
  }

  lemma HomeOf(t: Tables, id: Identity)
    requires Homed(t) && id in t.identities
    ensures t.identities[id].person in t.people
  {
  }

  /** A claim is refused exactly when another person holds the skeleton. */
  lemma ClaimedIffFree(t: Tables, id: Identity, name: string, skeleton: string, now: int)
    requires id in t.identities
    ensures Claimed(t, id, name, skeleton, now).Ok? <==>
            forall q :: q in t.names && t.names[q].skeleton == skeleton ==> q == t.identities[id].person
  {
  }

  lemma ReleasedKeeps(t: Tables, id: Identity)
    requires Valid(t)
    ensures Valid(Released(t, id))
  {
    hide Homed, Peopled, IgnoresOk, WhispersOk, CodesHeld;
    var u := Released(t, id);
    GroupingKept(t, u);
    IgnoresKept(t, u);
    WhispersKept(t, u);
    CodesKept(t, u);
    assert NamesHeld(u);
    assert UniqueSkeletons(u);
  }

  // ---- ranks, ignores, whispers -------------------------------------------------

  lemma RankedKeeps(t: Tables, id: Identity, rank: Stored)
    requires Valid(t) && Ranked(t, id, rank).Ok?
    ensures Valid(Ranked(t, id, rank).value)
  {
    hide Homed, Peopled, NamesHeld, UniqueSkeletons, IgnoresOk, WhispersOk, CodesHeld;
    var u := Ranked(t, id, rank).value;
    assert u.people.Keys == t.people.Keys;
    GroupingKept(t, u);
    NamesKept(t, u);
    IgnoresKept(t, u);
    WhispersKept(t, u);
    CodesKept(t, u);
  }

  lemma IgnoresChanged(t: Tables, u: Tables)
    requires Valid(t) && u == t.(ignores := u.ignores)
    requires forall q :: q in u.ignores ==> q.who != q.ignored && q.who in t.people && q.ignored in t.people
    ensures Valid(u)
  {
    assert IgnoresOk(u);
    hide Homed, Peopled, NamesHeld, UniqueSkeletons, IgnoresOk, WhispersOk, CodesHeld;
    GroupingKept(t, u);
    NamesKept(t, u);
    WhispersKept(t, u);
    CodesKept(t, u);
  }

  lemma IgnoredKeeps(t: Tables, q: Pair, at: int)
    requires Valid(t) && Ignored(t, q, at).Ok?
    ensures Valid(Ignored(t, q, at).value)
  {
    assert IgnoresOk(t);
    hide Valid;
    IgnoresChanged(t, Ignored(t, q, at).value);
  }

  lemma UnignoredKeeps(t: Tables, q: Pair)
    requires Valid(t)
    ensures Valid(Unignored(t, q))
  {
    assert IgnoresOk(t);
    hide Valid;
    IgnoresChanged(t, Unignored(t, q));
  }

  lemma WhisperedKeeps(t: Tables, w: WhisperId, to: PersonId)
    requires Valid(t) && Whispered(t, w, to).Ok?
    ensures Valid(Whispered(t, w, to).value)
  {
    var u := Whispered(t, w, to).value;
    hide Homed, Peopled, NamesHeld, UniqueSkeletons, IgnoresOk, CodesHeld;
    assert WhispersOk(u);
    GroupingKept(t, u);
    NamesKept(t, u);
    IgnoresKept(t, u);
    CodesKept(t, u);
  }

  // ---- links --------------------------------------------------------------------

  /** Moving an app between persons that exist leaves only its old person in doubt. */
  lemma MovedPeople(t: Tables, id: Identity, to: PersonId, now: int)
    requires Homed(t) && Peopled(t) && id in t.identities && to in t.people
    ensures Homed(Moved(t, id, to, now))
    ensures forall p :: p in t.people && (p != t.identities[id].person || !Alone(t, id)) ==>
              exists i :: i in Moved(t, id, to, now).identities && Moved(t, id, to, now).identities[i].person == p
  {
    var u := Moved(t, id, to, now);
    forall p | p in t.people && (p != t.identities[id].person || !Alone(t, id))
      ensures exists i :: i in u.identities && u.identities[i].person == p
    {
      if p == to {
        assert u.identities[id].person == p;
      } else {
        var i :| i in t.identities && t.identities[i].person == p && i != id;
        assert u.identities[i].person == p;
      }
    }
  }

  lemma MovedKeeps(t: Tables, id: Identity, to: PersonId, now: int)
    requires Valid(t) && id in t.identities && to in t.people && !Alone(t, id)
    ensures Valid(Moved(t, id, to, now))
  {
    var u := Moved(t, id, to, now);
    MovedPeople(t, id, to, now);
    hide NamesHeld, UniqueSkeletons, IgnoresOk, WhispersOk, CodesHeld;
    NamesKept(t, u);
    IgnoresKept(t, u);
    WhispersKept(t, u);
    CodesKept(t, u);
    assert Peopled(u);
  }

  /** No app of from is left once its only app has moved. */
  lemma NobodyLeft(t: Tables, id: Identity, to: PersonId, now: int)
    requires id in t.identities && Alone(t, id) && to != t.identities[id].person
    ensures forall i :: i in Moved(t, id, to, now).identities ==>
              Moved(t, id, to, now).identities[i].person != t.identities[id].person
  {
  }

  lemma MergedKeepsRest(t: Tables, from: PersonId, to: PersonId)
    requires IgnoresOk(t) && WhispersOk(t) && CodesHeld(t) && from != to && to in t.people
    ensures IgnoresOk(Merged(t, from, to)) && WhispersOk(Merged(t, from, to)) && CodesHeld(Merged(t, from, to))
  {
    var u := Merged(t, from, to);
    assert IgnoresOk(u) by {
      forall q | q in u.ignores
        ensures q.who != q.ignored && q.who in u.people && q.ignored in u.people
      {
        var o :| o in t.ignores && RenamePair(o, from, to) == q && q.who != q.ignored;
      }
    }
    assert WhispersOk(u) && CodesHeld(u);
  }

  lemma MergingKeeps(t: Tables, id: Identity, to: PersonId, now: int)
    requires Valid(t) && id in t.identities && to in t.people && Alone(t, id)
    requires t.identities[id].person != to && t.identities[id].person !in t.names
    ensures Valid(Merged(Moved(t, id, to, now), t.identities[id].person, to))
  {
    var from := t.identities[id].person;
    var m := Moved(t, id, to, now);
    var u := Merged(m, from, to);
    MovedPeople(t, id, to, now);
    NobodyLeft(t, id, to, now);
    IgnoresKept(t, m);
    WhispersKept(t, m);
    CodesKept(t, m);
    MergedKeepsRest(m, from, to);
    hide IgnoresOk, WhispersOk, CodesHeld, MergedIgnores, MergedWhispers, OthersCodes, Alone;
    assert NamesHeld(u) && UniqueSkeletons(u);
    hide NamesHeld, UniqueSkeletons;
    assert Homed(u);
    assert Peopled(u);
  }

  lemma LinkedKeeps(t: Tables, id: Identity, to: PersonId, now: int)
    requires Valid(t) && Linked(t, id, to, now).Ok?
    ensures Valid(Linked(t, id, to, now).value)
  {
    hide Valid, Merged, Moved, Alone;
    if t.identities[id].person != to {
      if Alone(t, id) {
        MergingKeeps(t, id, to, now);
      } else {
        MovedKeeps(t, id, to, now);
      }
    }
  }

  lemma UnlinkedKeeps(t: Tables, id: Identity, row: PersonId, now: int)
    requires Valid(t) && row !in t.people && Unlinked(t, id, row, now).Ok?
    ensures Valid(Unlinked(t, id, row, now).value)
  {
    if !Alone(t, id) {
      var u := Unlinked(t, id, row, now).value;
      NamesKept(t, u);
      IgnoresKept(t, u);
      WhispersKept(t, u);
      CodesKept(t, u);
      hide NamesHeld, UniqueSkeletons, IgnoresOk, WhispersOk, CodesHeld;
      assert Homed(u);
      forall p | p in u.people
        ensures exists i :: i in u.identities && u.identities[i].person == p
      {
        if p == row {
          assert u.identities[id].person == p;
        } else {
          var i :| i in t.identities && t.identities[i].person == p && i != id;
          assert u.identities[i].person == p;
        }
      }
    }
  }

  /**
   When a link empties a person: the ignores are the old ones with from renamed
   to to, less self-pairs; no whisper is lost or duplicated; and whispers to
   from now go to to.
   */
  lemma MergeConserves(t: Tables, id: Identity, to: PersonId, now: int)
    requires Valid(t) && id in t.identities && Alone(t, id) && t.identities[id].person != to && Linked(t, id, to, now).Ok?
    ensures var from := t.identities[id].person;
            var u := Linked(t, id, to, now).value;
            && from !in u.people
            && (forall a, b :: Pair(a, b) in u.ignores <==>
                  a != b && exists q :: q in t.ignores && Rename(q.who, from, to) == a && Rename(q.ignored, from, to) == b)
            && u.whispers.Keys == t.whispers.Keys
            && (forall w :: w in t.whispers ==> u.whispers[w] == Rename(t.whispers[w], from, to))
  {
    var from := t.identities[id].person;
    var u := Linked(t, id, to, now).value;
    forall a, b
      ensures Pair(a, b) in u.ignores <==>
              a != b && exists q :: q in t.ignores && Rename(q.who, from, to) == a && Rename(q.ignored, from, to) == b
    {
      RenamedIff(t.ignores, from, to, Pair(a, b));
    }
  }

  lemma RenamedIff(ignores: map<Pair, int>, from: PersonId, to: PersonId, p: Pair)
    ensures p in RenamedPairs(ignores, from, to) <==>
            p.who != p.ignored && exists q :: q in ignores && Rename(q.who, from, to) == p.who && Rename(q.ignored, from, to) == p.ignored
  {
  }

  // ---- the hub's link -------------------------------------------------------------

  /** An app that is the only one holding its name gives it up, then joins to. */
  function HubLinked(t: Tables, id: Identity, to: PersonId, now: int): Result<Tables> {
    if id !in t.identities then Err(NotFound)
    else
      var t1 := if Alone(t, id) && t.identities[id].person in t.names then Released(t, id) else t;
      Linked(t1, id, to, now)
  }

  /** Linking never fails because of a name: only an unknown app or person stops it. */
  lemma HubLinkNeverBlockedByName(t: Tables, id: Identity, to: PersonId, now: int)
    ensures HubLinked(t, id, to, now).Ok? <==> id in t.identities && (to in t.people || to == t.identities[id].person)
    ensures HubLinked(t, id, to, now).Err? ==> HubLinked(t, id, to, now).error == NotFound
  {
  }

  /**
   A link takes the name away from the very person it links to exactly when the
   app is that person's only one already; then it changes nothing else.
   */
  lemma LinkingHomeFreesName(t: Tables, id: Identity, to: PersonId, now: int)
    requires HubLinked(t, id, to, now).Ok? && to in t.names
    ensures to !in HubLinked(t, id, to, now).value.names <==> t.identities[id].person == to && Alone(t, id)
    ensures to !in HubLinked(t, id, to, now).value.names ==> HubLinked(t, id, to, now).value == t.(names := t.names - {to})
    ensures forall p :: p in t.names && p != t.identities[id].person ==>
              p in HubLinked(t, id, to, now).value.names && HubLinked(t, id, to, now).value.names[p] == t.names[p]
  {
    hide MergedIgnores, MergedWhispers, OthersCodes;
    assert Alone(Released(t, id), id) == Alone(t, id);
    hide Alone;
  }

  lemma HubLinkedKeeps(t: Tables, id: Identity, to: PersonId, now: int)
    requires Valid(t) && HubLinked(t, id, to, now).Ok?
    ensures Valid(HubLinked(t, id, to, now).value)
  {
    ReleasedKeeps(t, id);
    hide Valid, Released, Linked;
    LinkedKeeps(if Alone(t, id) && t.identities[id].person in t.names then Released(t, id) else t, id, to, now);
  }
}
