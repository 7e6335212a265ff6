/** Linking and unlinking, in full: where every row of the people tables is afterwards. */
module Moves {
  import opened Common
  import opened People
  import opened PeopleLaws

  /** p's rows are q's: everything that pointed at p points at q, but nobody ignores themselves. */
  ghost predicate TakenOver(t: Tables, u: Tables, p: PersonId, q: PersonId) {
    && u.people == t.people - {p}
    && (forall w :: w in u.whispers <==> w in t.whispers)
    && (forall w :: w in t.whispers ==> u.whispers[w] == if t.whispers[w] == p then q else t.whispers[w])
    && (forall h :: h in u.codes <==> h in t.codes && t.codes[h].person != p) && (forall h :: h in u.codes ==> u.codes[h] == t.codes[h])
    && (forall x :: x in u.ignores <==> x.who != x.ignored && exists y :: y in t.ignores && RenamePair(y, p, q) == x)
    && (forall x :: x in u.ignores ==> if x in t.ignores then u.ignores[x] == t.ignores[x]
                                       else exists y :: y in t.ignores && RenamePair(y, p, q) == x && u.ignores[x] == t.ignores[y])
  }

  /** The relation of ignores, renamed, and each pair's time. */
  lemma IgnoresTakenOver(ignores: map<Pair, int>, p: PersonId, q: PersonId, x: Pair)
    requires p != q
    ensures var m := MergedIgnores(ignores, p, q);
            && (x in m <==> x.who != x.ignored && exists y :: y in ignores && RenamePair(y, p, q) == x)
            && (x in m && x in ignores ==> m[x] == ignores[x])
            && (x in m && x !in ignores ==> exists y :: y in ignores && RenamePair(y, p, q) == x && m[x] == ignores[y])
  {
    var m := MergedIgnores(ignores, p, q);
    if x in m && x !in ignores {
      var y :| y in ignores && RenamePair(y, p, q) == x;
      var a, b := Pair(p, x.ignored), Pair(x.who, p);
      assert RenamePair(a, p, q) == Pair(q, x.ignored) by { assert x.ignored != p; }
      assert RenamePair(b, p, q) == Pair(x.who, q) by { assert x.who != p; }
      assert y == a || y == b || y == Pair(p, p);
    }
  }

  /**
   A link moves one app, now, and no name. The app's former person stays as it
   is if it has other apps, and is taken over by the new one if it has not.
   */
  lemma LinkedIs(t: Tables, id: Identity, to: PersonId, now: int)
    requires id in t.identities
    ensures var from, r := t.identities[id].person, Linked(t, id, to, now);
            && (r.Ok? <==> from == to || (to in t.people && !(Alone(t, id) && from in t.names)))
            && (r.Ok? && from == to ==> r.value == t)
            && (r.Ok? && from != to ==>
                  && r.value.identities == t.identities[id := Home(to, now)] && r.value.names == t.names
                  && if Alone(t, id) then TakenOver(t, r.value, from, to) else r.value == t.(identities := r.value.identities))
  {
    hide MergedIgnores, MergedWhispers, OthersCodes, Alone, TakenOver;
    var from := t.identities[id].person;
    if from != to {
      MergedIs(Moved(t, id, to, now), from, to);
      TakenSame(t, Moved(t, id, to, now), Merged(Moved(t, id, to, now), from, to), from, to);
    }
  }

  lemma MergedIs(t: Tables, from: PersonId, to: PersonId)
    requires from != to
    ensures TakenOver(t, Merged(t, from, to), from, to)
  {
    hide MergedIgnores, RenamePair;
    var u := Merged(t, from, to);
    forall x: Pair
      ensures x in u.ignores <==> x.who != x.ignored && exists y :: y in t.ignores && RenamePair(y, from, to) == x
      ensures x in u.ignores && x in t.ignores ==> u.ignores[x] == t.ignores[x]
      ensures x in u.ignores && x !in t.ignores ==> exists y :: y in t.ignores && RenamePair(y, from, to) == x && u.ignores[x] == t.ignores[y]
    {
      IgnoresTakenOver(t.ignores, from, to, x);
    }
  }

  /** Where apps are is no matter here. */
  lemma TakenSame(t: Tables, m: Tables, u: Tables, p: PersonId, q: PersonId)
    requires m == t.(identities := m.identities) && TakenOver(m, u, p, q)
    ensures TakenOver(t, u, p, q)
  {
  }

  /** An app taken out becomes a person, now, with the preferences it had and no rank; nothing else changes. An app alone stays. */
  lemma UnlinkedIs(t: Tables, id: Identity, row: PersonId, now: int)
    requires row !in t.people && id in t.identities && t.identities[id].person in t.people
    ensures Unlinked(t, id, row, now).Ok?
    ensures Unlinked(t, id, row, now).value ==
            if Alone(t, id) then t
            else t.(people := t.people[row := Person(Member, t.people[t.identities[id].person].prefs)], identities := t.identities[id := Home(row, now)])
  {
    hide Alone;
  }
}
