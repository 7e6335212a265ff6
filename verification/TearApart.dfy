/** What a kick, a ban or /forget does to a person: its apps are taken apart, one by one. */
module TearApart {
  import opened Common
  import opened People
  import opened PeopleLaws

  ghost predicate Fresh(t: Tables, rows: seq<PersonId>) {
    && (forall i :: 0 <= i < |rows| ==> rows[i] !in t.people)
    && (forall i, j :: 0 <= i < j < |rows| ==> rows[i] != rows[j])
  }

  /** One app after another becomes a person of its own. */
  function UnlinkEach(t: Tables, others: seq<Identity>, rows: seq<PersonId>, now: int): Tables
    requires |rows| == |others|
    decreases |others|
  {
    if others == [] || rows[0] in t.people then t
    else
      var u := Unlinked(t, others[0], rows[0], now);
      if u.Err? then t else UnlinkEach(u.value, others[1..], rows[1..], now)
  }

  /** The state of an app put on its own. */
  ghost predicate Single(t: Tables, id: Identity) {
    && id in t.identities && Alone(t, id)
    && t.identities[id].person !in t.names
    && t.identities[id].person in t.people && t.people[t.identities[id].person].rank == Member
  }

  /** Everything about id and its person is as it was. */
  ghost predicate SameFor(t: Tables, u: Tables, id: Identity) {
    && id in t.identities && id in u.identities && u.identities[id] == t.identities[id]
    && t.identities[id].person in t.people && t.identities[id].person in u.people
    && u.people[t.identities[id].person] == t.people[t.identities[id].person]
  }

  /** Taking one app out: it is on its own, everyone else stays where they were. */
  lemma UnlinkedOne(t: Tables, id: Identity, row: PersonId, now: int)
    requires Valid(t) && row !in t.people && id in t.identities && !Alone(t, id)
    ensures Unlinked(t, id, row, now).Ok?
    ensures var u := Unlinked(t, id, row, now).value;
            && Single(u, id) && u.names == t.names && u.identities.Keys == t.identities.Keys
            && u.people.Keys == t.people.Keys + {row}
            && (forall i :: i in t.identities && i != id ==> SameFor(t, u, i))
  {
    assert t.identities[id].person in t.people by { HomeOf(t, id); }
    var u := Unlinked(t, id, row, now).value;
    forall i | i in t.identities && i != id
      ensures SameFor(t, u, i)
    {
      HomeOf(t, i);
    }
    assert forall i :: i in t.identities ==> t.identities[i].person != row by {
      forall i | i in t.identities { HomeOf(t, i); }
    }
    assert row !in t.names;
    assert Alone(u, id);
  }

  /** An app on its own stays so when another is taken out of its person. */
  lemma SingleKept(t: Tables, u: Tables, id: Identity, row: PersonId, s: Identity)
    requires Homed(t) && Single(t, s) && s != id && id in u.identities && row !in t.people && u.identities[id].person == row
    requires u.names == t.names && u.identities.Keys == t.identities.Keys
    requires forall i :: i in t.identities && i != id ==> SameFor(t, u, i)
    ensures Single(u, s)
  {
  }

  /** others are further apps of id's person. */
  ghost predicate FellowApps(t: Tables, id: Identity, others: seq<Identity>) {
    && id in t.identities && id !in others && NoRepeats(others)
    && forall o :: o in others ==> o in t.identities && t.identities[o].person == t.identities[id].person
  }

  /** What unlinking a list of apps leaves: they are on their own, the rest is as it was. */
  ghost predicate Separated(t: Tables, u: Tables, others: seq<Identity>) {
    && u.names == t.names && u.identities.Keys == t.identities.Keys
    && (forall o :: o in others ==> Single(u, o))
    && (forall i :: i in t.identities && i !in others ==> SameFor(t, u, i))
    && (forall s :: s !in others && Single(t, s) ==> Single(u, s))
  }

  lemma SeparatedNone(t: Tables)
    requires Homed(t)
    ensures Separated(t, t, [])
  {
  }

  /** One app, o, has become the person `row`; the rest is as it was. */
  ghost predicate OneOut(t: Tables, m: Tables, o: Identity, row: PersonId) {
    && Single(m, o) && m.names == t.names && m.identities.Keys == t.identities.Keys
    && m.people.Keys == t.people.Keys + {row}
    && (forall i :: i in t.identities && i != o ==> SameFor(t, m, i))
    && (forall s :: s != o && Single(t, s) ==> Single(m, s))
  }

  lemma SeparatedCons(t: Tables, m: Tables, u: Tables, o: Identity, row: PersonId, rest: seq<Identity>)
    requires Separated(m, u, rest) && o !in rest && OneOut(t, m, o, row)
    ensures Separated(t, u, [o] + rest)
  {
    var others := [o] + rest;
    hide Single;
    forall i | i in t.identities && i !in others
      ensures SameFor(t, u, i)
    {
      assert SameFor(t, m, i) && SameFor(m, u, i);
    }
    assert Single(u, o);
  }

  lemma UnlinkIsOneOut(t: Tables, o: Identity, row: PersonId, now: int)
    requires Valid(t) && o in t.identities && !Alone(t, o) && row !in t.people
    ensures Unlinked(t, o, row, now).Ok? && OneOut(t, Unlinked(t, o, row, now).value, o, row)
  {
    UnlinkedOne(t, o, row, now);
    var m := Unlinked(t, o, row, now).value;
    assert m.identities[o].person == row;
    assert Homed(t);
    hide Valid, Single, SameFor, Unlinked, Alone, Homed;
    forall s | s != o && Single(t, s)
      ensures Single(m, s)
    {
      SingleKept(t, m, o, row, s);
    }
  }

  /** The first of a list of apps taken out. */
  lemma UnlinkFirst(t: Tables, id: Identity, o: Identity, rest: seq<Identity>, row: PersonId, now: int)
    requires Valid(t) && FellowApps(t, id, [o] + rest) && row !in t.people
    ensures Unlinked(t, o, row, now).Ok?
    ensures var m := Unlinked(t, o, row, now).value;
            Valid(m) && FellowApps(m, id, rest) && o !in rest && OneOut(t, m, o, row)
  {
    hide Valid, Unlinked, Alone, FellowApps, OneOut;
    FellowNotAlone(t, id, o, rest);
    UnlinkIsOneOut(t, o, row, now);
    UnlinkedKeeps(t, o, row, now);
    FellowsStay(t, Unlinked(t, o, row, now).value, id, o, row, rest);
  }

  lemma FellowNotAlone(t: Tables, id: Identity, o: Identity, rest: seq<Identity>)
    requires FellowApps(t, id, [o] + rest)
    ensures o in t.identities && !Alone(t, o)
  {
  }

  lemma UnlinkEachStep(t: Tables, others: seq<Identity>, rows: seq<PersonId>, now: int)
    requires |rows| == |others|
    ensures others == [] ==> UnlinkEach(t, others, rows, now) == t
    ensures others != [] && rows[0] !in t.people && Unlinked(t, others[0], rows[0], now).Ok? ==>
              UnlinkEach(t, others, rows, now) == UnlinkEach(Unlinked(t, others[0], rows[0], now).value, others[1..], rows[1..], now)
  {
  }

  lemma FreshFirst(t: Tables, rows: seq<PersonId>)
    requires rows != [] && Fresh(t, rows)
    ensures rows[0] !in t.people
  {
  }

  lemma FreshLater(t: Tables, m: Tables, o: Identity, rows: seq<PersonId>)
    requires rows != [] && Fresh(t, rows) && OneOut(t, m, o, rows[0])
    ensures Fresh(m, rows[1..])
  {
  }

  lemma {:induction false} UnlinkEachSeparates(t: Tables, id: Identity, others: seq<Identity>, rows: seq<PersonId>, now: int)
    requires Valid(t) && FellowApps(t, id, others) && |rows| == |others| && Fresh(t, rows)
    ensures Valid(UnlinkEach(t, others, rows, now))
    ensures Separated(t, UnlinkEach(t, others, rows, now), others)
    decreases |others|
  {
    hide OneOut, FellowApps, Unlinked, Separated, Fresh, UnlinkEach;
    UnlinkEachStep(t, others, rows, now);
    if others == [] {
      SeparatedNone(t);
    } else {
      hide Valid;
      var o, rest, row := others[0], others[1..], rows[0];
      assert others == [o] + rest;
      FreshFirst(t, rows);
      UnlinkFirst(t, id, o, rest, row, now);
      var m := Unlinked(t, o, row, now).value;
      FreshLater(t, m, o, rows);
      UnlinkEachSeparates(m, id, rest, rows[1..], now);
      SeparatedCons(t, m, UnlinkEach(m, rest, rows[1..], now), o, row, rest);
    }
  }

  lemma FellowsStay(t: Tables, m: Tables, id: Identity, o: Identity, row: PersonId, rest: seq<Identity>)
    requires FellowApps(t, id, [o] + rest) && OneOut(t, m, o, row)
    ensures FellowApps(m, id, rest) && o !in rest
  {
    var others := [o] + rest;
    assert others[0] == o && forall i :: 0 <= i < |rest| ==> rest[i] == others[i + 1];
    assert SameFor(t, m, id) by { assert o in others; }
    forall r | r in rest
      ensures r in m.identities && m.identities[r].person == m.identities[id].person
    {
      assert r in others && r != o;
      assert SameFor(t, m, r);
    }
  }

  /** What a kick or a ban does to a person: links, name and rank go. */
  function TornApart(t: Tables, id: Identity, others: seq<Identity>, rows: seq<PersonId>, now: int): Tables
    requires |rows| == |others|
  {
    var u := Released(UnlinkEach(t, others, rows, now), id);
    var r := Ranked(u, id, Member);
    if r.Ok? then r.value else u
  }

  /** others are exactly the further apps of id's person. */
  ghost predicate OtherApps(t: Tables, id: Identity, others: seq<Identity>) {
    FellowApps(t, id, others) && forall o :: o in t.identities && t.identities[o].person == t.identities[id].person ==> o == id || o in others
  }

  lemma AloneAfter(t: Tables, u: Tables, id: Identity, others: seq<Identity>)
    requires OtherApps(t, id, others) && Separated(t, u, others)
    ensures id in u.identities && Alone(u, id) && u.identities[id] == t.identities[id]
  {
  }

  /** Every former app of id's person is on its own, and nobody else has noticed. */
  ghost predicate AllSingle(t: Tables, u: Tables, id: Identity)
    requires id in t.identities
  {
    && u.identities.Keys == t.identities.Keys
    && (forall a :: a in t.identities && t.identities[a].person == t.identities[id].person ==> Single(u, a))
    && (forall i :: i in t.identities && t.identities[i].person != t.identities[id].person ==> SameFor(t, u, i))
  }

  lemma TornApartSeparates(t: Tables, id: Identity, others: seq<Identity>, rows: seq<PersonId>, now: int)
    requires id in t.identities && Valid(t) && OtherApps(t, id, others) && |rows| == |others| && Fresh(t, rows)
    ensures Valid(TornApart(t, id, others, rows, now))
    ensures AllSingle(t, TornApart(t, id, others, rows, now), id)
  {
    assert FellowApps(t, id, others);
    hide Valid, FellowApps, Separated, Fresh, UnlinkEach, AllSingle, Released, Ranked, Single;
    UnlinkEachSeparates(t, id, others, rows, now);
    var m := UnlinkEach(t, others, rows, now);
    AloneAfter(t, m, id, others);
    hide OtherApps, Alone;
    StrippedKeeps(m, id);
    StrippedAll(t, m, TornApart(t, id, others, rows, now), id, others);
  }

  lemma StrippedKeeps(m: Tables, id: Identity)
    requires Valid(m) && id in m.identities && Alone(m, id)
    ensures Ranked(Released(m, id), id, Member).Ok? && Valid(Ranked(Released(m, id), id, Member).value)
    ensures Stripped(m, Ranked(Released(m, id), id, Member).value, id)
  {
    HomeOf(m, id);
    hide Valid;
    StrippedOne(m, id);
    ReleasedKeeps(m, id);
    RankedKeeps(Released(m, id), id, Member);
  }

  /** id has lost its name and rank; everyone else is as before. */
  ghost predicate Stripped(m: Tables, u: Tables, id: Identity) {
    && id in m.identities && Single(u, id) && u.identities == m.identities
    && (forall s :: Single(m, s) ==> Single(u, s))
    && (forall p :: p != m.identities[id].person && p in m.people ==> p in u.people && u.people[p] == m.people[p])
  }

  lemma StrippedAll(t: Tables, m: Tables, u: Tables, id: Identity, others: seq<Identity>)
    requires id in t.identities && OtherApps(t, id, others) && Separated(t, m, others)
    requires id in m.identities && m.identities[id] == t.identities[id]
    requires Stripped(m, u, id)
    ensures AllSingle(t, u, id)
  {
  }

  /** Taking the name and rank off an app that is alone. */
  lemma StrippedOne(m: Tables, id: Identity)
    requires id in m.identities && Alone(m, id) && m.identities[id].person in m.people
    ensures Ranked(Released(m, id), id, Member).Ok?
    ensures Stripped(m, Ranked(Released(m, id), id, Member).value, id)
  {
  }
}
