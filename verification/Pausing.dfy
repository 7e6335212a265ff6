/** LXMF pauses: who is paused, when that changes, and what the cursor then counts. */
module Pausing {
  import opened Common
  import opened Presence
  import opened Hub
  import opened CatchUps
  import People

  predicate PausedMember(s: State, cfg: Config, i: Identity) {
    i in s.db.members && Paused(s, cfg, i, ModeOf(s.db, i))
  }

  // ---- what a pause counts ------------------------------------------------------------

  /** The messages of a room in a stretch of the log. */
  function CountRoom(ms: seq<Msg>, room: Room): nat {
    if ms == [] then 0 else CountRoom(ms[..|ms| - 1], room) + (if ms[|ms| - 1].room == room then 1 else 0)
  }

  /** The cursor parts the group's messages as they were when the pause began from those stored since. */
  ghost predicate PausePoint(log: seq<Msg>, g: Room, from: nat, cursor: nat) {
    && from <= |log|
    && (forall j :: 0 <= j < from && log[j].room == g ==> log[j].id <= cursor)
    && (forall j :: from <= j < |log| && log[j].room == g ==> log[j].id > cursor)
  }

  lemma {:induction false} CountsSince(log: seq<Msg>, g: Room, from: nat, cursor: nat)
    requires PausePoint(log, g, from, cursor)
    ensures |After(log, g, cursor)| == CountRoom(log[from..], g)
  {
    if log == [] {
      assert log[from..] == [];
    } else if from == |log| {
      assert log[from..] == [];
      NoneAfterIn(log, g, cursor);
    } else {
      var init, last := log[..|log| - 1], log[|log| - 1];
      CountsSince(init, g, from, cursor);
      assert log[from..][..|log| - from - 1] == init[from..];
      assert log[from..][|log| - from - 1] == last;
    }
  }

  lemma {:induction false} NoneAfterIn(log: seq<Msg>, g: Room, cursor: nat)
    requires forall j :: 0 <= j < |log| && log[j].room == g ==> log[j].id <= cursor
    ensures After(log, g, cursor) == []
  {
    if log != [] {
      NoneAfterIn(log[..|log| - 1], g, cursor);
    }
  }

  /** A pause begins at the newest group message, or past it. */
  lemma PauseBegins(log: seq<Msg>, g: Room, cursor: nat)
    requires Ascending(log) && cursor >= LastIn(log, g)
    ensures PausePoint(log, g, |log|, cursor)
  {
    LastInMax(log, g);
    hide LastIn;
    forall j | 0 <= j < |log| && log[j].room == g
      ensures log[j].id <= cursor
    {
      assert log[j] in log;
    }
  }

  /** A group message that comes during a pause is counted if and only if its id is above the cursor. */
  lemma PausePointGrows(log: seq<Msg>, g: Room, from: nat, cursor: nat, m: Msg)
    requires PausePoint(log, g, from, cursor)
    ensures PausePoint(log + [m], g, from, cursor) <==> (m.room == g ==> m.id > cursor)
  {
    var more := log + [m];
    assert more[|log|] == m;
    assert forall j :: 0 <= j < |log| ==> more[j] == log[j];
  }

  /** The other way round: a cursor that counts as many messages as were stored since is a pause point. */
  lemma {:induction false} CountsOnlySince(log: seq<Msg>, g: Room, from: nat, cursor: nat)
    requires Ascending(log) && from <= |log| && |After(log, g, cursor)| == CountRoom(log[from..], g)
    ensures PausePoint(log, g, from, cursor)
  {
    if from < |log| {
      var init, last := log[..|log| - 1], log[|log| - 1];
      assert log[from..][..|log| - from - 1] == init[from..];
      assert log[from..][|log| - from - 1] == last;
      if last.room == g && last.id <= cursor {
        NoneAfterIn(log, g, cursor);
        assert false;
      } else {
        CountsOnlySince(init, g, from, cursor);
        assert log == init + [last];
        PausePointGrows(init, g, from, cursor, last);
      }
    } else {
      assert log[from..] == [];
      AfterMembers(log, g, cursor);
      forall j | 0 <= j < |log| && log[j].room == g
        ensures log[j].id <= cursor
      {
        assert log[j] in log && log[j] !in After(log, g, cursor);
      }
    }
  }

  /** So a cursor is a pause point if and only if what the hub counts from it is what was stored since. */
  lemma PausePointIff(log: seq<Msg>, g: Room, from: nat, cursor: nat)
    requires Ascending(log) && from <= |log|
    ensures PausePoint(log, g, from, cursor) <==> |After(log, g, cursor)| == CountRoom(log[from..], g)
  {
    hide PausePoint, After, CountRoom, Ascending;
    if PausePoint(log, g, from, cursor) {
      CountsSince(log, g, from, cursor);
    } else if |After(log, g, cursor)| == CountRoom(log[from..], g) {
      CountsOnlySince(log, g, from, cursor);
    }
  }

  // ---- pausing the apps of a person --------------------------------------------------------

  function Point(db: Db, g: Room, i: Identity): nat {
    if i in db.lxmf && db.lxmf[i] > LastIn(db.log, g) then db.lxmf[i] else LastIn(db.log, g)
  }

  /** Pausing sets the cursor of every auto member in the list, and of nobody else, silently. */
  lemma {:induction false} PauseEachPauses(db: Db, g: Room, apps: seq<Identity>)
    requires NoRepeats(apps)
    ensures PauseEach(db, g, apps, true).1 == []
    ensures forall i :: i in PauseEach(db, g, apps, true).0.lxmf <==> i in db.lxmf || (i in apps && OnAuto(db, i))
    ensures forall i :: i in PauseEach(db, g, apps, true).0.lxmf ==>
              PauseEach(db, g, apps, true).0.lxmf[i] == if i in apps && OnAuto(db, i) then Point(db, g, i) else db.lxmf[i]
    decreases |apps|
  {
    if apps != [] {
      hide LastIn;
      var a, rest := apps[0], apps[1..];
      assert a !in rest;
      assert forall i :: i in apps <==> i == a || i in rest;
      var db1 := if OnAuto(db, a) then db.(lxmf := SetCursor(db.lxmf, a, LastIn(db.log, g))) else db;
      assert forall i :: OnAuto(db1, i) == OnAuto(db, i);
      PauseEachPauses(db1, g, rest);
      PauseEachStep(db, g, apps, true);
      hide PauseEach, OnAuto;
      assert forall i :: i != a ==> Point(db1, g, i) == Point(db, g, i);
    }
  }

  lemma PauseEachStep(db: Db, g: Room, apps: seq<Identity>, paused: bool)
    requires apps != []
    ensures var change := PauseChange(db.log, g, db.lxmf, apps[0], !paused, paused);
            var on := OnAuto(db, apps[0]);
            var rest := PauseEach(if on then db.(lxmf := change.0) else db, g, apps[1..], paused);
            PauseEach(db, g, apps, paused).0 == rest.0 && PauseEach(db, g, apps, paused).1 == (if on then change.1 else []) + rest.1
  {
  }

  /** The note an app gets when it resumes. */
  function Missed(db: Db, g: Room, i: Identity): nat {
    if i in db.lxmf then |After(db.log, g, db.lxmf[i])| else 0
  }

  /** The note is among the events, once, exactly when there is something to tell. */
  ghost predicate NotesFor(events: seq<Event>, db: Db, g: Room, apps: seq<Identity>) {
    && (forall e :: e in events <==> e.Resumed? && e.id in apps && OnAuto(db, e.id) && e.missed == Missed(db, g, e.id) && e.missed > 0)
    && NoRepeats(events)
  }

  lemma {:induction false} PauseEachResumes(db: Db, g: Room, apps: seq<Identity>)
    requires NoRepeats(apps)
    ensures NotesFor(PauseEach(db, g, apps, false).1, db, g, apps)
    ensures forall i :: i in PauseEach(db, g, apps, false).0.lxmf <==> i in db.lxmf
    ensures forall i :: i in db.lxmf ==>
              PauseEach(db, g, apps, false).0.lxmf[i] == if i in apps && OnAuto(db, i) then Point(db, g, i) else db.lxmf[i]
    decreases |apps|
  {
    if apps != [] {
      hide LastIn, After;
      var a, rest := apps[0], apps[1..];
      assert a !in rest;
      assert forall i :: i in apps <==> i == a || i in rest;
      var change := PauseChange(db.log, g, db.lxmf, a, true, false);
      var db1 := if OnAuto(db, a) then db.(lxmf := change.0) else db;
      assert forall i :: OnAuto(db1, i) == OnAuto(db, i);
      PauseEachResumes(db1, g, rest);
      PauseEachStep(db, g, apps, false);
      hide PauseEach, OnAuto;
      assert forall i :: i != a ==> Point(db1, g, i) == Point(db, g, i) && Missed(db1, g, i) == Missed(db, g, i);
      NotesAdd(db, db1, g, a, rest, if OnAuto(db, a) then change.1 else [], PauseEach(db1, g, rest, false).1);
    }
  }

  lemma NotesAdd(db: Db, db1: Db, g: Room, a: Identity, rest: seq<Identity>, first: seq<Event>, notes: seq<Event>)
    requires a !in rest && NotesFor(notes, db1, g, rest)
    requires forall i :: OnAuto(db1, i) == OnAuto(db, i)
    requires forall i :: i != a ==> Missed(db1, g, i) == Missed(db, g, i)
    requires first == if OnAuto(db, a) && Missed(db, g, a) > 0 then [Resumed(a, Missed(db, g, a))] else []
    ensures NotesFor(first + notes, db, g, [a] + rest)
  {
  }

  // ---- who is on RRC --------------------------------------------------------------------------

  lemma FellowsMutual(t: People.Tables, a: Identity, b: Identity)
    ensures a in Fellows(t, b) <==> b in Fellows(t, a)
    ensures a in Fellows(t, b) ==> Fellows(t, a) == Fellows(t, b)
  {
  }

  predicate OnRrc(s: State, cfg: Config, i: Identity) {
    PersonOn(s, i, cfg.group, None)
  }

  /** Being on RRC depends on presence in the group room and on who is whose app. */
  lemma OnSame(s: State, s2: State, cfg: Config, i: Identity)
    requires s2.db.people == s.db.people && forall a :: Present(s2.presence, cfg.group, a) == Present(s.presence, cfg.group, a)
    ensures OnRrc(s2, cfg, i) == OnRrc(s, cfg, i)
  {
  }

  /** id has come into the group room. */
  lemma OnAfterJoin(s: State, s2: State, cfg: Config, id: Identity, i: Identity)
    requires s2.db.people == s.db.people
    requires forall a :: Present(s2.presence, cfg.group, a) <==> Present(s.presence, cfg.group, a) || a == id
    ensures OnRrc(s2, cfg, i) <==> OnRrc(s, cfg, i) || i in Fellows(s.db.people, id)
  {
    FellowsMutual(s.db.people, id, i);
    if OnRrc(s, cfg, i) {
      var a :| a in Fellows(s.db.people, i) && Present(s.presence, cfg.group, a);
      assert Present(s2.presence, cfg.group, a);
    }
    if i in Fellows(s.db.people, id) {
      assert Present(s2.presence, cfg.group, id);
    }
  }

  /** id has left the group room, where it was. */
  lemma OnAfterPart(s: State, s2: State, cfg: Config, id: Identity, i: Identity)
    requires s2.db.people == s.db.people && Present(s.presence, cfg.group, id)
    requires forall a :: Present(s2.presence, cfg.group, a) <==> Present(s.presence, cfg.group, a) && a != id
    ensures i in Fellows(s.db.people, id) ==> OnRrc(s, cfg, i) && (OnRrc(s2, cfg, i) <==> PersonOn(s, id, cfg.group, Some(id)))
    ensures i !in Fellows(s.db.people, id) ==> (OnRrc(s2, cfg, i) <==> OnRrc(s, cfg, i))
  {
  }
}
