/**
 The hub's own object. Every request works on a copy of the tables and
 collects its events; only a commit replaces the tables, then changes presence,
 then publishes.
 */
module HubServer {
  import opened Common
  import opened Presence
  import opened Hub
  import opened Pausing
  import opened PresenceRuns
  import People
  import TearApart

  /** The identity is on record, as a person of its own if it was not before. */
  function OnRecord(s: State, id: Identity, row: PersonId, now: int): State
    requires row !in s.db.people.people
  {
    Regroup(s, People.Touched(s.db.people, id, row, now))
  }

  /** So a method that records its caller first does what two requests of a run do. */
  lemma RecordedIsIdentified(s: State, cfg: Config, id: Identity, row: PersonId, now: int)
    requires row !in s.db.people.people && id !in s.db.bans
    ensures Handle(s, cfg, Identify(id, row, now)) == Committed(OnRecord(s, id, row, now), [])
  {
  }

  lemma Regroup3(a: seq<Event>, b: seq<Event>, c: seq<Event>)
    ensures (a + b) + c == a + (b + c)
  {
  }

  /** Every app of a person that is a group member on auto pauses, or resumes. */
  method AutoPauseChanged(db: Db, g: Room, apps: seq<Identity>, paused: bool) returns (tx: Db, out: seq<Event>)
    ensures (tx, out) == PauseEach(db, g, apps, paused)
  {
    tx, out := db, [];
    assert apps[0..] == apps;
    for k := 0 to |apps|
      invariant PauseEach(db, g, apps, paused).0 == PauseEach(tx, g, apps[k..], paused).0
      invariant PauseEach(db, g, apps, paused).1 == out + PauseEach(tx, g, apps[k..], paused).1
    {
      hide PauseEach, PauseChange;
      var i := apps[k];
      PauseEachStep(tx, g, apps[k..], paused);
      assert apps[k..][1..] == apps[k + 1..];
      ghost var rest := PauseEach(if OnAuto(tx, i) then tx.(lxmf := PauseChange(tx.log, g, tx.lxmf, i, !paused, paused).0) else tx, g, apps[k + 1..], paused).1;
      if i in tx.members && ModeOf(tx, i) == Auto {
        var (lxmf, note) := PauseChange(tx.log, g, tx.lxmf, i, !paused, paused);
        Regroup3(out, note, rest);
        tx, out := tx.(lxmf := lxmf), out + note;
      } else {
        assert [] + rest == rest;
      }
    }
    assert apps[|apps|..] == [];
    assert PauseEach(tx, g, [], paused) == (tx, []);
    assert out + [] == out;
  }

  class Server {
    const cfg: Config
    var db: Db
    var presence: Presence.Map
    var published: seq<Event>

    constructor (cfg: Config)
      ensures this.cfg == cfg && View() == Hub.EMPTY_HUB && published == []
    {
      this.cfg := cfg;
      db, presence, published := Hub.EMPTY_HUB.db, map[], [];
    }

    ghost function View(): State
      reads this
    {
      State(db, presence)
    }

    /** The object is as a request with this outcome leaves it. */
    ghost predicate Did(before: State, heard: seq<Event>, o: Outcome, ok: bool)
      reads this
    {
      ok == o.Committed? &&
      if o.Committed? then View() == o.s && published == heard + o.events else View() == before && published == heard
    }

    /** One RRC link of an identity joins a room; replay is what it is shown. */
    method JoinRoom(id: Identity, row: PersonId, room: Room, admitted: bool, apps: seq<Identity>, now: int) returns (ok: bool, replay: seq<Msg>)
      requires row !in db.people.people
      modifies this
      ensures Did(old(View()), old(published), Join(OnRecord(old(View()), id, row, now), cfg, id, room, admitted, apps, now), ok)
      ensures ok && !Present(old(presence), room, id) ==>
                replay == CatchUp(old(db).log, room, Cursor(old(db).rrc, Seat(room, id)), cfg)
    {
      ok, replay := false, [];
      if !admitted || id in db.bans {
        return;
      }
      var tx := db.(people := People.Touched(db.people, id, row, now));
      var known := State(tx, presence);
      tx := tx.(rooms := db.rooms[room := RoomRow(room in db.rooms && db.rooms[room].registered, now)]);
      var out: seq<Event> := [];
      if !Present(presence, room, id) {
        var seat := Seat(room, id);
        replay := CatchUp(tx.log, room, Cursor(tx.rrc, seat), cfg);
        tx, out := ArriveTx(known, tx, id, room, apps);
        out := out + [Joined(seat)];
      }
      hide CatchUp, Arrive, AddLink, People.Touched;
      db := tx;
      presence := AddLink(presence, room, id);
      published := published + out;
      ok := true;
    }

    /** The first link's part of a join, on the transaction's tables. */
    method ArriveTx(known: State, before: Db, id: Identity, room: Room, apps: seq<Identity>) returns (tx: Db, out: seq<Event>)
      ensures (tx, out) == Arrive(known, cfg, before, id, room, apps)
    {
      tx, out := before.(rrc := SetCursor(before.rrc, Seat(room, id), LastIn(before.log, room))), [];
      if room == cfg.group && !PersonOn(known, id, room, None) {
        tx, out := AutoPauseChanged(tx, cfg.group, apps, true);
      }
      hide PauseEach, LastIn, PersonOn;
    }

    /** One RRC link of an identity leaves a room. */
    method PartRoom(id: Identity, room: Room, apps: seq<Identity>, now: int) returns (ok: bool)
      modifies this
      ensures Did(old(View()), old(published), Part(old(View()), cfg, id, room, apps, now), ok)
    {
      ok := true;
      if Links(presence, room, id) == 0 {
        return;
      }
      var tx, out := PartTx(db, id, room, apps, now);
      hide PartDb, DropLink;
      PartIsPartDb(View(), cfg, id, room, apps, now);
      db := tx;
      presence := DropLink(presence, room, id);
      published := published + out;
    }

    /** The part of leaving that happens inside the transaction: presence still stands. */
    method PartTx(before: Db, id: Identity, room: Room, apps: seq<Identity>, now: int) returns (tx: Db, out: seq<Event>)
      ensures (tx, out) == PartDb(presence, cfg, before, id, room, apps, now)
    {
      tx, out := before, [];
      if Links(presence, room, id) != 1 {
        return;
      }
      tx := tx.(rrc := SetCursor(tx.rrc, Seat(room, id), LastIn(tx.log, room)));
      var notes: seq<Event> := [];
      if room == cfg.group && !PersonOn(State(before, presence), id, room, Some(id)) {
        tx, notes := AutoPauseChanged(tx, cfg.group, apps, false);
      }
      out := [Parted(Seat(room, id))] + notes;
      tx := tx.(rooms := RoomsLeft(presence, cfg, tx.rooms, id, room, now));
      hide PauseEach, LastIn, RoomsLeft, PersonOn;
    }

    /** A closed link leaves all its rooms in one transaction. */
    method CloseLink(id: Identity, rooms: seq<Room>, apps: seq<Identity>, now: int)
      requires NoRepeats(rooms)
      modifies this
      ensures Did(old(View()), old(published), PartEach(old(View()), cfg, id, rooms, apps, now), true)
    {
      var tx, out: seq<Event> := db, [];
      assert rooms[0..] == rooms;
      for k := 0 to |rooms|
        invariant DisconnectDb(presence, cfg, db, id, rooms, apps, now).0 == DisconnectDb(presence, cfg, tx, id, rooms[k..], apps, now).0
        invariant DisconnectDb(presence, cfg, db, id, rooms, apps, now).1 == out + DisconnectDb(presence, cfg, tx, id, rooms[k..], apps, now).1
        invariant db == old(db) && presence == old(presence) && published == old(published)
      {
        hide PartDb;
        assert rooms[k..][1..] == rooms[k + 1..];
        var t2, first := PartTx(tx, id, rooms[k], apps, now);
        Regroup3(out, first, DisconnectDb(presence, cfg, t2, id, rooms[k + 1..], apps, now).1);
        tx, out := t2, out + first;
      }
      assert rooms[|rooms|..] == [];
      DisconnectIsParts(View(), cfg, id, rooms, apps, now);
      var p := presence;
      for k := 0 to |rooms|
        invariant DropEach(presence, id, rooms) == DropEach(p, id, rooms[k..])
        invariant db == old(db) && presence == old(presence) && published == old(published)
      {
        hide DropLink;
        assert rooms[k..][1..] == rooms[k + 1..];
        p := DropLink(p, rooms[k], id);
      }
      hide PartEach, DisconnectDb;
      db, presence, published := tx, p, published + out;
    }

    /** How the LXMF group delivers to an identity. */
    method SetLxmfMode(id: Identity, row: PersonId, mode: Mode, at: int)
      requires row !in db.people.people
      modifies this
      ensures Did(old(View()), old(published), SetMode(OnRecord(old(View()), id, row, at), cfg, id, mode), true)
    {
      var tx := db.(people := People.Touched(db.people, id, row, at));
      var was := Paused(State(tx, presence), cfg, id, ModeOf(tx, id));
      var now := Paused(State(tx, presence), cfg, id, mode);
      tx := tx.(modes := tx.modes[id := mode]);
      var out: seq<Event> := [];
      if id in tx.members {
        var (lxmf, notes) := PauseChange(tx.log, cfg.group, tx.lxmf, id, was, now);
        tx, out := tx.(lxmf := lxmf), notes;
      }
      hide Paused, PauseChange, People.Touched;
      db, published := tx, published + out;
    }

    /** Who a group message goes to by LXMF, out of the members in the order they joined; tx is the transaction's view. */
    method LxmfRecipients(tx: Db, members: seq<Identity>, author: Identity, via: Via) returns (to: seq<Identity>)
      requires NoRepeats(members) && forall i :: i in members <==> i in tx.members
      ensures NoRepeats(to) && forall i :: i in to <==> i in Recipients(State(tx, presence), cfg, author, via)
    {
      to := [];
      for k := 0 to |members|
        invariant forall i :: i in to <==> i in members[..k] && Receives(State(tx, presence), cfg, i, author, via)
        invariant NoRepeats(to)
      {
        var i := members[k];
        assert members[..k + 1] == members[..k] + [i];
        assert i !in members[..k] && i in members;
        hide SamePerson, Paused;
        var paused := Paused(State(tx, presence), cfg, i, ModeOf(tx, i));
        if paused || (i == author && via == LXMF) {
          continue;
        }
        if i !in tx.mine && SamePerson(tx.people, i, author) {
          continue;
        }
        if i in tx.bans {
          continue;
        }
        to := to + [i];
      }
      assert members[..|members|] == members;
    }

    /** A message is stored and, in the group room, queued for its recipients in the same transaction. */
    method SaySomething(id: Identity, row: PersonId, room: Room, via: Via, origin: Option<nat>, allowed: bool, members: seq<Identity>, now: int) returns (ok: bool)
      requires row !in db.people.people
      requires NoRepeats(members) && forall i :: i in members <==> i in db.members
      modifies this
      ensures Did(old(View()), old(published), Post(OnRecord(old(View()), id, row, now), cfg, id, room, via, origin, allowed, now), ok)
    {
      if !MayPost(State(db, presence), cfg, id, room, via, allowed) {
        return false;
      }
      ok := true;
      var tx := db.(people := People.Touched(db.people, id, row, now));
      hide People.Touched;
      var dup := FindOrigin(tx.log, via, origin);
      if dup {
        db := tx;
        return;
      }
      var m := Msg(NextId(tx.log), room, id, via, origin);
      var queued := QueueTx(tx, m, members);
      hide Recipients, Duplicate, NextId;
      db := tx.(log := tx.log + [m], rooms := tx.rooms[room := RoomRow(tx.rooms[room].registered, now)], deliveries := queued);
      published := published + [Stored(m)];
    }

    /** The deliveries with those of a new message: to its recipients in the group room, none elsewhere. */
    method QueueTx(tx: Db, m: Msg, members: seq<Identity>) returns (queued: set<Delivery>)
      requires NoRepeats(members) && forall i :: i in members <==> i in tx.members
      ensures var to := if m.room == cfg.group then Recipients(State(tx, presence), cfg, m.author, m.via) else {};
              queued == tx.deliveries + (set i | i in to :: Delivery(m.id, i))
    {
      queued := tx.deliveries;
      if m.room == cfg.group {
        var to := LxmfRecipients(tx, members, m.author, m.via);
        queued := Queue(tx.deliveries, m.id, to);
        assert (set i | i in Recipients(State(tx, presence), cfg, m.author, m.via) :: Delivery(m.id, i)) == (set i | i in to :: Delivery(m.id, i));
      }
      hide Recipients;
    }

    /** The rooms an identity is in. */
    method RoomsOf(id: Identity) returns (rooms: seq<Room>)
      ensures NoRepeats(rooms) && forall r :: r in rooms <==> Present(presence, r, id)
    {
      rooms := [];
      var todo := presence.Keys;
      while todo != {}
        invariant todo <= presence.Keys
        invariant NoRepeats(rooms) && forall r :: r in rooms <==> Present(presence, r, id) && r !in todo
      {
        var r :| r in todo;
        if id in presence[r] && presence[r][id] > 0 {
          rooms := rooms + [r];
        }
        todo := todo - {r};
      }
    }

    /** Kick or ban: every app out of every room and the group; then links, name and rank go. */
    method RemoveEverywhere(id: Identity, apps: seq<Identity>, others: seq<Identity>, rows: seq<PersonId>, ban: Option<int>, now: int) returns (seats: seq<Seat>)
      requires |rows| == |others| && NoRepeats(apps)
      modifies this
      ensures ListsSeats(old(presence), apps, seats)
      ensures Did(old(View()), old(published), Remove(old(View()), id, apps, others, rows, seats, ban, now), true)
    {
      seats := SeatsOf(apps);
      var tx := db;
      var bans := db.bans;
      assert apps[0..] == apps;
      for k := 0 to |apps|
        invariant WithoutMembers(db, apps) == WithoutMembers(tx, apps[k..])
        invariant ban.Some? ==> Banned(db.bans, apps, ban.value) == Banned(bans, apps[k..], ban.value)
        invariant ban.None? ==> bans == db.bans
        invariant db == old(db) && presence == old(presence) && published == old(published)
      {
        hide WithoutMember;
        assert apps[k..][1..] == apps[k + 1..];
        tx := WithoutMember(tx, apps[k]);
        if ban.Some? {
          bans := bans[apps[k] := ban.value];
        }
      }
      assert apps[|apps|..] == [];
      assert tx == WithoutMembers(db, apps);
      WithoutMembersSame(db, apps);
      var p := ForgetAll(presence, seats);
      hide WithoutMembers, Banned, TearApart.TornApart, ForgetSeats, ListsSeats;
      tx := tx.(bans := bans, people := TearApart.TornApart(tx.people, id, others, rows, now));
      db, presence, published := tx, p, published + PartedAll(seats);
    }

    /** The seats of all the given apps, app by app and room by room. */
    method SeatsOf(apps: seq<Identity>) returns (seats: seq<Seat>)
      requires NoRepeats(apps)
      ensures ListsSeats(presence, apps, seats)
    {
      seats := [];
      for k := 0 to |apps|
        invariant ListsSeats(presence, apps[..k], seats)
      {
        var i := apps[k];
        assert apps[..k + 1] == apps[..k] + [i];
        assert i !in apps[..k];
        var rooms := RoomsOf(i);
        seats := AddSeats(seats, rooms, i, apps[..k]);
      }
      assert apps[..|apps|] == apps;
    }

    method AddSeats(before: seq<Seat>, rooms: seq<Room>, id: Identity, ghost apps: seq<Identity>) returns (seats: seq<Seat>)
      requires ListsSeats(presence, apps, before) && id !in apps
      requires NoRepeats(rooms) && forall r :: r in rooms <==> Present(presence, r, id)
      ensures ListsSeats(presence, apps + [id], seats)
    {
      seats := before;
      for k := 0 to |rooms|
        invariant NoRepeats(seats)
        invariant forall r, i :: Seat(r, i) in seats <==> Seat(r, i) in before || (i == id && r in rooms[..k])
      {
        hide Present;
        assert rooms[..k + 1] == rooms[..k] + [rooms[k]];
        assert rooms[k] !in rooms[..k];
        assert Seat(rooms[k], id) !in seats;
        seats := seats + [Seat(rooms[k], id)];
      }
      assert rooms[..|rooms|] == rooms;
    }

    /** Everyone present has seen their rooms up to now. */
    method SaveAllCursors()
      modifies this`db
      ensures View() == SaveCursors(old(View()))
    {
      ghost var s := View();
      var rrc := db.rrc;
      var todo := Seats(presence);
      while todo != {}
        invariant todo <= Seats(presence)
        invariant rrc.Keys == db.rrc.Keys + (Seats(presence) - todo)
        invariant forall k :: k in rrc ==> rrc[k] == if k in Seats(presence) && k !in todo then SavedCursor(s, k) else db.rrc[k]
      {
        hide LastIn;
        var k :| k in todo;
        rrc := SetCursor(rrc, k, LastIn(db.log, k.room));
        todo := todo - {k};
      }
      assert rrc == SaveCursors(s).db.rrc;
      hide Seats, SavedCursor;
      db := db.(rrc := rrc);
    }
  }

  method ForgetAll(before: Presence.Map, seats: seq<Seat>) returns (p: Presence.Map)
    ensures p == ForgetSeats(before, seats)
  {
    p := before;
    assert seats[0..] == seats;
    for k := 0 to |seats|
      invariant ForgetSeats(before, seats) == ForgetSeats(p, seats[k..])
    {
      hide Forget;
      assert seats[k..][1..] == seats[k + 1..];
      p := Forget(p, seats[k].room, seats[k].id);
    }
    assert seats[|seats|..] == [];
  }

  method FindOrigin(log: seq<Msg>, via: Via, origin: Option<nat>) returns (dup: bool)
    ensures dup == Duplicate(log, via, origin)
  {
    if origin.Some? {
      for k := 0 to |log|
        invariant forall j :: 0 <= j < k ==> !(log[j].via == via && log[j].origin == origin)
      {
        if log[k].via == via && log[k].origin == origin {
          return true;
        }
      }
    }
    return false;
  }

  method Queue(deliveries: set<Delivery>, message: nat, to: seq<Identity>) returns (queued: set<Delivery>)
    ensures queued == deliveries + (set i | i in to :: Delivery(message, i))
  {
    queued := deliveries;
    for k := 0 to |to|
      invariant queued == deliveries + (set i | i in to[..k] :: Delivery(message, i))
    {
      assert to[..k + 1] == to[..k] + [to[k]];
      queued := queued + {Delivery(message, to[k])};
    }
    assert to[..|to|] == to;
  }
}
