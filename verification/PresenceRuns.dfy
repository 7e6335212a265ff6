/**
 Presence and its events: folding the JOINED and PARTED events of committed
 requests gives exactly who is where, after every step.
 */
module PresenceRuns {
  import opened Common
  import opened Presence
  import opened Hub
  import People
  import PeopleLaws
  import TearApart

  function Heard(there: set<Seat>, e: Event): set<Seat> {
    if e.Joined? then there + {e.seat} else if e.Parted? then there - {e.seat} else there
  }

  /** Who a listener believes to be in which room. */
  function Fold(there: set<Seat>, events: seq<Event>): set<Seat> {
    if events == [] then there else Heard(Fold(there, events[..|events| - 1]), events[|events| - 1])
  }

  ghost predicate RoomsKept(s: State) {
    forall r :: r in s.presence ==> r in s.db.rooms
  }

  /** What a committed request must do to presence. */
  ghost predicate Told(s: State, o: Outcome) {
    o.Committed? ==> Tidy(o.s.presence) && Seats(o.s.presence) == Fold(Seats(s.presence), o.events)
  }

  lemma InSeats(p: Presence.Map, r: Room, i: Identity)
    ensures Seat(r, i) in Seats(p) <==> Present(p, r, i)
  {
  }

  /** Events that are not about presence. */
  ghost predicate Notes(events: seq<Event>) {
    forall i :: 0 <= i < |events| ==> !events[i].Joined? && !events[i].Parted?
  }

  lemma {:induction false} FoldNotes(there: set<Seat>, events: seq<Event>)
    requires Notes(events)
    ensures Fold(there, events) == there
  {
    if events != [] {
      FoldNotes(there, events[..|events| - 1]);
    }
  }

  lemma {:induction false} FoldConcat(there: set<Seat>, a: seq<Event>, b: seq<Event>)
    ensures Fold(there, a + b) == Fold(Fold(there, a), b)
    decreases |b|
  {
    if b == [] {
      assert a + b == a;
    } else {
      var init := b[..|b| - 1];
      assert (a + b)[..|a + b| - 1] == a + init;
      FoldConcat(there, a, init);
    }
  }

  lemma FoldOne(there: set<Seat>, e: Event)
    ensures Fold(there, [e]) == Heard(there, e)
  {
  }

  /** Quiet requests: presence as before, and nothing said about it. */
  lemma QuietTold(s: State, o: Outcome)
    requires Tidy(s.presence) && (o.Committed? ==> o.s.presence == s.presence && Notes(o.events))
    ensures Told(s, o)
  {
    if o.Committed? {
      FoldNotes(Seats(s.presence), o.events);
    }
  }

  lemma {:induction false} PauseNotes(db: Db, g: Room, apps: seq<Identity>, paused: bool)
    ensures Notes(PauseEach(db, g, apps, paused).1)
    ensures PauseEach(db, g, apps, paused).0 == db.(lxmf := PauseEach(db, g, apps, paused).0.lxmf)
    decreases |apps|
  {
    if apps != [] {
      var lxmf := PauseChange(db.log, g, db.lxmf, apps[0], !paused, paused).0;
      PauseNotes(db, g, apps[1..], paused);
      PauseNotes(db.(lxmf := lxmf), g, apps[1..], paused);
    }
  }

  // ---- joining and leaving --------------------------------------------------------------

  lemma AddLinkSeats(p: Presence.Map, room: Room, id: Identity)
    requires Tidy(p)
    ensures Tidy(AddLink(p, room, id)) && Seats(AddLink(p, room, id)) == Seats(p) + {Seat(room, id)}
  {
    AddLinkCounts(p, room, id);
    hide Tidy, AddLink, Links, Seats;
    SeatsByLinks(AddLink(p, room, id), p, {Seat(room, id)}, {});
  }

  /** Seats follow the link counts. */
  lemma SeatsByLinks(q: Presence.Map, p: Presence.Map, more: set<Seat>, less: set<Seat>)
    requires forall r, i :: Links(q, r, i) > 0 <==> (Links(p, r, i) > 0 || Seat(r, i) in more) && Seat(r, i) !in less
    ensures Seats(q) == (Seats(p) + more) - less
  {
    forall k: Seat
      ensures k in Seats(q) <==> k in (Seats(p) + more) - less
    {
      InSeats(q, k.room, k.id);
      InSeats(p, k.room, k.id);
      assert k == Seat(k.room, k.id);
      assert Links(q, k.room, k.id) > 0 <==> (Links(p, k.room, k.id) > 0 || k in more) && k !in less;
    }
  }

  lemma ForgetSeat(p: Presence.Map, room: Room, id: Identity)
    requires Tidy(p)
    ensures Tidy(Forget(p, room, id)) && Seats(Forget(p, room, id)) == Seats(p) - {Seat(room, id)}
  {
    ForgetCounts(p, room, id);
    hide Tidy, Forget, Links, Seats;
    SeatsByLinks(Forget(p, room, id), p, {}, {Seat(room, id)});
  }

  lemma DropLinkSeats(p: Presence.Map, room: Room, id: Identity)
    requires Tidy(p)
    ensures Tidy(DropLink(p, room, id))
    ensures Seats(DropLink(p, room, id)) == if Links(p, room, id) > 1 then Seats(p) else Seats(p) - {Seat(room, id)}
  {
    DropLinkCounts(p, room, id);
    var less := if Links(p, room, id) > 1 then {} else {Seat(room, id)};
    hide Tidy, DropLink, Links, Seats;
    SeatsByLinks(DropLink(p, room, id), p, {}, less);
  }

  lemma JoinTold(s: State, cfg: Config, id: Identity, room: Room, admitted: bool, apps: seq<Identity>, now: int)
    requires Tidy(s.presence)
    ensures Told(s, Join(s, cfg, id, room, admitted, apps, now))
  {
    var there := Seats(s.presence);
    AddLinkSeats(s.presence, room, id);
    InSeats(s.presence, room, id);
    ArriveNotes(s, cfg, id, room, apps, now);
    hide Seats, Tidy, AddLink, Present, Links, Arrive;
    var o := Join(s, cfg, id, room, admitted, apps, now);
    if o.Committed? && !Present(s.presence, room, id) {
      var notes := Arrive(s, cfg, JoinDb(s, room, now), id, room, apps).1;
      FoldNotes(there, notes);
      FoldConcat(there, notes, [Joined(Seat(room, id))]);
      FoldOne(there, Joined(Seat(room, id)));
    }
  }

  function JoinDb(s: State, room: Room, now: int): Db {
    s.db.(rooms := s.db.rooms[room := RoomRow(room in s.db.rooms && s.db.rooms[room].registered, now)])
  }

  lemma ArriveNotes(s: State, cfg: Config, id: Identity, room: Room, apps: seq<Identity>, now: int)
    ensures Notes(Arrive(s, cfg, JoinDb(s, room, now), id, room, apps).1)
    ensures Arrive(s, cfg, JoinDb(s, room, now), id, room, apps).0.rooms == JoinDb(s, room, now).rooms
  {
    hide PauseEach, PersonOn;
    var db := JoinDb(s, room, now);
    PauseNotes(db.(rrc := SetCursor(db.rrc, Seat(room, id), LastIn(db.log, room))), cfg.group, apps, true);
  }

  lemma DepartNotes(p: Presence.Map, cfg: Config, db: Db, id: Identity, room: Room, apps: seq<Identity>, now: int)
    ensures var d := Depart(p, cfg, db, id, room, apps, now);
            d.1 != [] && d.1[0] == Parted(Seat(room, id)) && Notes(d.1[1..]) && d.0.rooms == RoomsLeft(p, cfg, db.rooms, id, room, now)
  {
    hide PauseEach, PersonOn, RoomsLeft;
    var db1 := db.(rrc := SetCursor(db.rrc, Seat(room, id), LastIn(db.log, room)));
    PauseNotes(db1, cfg.group, apps, false);
    var notes := if room == cfg.group && !PersonOn(State(db, p), id, room, Some(id)) then PauseEach(db1, cfg.group, apps, false).1 else [];
    assert ([Parted(Seat(room, id))] + notes)[1..] == notes;
  }

  lemma PartTold(s: State, cfg: Config, id: Identity, room: Room, apps: seq<Identity>, now: int)
    requires Tidy(s.presence)
    ensures Told(s, Part(s, cfg, id, room, apps, now))
  {
    var there := Seats(s.presence);
    DropLinkSeats(s.presence, room, id);
    hide Seats, Tidy, DropLink, Links, Depart;
    if Links(s.presence, room, id) == 1 {
      var events := Depart(s.presence, cfg, s.db, id, room, apps, now).1;
      DepartNotes(s.presence, cfg, s.db, id, room, apps, now);
      assert events == [events[0]] + events[1..];
      FoldConcat(there, [events[0]], events[1..]);
      FoldOne(there, events[0]);
      FoldNotes(there - {Seat(room, id)}, events[1..]);
    }
  }

  // ---- a closed link is a series of PARTs -------------------------------------------------

  function PartEach(s: State, cfg: Config, id: Identity, rooms: seq<Room>, apps: seq<Identity>, now: int): Outcome
    decreases |rooms|
  {
    if rooms == [] then Committed(s, [])
    else
      var first := Part(s, cfg, id, rooms[0], apps, now);
      var rest := PartEach(first.s, cfg, id, rooms[1..], apps, now);
      Committed(rest.s, first.events + rest.events)
  }

  ghost predicate SameRoom(p: Presence.Map, q: Presence.Map, room: Room) {
    Members(p, room) == Members(q, room)
  }

  lemma SameRoomLinks(p: Presence.Map, q: Presence.Map, room: Room)
    requires SameRoom(p, q, room)
    ensures forall i :: Links(p, room, i) == Links(q, room, i)
    ensures forall i :: Present(p, room, i) == Present(q, room, i)
  {
  }

  /** What leaving a room does depends on who is in that room only. */
  lemma PartDbLocal(p: Presence.Map, q: Presence.Map, cfg: Config, db: Db, id: Identity, room: Room, apps: seq<Identity>, now: int)
    requires SameRoom(p, q, room)
    ensures PartDb(p, cfg, db, id, room, apps, now) == PartDb(q, cfg, db, id, room, apps, now)
  {
    SameRoomLinks(p, q, room);
    hide Links, Present, PauseEach, LastIn, Fellows;
    assert PersonOn(State(db, p), id, room, Some(id)) == PersonOn(State(db, q), id, room, Some(id));
    assert OthersIn(p, room, id) == OthersIn(q, room, id);
  }

  lemma DropLinkElsewhere(p: Presence.Map, room: Room, id: Identity, other: Room)
    requires other != room
    ensures SameRoom(DropLink(p, room, id), p, other)
  {
  }

  lemma {:induction false} DisconnectFrom(p: Presence.Map, s: State, cfg: Config, id: Identity, rooms: seq<Room>, apps: seq<Identity>, now: int)
    requires NoRepeats(rooms) && forall r :: r in rooms ==> SameRoom(s.presence, p, r)
    ensures var (db, events) := DisconnectDb(p, cfg, s.db, id, rooms, apps, now);
            PartEach(s, cfg, id, rooms, apps, now) == Committed(State(db, DropEach(s.presence, id, rooms)), events)
    decreases |rooms|
  {
    if rooms != [] {
      var room, rest := rooms[0], rooms[1..];
      var first := Part(s, cfg, id, room, apps, now);
      assert room in rooms;
      PartDbLocal(s.presence, p, cfg, s.db, id, room, apps, now);
      PartIsPartDb(s, cfg, id, room, apps, now);
      forall r | r in rest
        ensures SameRoom(first.s.presence, p, r)
      {
        DropLinkElsewhere(s.presence, room, id, r);
        assert r in rooms;
      }
      hide Part, PartDb, SameRoom, DropLink;
      DisconnectFrom(p, first.s, cfg, id, rest, apps, now);
    }
  }

  lemma PartIsPartDb(s: State, cfg: Config, id: Identity, room: Room, apps: seq<Identity>, now: int)
    ensures var (db, events) := PartDb(s.presence, cfg, s.db, id, room, apps, now);
            Part(s, cfg, id, room, apps, now) == Committed(State(db, DropLink(s.presence, room, id)), events)
  {
  }

  /** Leaving all of a link's rooms at once, with presence updated after the commit, is leaving them one by one. */
  lemma DisconnectIsParts(s: State, cfg: Config, id: Identity, rooms: seq<Room>, apps: seq<Identity>, now: int)
    requires NoRepeats(rooms)
    ensures Disconnect(s, cfg, id, rooms, apps, now) == PartEach(s, cfg, id, rooms, apps, now)
  {
    DisconnectFrom(s.presence, s, cfg, id, rooms, apps, now);
  }

  // ---- removals ------------------------------------------------------------------------------

  lemma {:induction false} ForgetSeatsAll(p: Presence.Map, seats: seq<Seat>)
    requires Tidy(p)
    ensures Tidy(ForgetSeats(p, seats))
    ensures Seats(ForgetSeats(p, seats)) == Seats(p) - (set k | k in seats)
    decreases |seats|
  {
    if seats != [] {
      ForgetSeat(p, seats[0].room, seats[0].id);
      hide Tidy, Forget, Seats;
      ForgetSeatsAll(Forget(p, seats[0].room, seats[0].id), seats[1..]);
      assert (set k | k in seats) == {seats[0]} + (set k | k in seats[1..]);
    }
  }

  lemma {:induction false} FoldParted(there: set<Seat>, seats: seq<Seat>)
    ensures Fold(there, PartedAll(seats)) == there - (set k | k in seats)
  {
    var events := PartedAll(seats);
    if seats != [] {
      var init := seats[..|seats| - 1];
      assert events[..|events| - 1] == PartedAll(init);
      FoldParted(there, init);
      assert (set k | k in seats) == (set k | k in init) + {seats[|seats| - 1]};
    }
  }

  lemma RemoveTold(s: State, id: Identity, apps: seq<Identity>, others: seq<Identity>, rows: seq<PersonId>, seats: seq<Seat>, ban: Option<int>, now: int)
    requires Tidy(s.presence) && |rows| == |others|
    ensures Told(s, Remove(s, id, apps, others, rows, seats, ban, now))
  {
    ForgetSeatsAll(s.presence, seats);
    FoldParted(Seats(s.presence), seats);
    hide Tidy, Seats, Fold, ForgetSeats, PartedAll, WithoutMembers, Banned, TearApart.TornApart;
  }

  lemma RoomRemoveTold(s: State, cfg: Config, id: Identity, room: Room)
    requires Tidy(s.presence)
    ensures Told(s, RoomRemove(s, cfg, id, room))
  {
    ForgetSeat(s.presence, room, id);
    FoldOne(Seats(s.presence), Parted(Seat(room, id)));
    hide Tidy, Seats, Forget, Present;
  }

  lemma HandleTold(s: State, cfg: Config, r: Request)
    requires Tidy(s.presence)
    ensures Told(s, Handle(s, cfg, r))
  {
    hide Told, Tidy, Join, Part, Remove, RoomRemove, ListsApps, ListsSeats, ListsOthers;
    match r
    case JoinRoom(id, room, admitted, apps, now) =>
      QuietTold(s, Aborted);
      JoinTold(s, cfg, id, room, admitted, apps, now);
    case PartRoom(id, room, apps, now) =>
      QuietTold(s, Aborted);
      PartTold(s, cfg, id, room, apps, now);
    case PutOut(id, apps, others, rows, seats, ban, now) =>
      QuietTold(s, Aborted);
      if ListsOthers(s.db.people, id, others, rows) {
        assert |rows| == |others| by { OthersFit(s.db.people, id, others, rows); }
        RemoveTold(s, id, apps, others, rows, seats, ban, now);
      }
    case PutOutOfRoom(id, room) => RoomRemoveTold(s, cfg, id, room);
    case _ =>
      OtherRequests(s, cfg, r);
      QuietTold(s, Handle(s, cfg, r));
  }

  lemma OthersFit(t: People.Tables, id: Identity, others: seq<Identity>, rows: seq<PersonId>)
    requires ListsOthers(t, id, others, rows)
    ensures |rows| == |others|
  {
  }

  ghost predicate AboutPresence(r: Request) {
    r.JoinRoom? || r.PartRoom? || r.PutOut? || r.PutOutOfRoom?
  }

  lemma OtherRequests(s: State, cfg: Config, r: Request)
    requires !AboutPresence(r)
    ensures var o := Handle(s, cfg, r); o.Committed? ==> o.s.presence == s.presence && Notes(o.events)
  {
    hide MayPost, Duplicate, Recipients, Kept, Seats, LastIn, After, ListsOthers, PersonOn;
  }

  // ---- rooms ----------------------------------------------------------------------------------

  lemma JoinRooms(s: State, cfg: Config, id: Identity, room: Room, admitted: bool, apps: seq<Identity>, now: int)
    requires RoomsKept(s)
    ensures var o := Join(s, cfg, id, room, admitted, apps, now); o.Committed? ==> RoomsKept(o.s)
  {
    ArriveNotes(s, cfg, id, room, apps, now);
    hide Arrive, Present, Links;
  }

  lemma PartRooms(s: State, cfg: Config, id: Identity, room: Room, apps: seq<Identity>, now: int)
    requires RoomsKept(s) && Tidy(s.presence)
    ensures var o := Part(s, cfg, id, room, apps, now); o.Committed? ==> RoomsKept(o.s)
  {
    DepartNotes(s.presence, cfg, s.db, id, room, apps, now);
    LastLeaves(s.presence, room, id);
    hide Depart, Tidy;
  }

  /** When the last link of the last member goes, so does the room's presence. */
  lemma LastLeaves(p: Presence.Map, room: Room, id: Identity)
    requires Tidy(p)
    ensures DropLink(p, room, id).Keys <= p.Keys
    ensures Links(p, room, id) == 1 && !OthersIn(p, room, id) ==> room !in DropLink(p, room, id)
  {
    if Links(p, room, id) == 1 && !OthersIn(p, room, id) {
      forall i | i in p[room]
        ensures i == id
      {
        assert Present(p, room, i);
      }
      assert p[room] - {id} == map[];
    }
  }

  /** A room whose last member leaves is forgotten exactly when it is neither registered nor one of the hub's own. */
  lemma EmptyRoomGoes(s: State, cfg: Config, id: Identity, room: Room, apps: seq<Identity>, now: int)
    requires Links(s.presence, room, id) == 1 && room in s.db.rooms
    ensures var s2 := Part(s, cfg, id, room, apps, now).s;
            && (room !in s2.db.rooms <==> !OthersIn(s.presence, room, id) && !s.db.rooms[room].registered && room !in cfg.defaults)
            && (forall r :: r != room ==> (r in s2.db.rooms <==> r in s.db.rooms))
  {
    DepartNotes(s.presence, cfg, s.db, id, room, apps, now);
    hide Depart, OthersIn;
  }

  lemma {:induction false} ForgetSeatsRooms(p: Presence.Map, seats: seq<Seat>)
    ensures ForgetSeats(p, seats).Keys <= p.Keys
    decreases |seats|
  {
    if seats != [] {
      ForgetSeatsRooms(Forget(p, seats[0].room, seats[0].id), seats[1..]);
    }
  }

  lemma {:induction false} WithoutMembersSame(db: Db, apps: seq<Identity>)
    ensures var d := WithoutMembers(db, apps); d == db.(members := d.members, deliveries := d.deliveries)
    decreases |apps|
  {
    if apps != [] {
      WithoutMembersSame(WithoutMember(db, apps[0]), apps[1..]);
    }
  }

  lemma HandleRooms(s: State, cfg: Config, r: Request)
    requires RoomsKept(s) && Tidy(s.presence)
    ensures var o := Handle(s, cfg, r); o.Committed? ==> RoomsKept(o.s)
  {
    if AboutPresence(r) {
      hide Tidy, Join, Part, ForgetSeats, WithoutMembers, ListsApps, ListsSeats, ListsOthers, TearApart.TornApart;
      match r
      case JoinRoom(id, room, admitted, apps, now) => JoinRooms(s, cfg, id, room, admitted, apps, now);
      case PartRoom(id, room, apps, now) => PartRooms(s, cfg, id, room, apps, now);
      case PutOut(id, apps, others, rows, seats, ban, now) =>
        ForgetSeatsRooms(s.presence, seats);
        WithoutMembersSame(s.db, apps);
      case PutOutOfRoom(id, room) =>
    } else {
      OtherRequests(s, cfg, r);
      OtherRooms(s, cfg, r);
      hide Tidy, Handle;
    }
  }

  /** Only pruning removes a row, and not one with someone in the room. */
  lemma OtherRooms(s: State, cfg: Config, r: Request)
    requires !AboutPresence(r)
    ensures var o := Handle(s, cfg, r); o.Committed? ==> forall q :: q in s.db.rooms && q in s.presence ==> q in o.s.db.rooms
  {
    hide Duplicate, Recipients, Kept, Seats, SavedCursor, LastIn, After, ListsOthers, Paused, ListsApps, Join, Part, Remove, RoomRemove,
         DoIdentify, DoUnlink, DoForget, Regrouped;
    if r.Identify? || r.LinkApp? || r.UnlinkApp? || r.ForgetMe? {
      PeopleRooms(s, cfg, r);
      hide Handle;
    }
  }

  lemma PeopleRooms(s: State, cfg: Config, r: Request)
    requires r.Identify? || r.LinkApp? || r.UnlinkApp? || r.ForgetMe?
    ensures var o := Handle(s, cfg, r); o.Committed? ==> o.s.db.rooms == s.db.rooms
  {
    hide ListsOthers, People.Touched, People.Unlinked, People.Released, PeopleLaws.HubLinked, TearApart.UnlinkEach;
  }

  // ---- whole runs --------------------------------------------------------------------------------

  /** A request, or the process stopping or crashing; listeners start afresh with the process. */
  datatype Step = Ask(r: Request) | Stopped | Crashed

  datatype World = World(s: State, heard: seq<Event>)

  ghost function Next(w: World, cfg: Config, t: Step): World {
    match t
    case Stopped => World(Stop(w.s), [])
    case Crashed => World(Gone(w.s), [])
    case Ask(r) =>
      var o := Handle(w.s, cfg, r);
      if o.Aborted? then w else World(o.s, w.heard + o.events)
  }

  ghost function Run(cfg: Config, ts: seq<Step>): World
    decreases |ts|
  {
    if ts == [] then World(Hub.EMPTY_HUB, []) else Next(Run(cfg, ts[..|ts| - 1]), cfg, ts[|ts| - 1])
  }

  ghost predicate Inv(w: World) {
    Tidy(w.s.presence) && RoomsKept(w.s) && Fold({}, w.heard) == Seats(w.s.presence)
  }

  lemma NextKeeps(w: World, cfg: Config, t: Step)
    requires Inv(w)
    ensures Inv(Next(w, cfg, t))
  {
    if t.Ask? {
      HandleTold(w.s, cfg, t.r);
      HandleRooms(w.s, cfg, t.r);
      hide Handle, Tidy, RoomsKept, Seats;
      var o := Handle(w.s, cfg, t.r);
      if o.Committed? {
        FoldConcat({}, w.heard, o.events);
      }
    }
  }

  lemma {:induction false} RunKeeps(cfg: Config, ts: seq<Step>)
    ensures Inv(Run(cfg, ts))
    decreases |ts|
  {
    if ts != [] {
      hide Inv, Next;
      RunKeeps(cfg, ts[..|ts| - 1]);
      NextKeeps(Run(cfg, ts[..|ts| - 1]), cfg, ts[|ts| - 1]);
    }
  }

  /**
   After every step, aborted requests included, the events heard say exactly
   who is in which room; counts are positive, no empty room is kept, and every
   room with someone in it has its row.
   */
  lemma EventsTellPresence(cfg: Config, ts: seq<Step>, room: Room, id: Identity)
    ensures var w := Run(cfg, ts);
            && (Seat(room, id) in Fold({}, w.heard) <==> Present(w.s.presence, room, id))
            && Tidy(w.s.presence)
            && (room in w.s.presence ==> room in w.s.db.rooms)
  {
    RunKeeps(cfg, ts);
    hide Run, Fold;
    InSeats(Run(cfg, ts).s.presence, room, id);
  }
}
