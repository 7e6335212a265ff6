/** Every request about rooms, the LXMF group and messages: when it is refused, and otherwise all it does to the tables. */
module Requests {
  import opened Common
  import opened Presence
  import opened Hub
  import opened CatchUps
  import opened PresenceRuns
  import opened Pausing
  import opened PauseSteps
  import opened PauseRuns
  import opened Posting
  import People
  import TearApart
  import BanRuns

  /** The tables but for rooms, the RRC cursors and the pause cursors. */
  ghost predicate SameElse(db: Db, db2: Db) {
    && db2.people == db.people && db2.modes == db.modes && db2.mine == db.mine && db2.members == db.members
    && db2.bans == db.bans && db2.log == db.log && db2.deliveries == db.deliveries
  }

  /** k's cursor has come up to the newest message of its room; no other cursor has moved. */
  predicate CursorUp(db: Db, db2: Db, k: Seat) {
    && k in db2.rrc && db2.rrc[k] == Max(if k in db.rrc then db.rrc[k] else 0, LastIn(db.log, k.room))
    && db2.rrc == db.rrc[k := db2.rrc[k]]
  }

  // ---- joining and leaving ---------------------------------------------------------------------------

  /** One link more: the room is there and used now; a first link moves the cursor. */
  ghost predicate JoinDone(s: State, s2: State, id: Identity, room: Room, now: int) {
    && SameElse(s.db, s2.db)
    && (forall r, i :: Links(s2.presence, r, i) == Links(s.presence, r, i) + (if r == room && i == id then 1 else 0))
    && s2.db.rooms == s.db.rooms[room := RoomRow(room in s.db.rooms && s.db.rooms[room].registered, now)]
    && if Links(s.presence, room, id) == 0 then CursorUp(s.db, s2.db, Seat(room, id)) else s2.db.rrc == s.db.rrc && s2.db.lxmf == s.db.lxmf
  }

  /** A join is refused for the room's reasons and to the banned, and to nobody else. */
  lemma JoinOutcome(s: State, cfg: Config, id: Identity, room: Room, admitted: bool, apps: seq<Identity>, now: int)
    requires Tidy(s.presence)
    ensures Join(s, cfg, id, room, admitted, apps, now).Committed? <==> admitted && id !in s.db.bans
    ensures Join(s, cfg, id, room, admitted, apps, now).Committed? ==> JoinDone(s, Join(s, cfg, id, room, admitted, apps, now).s, id, room, now)
  {
    hide Arrive, LastIn, AddLink;
    AddLinkCounts(s.presence, room, id);
    ArriveDone(s, cfg, JoinDb(s, room, now), id, room, apps);
  }

  lemma ArriveDone(s: State, cfg: Config, db: Db, id: Identity, room: Room, apps: seq<Identity>)
    ensures var db2 := Arrive(s, cfg, db, id, room, apps).0;
            SameElse(db, db2) && db2.rooms == db.rooms && CursorUp(db, db2, Seat(room, id))
  {
    hide PauseEach, PersonOn, LastIn;
    PauseNotes(db.(rrc := SetCursor(db.rrc, Seat(room, id), LastIn(db.log, room))), cfg.group, apps, true);
  }

  /** What leaving does to a room's row: nothing while others are there; else an unregistered room goes, and any other was used just now. */
  predicate RowLeft(s: State, s2: State, cfg: Config, id: Identity, room: Room, now: int) {
    if room !in s.db.rooms || exists i :: i in Members(s.presence, room) && i != id && Links(s.presence, room, i) > 0 then s2.db.rooms == s.db.rooms
    else if s.db.rooms[room].registered || room in cfg.defaults then s2.db.rooms == s.db.rooms[room := RoomRow(s.db.rooms[room].registered, now)]
    else s2.db.rooms == s.db.rooms - {room}
  }

  /** One link less; the last one moves the cursor and may end the room. */
  ghost predicate PartDone(s: State, s2: State, cfg: Config, id: Identity, room: Room, now: int) {
    && SameElse(s.db, s2.db)
    && (forall r, i :: Links(s2.presence, r, i) == if r == room && i == id && Links(s.presence, r, i) > 0 then Links(s.presence, r, i) - 1 else Links(s.presence, r, i))
    && if Links(s.presence, room, id) == 1 then CursorUp(s.db, s2.db, Seat(room, id)) && RowLeft(s, s2, cfg, id, room, now)
       else s2.db == s.db
  }

  lemma PartOutcome(s: State, cfg: Config, id: Identity, room: Room, apps: seq<Identity>, now: int)
    requires Tidy(s.presence)
    ensures Part(s, cfg, id, room, apps, now).Committed? && PartDone(s, Part(s, cfg, id, room, apps, now).s, cfg, id, room, now)
  {
    hide Depart, Tidy, DropLink, CursorUp, RowLeft, SameElse;
    DropLinkCounts(s.presence, room, id);
    DepartDone(s, cfg, id, room, apps, now);
    SameTables(s.db);
  }

  lemma SameTables(db: Db)
    ensures SameElse(db, db)
  {
  }

  lemma DepartDone(s: State, cfg: Config, id: Identity, room: Room, apps: seq<Identity>, now: int)
    ensures var db2 := Depart(s.presence, cfg, s.db, id, room, apps, now).0;
            SameElse(s.db, db2) && CursorUp(s.db, db2, Seat(room, id)) && forall p :: RowLeft(s, State(db2, p), cfg, id, room, now)
  {
    hide PauseEach, PersonOn, LastIn, RoomsLeft;
    var db1 := s.db.(rrc := SetCursor(s.db.rrc, Seat(room, id), LastIn(s.db.log, room)));
    PauseNotes(db1, cfg.group, apps, false);
    RoomsLeftIs(s, cfg, id, room, now);
  }

  lemma RoomsLeftIs(s: State, cfg: Config, id: Identity, room: Room, now: int)
    ensures RowLeft(s, s.(db := s.db.(rooms := RoomsLeft(s.presence, cfg, s.db.rooms, id, room, now))), cfg, id, room, now)
  {
  }

  // ---- messages -------------------------------------------------------------------------------------------

  /** Who a message stored now is queued for. */
  predicate QueuedFor(s: State, cfg: Config, id: Identity, room: Room, via: Via, i: Identity) {
    && room == cfg.group && i in s.db.members && !PausedMember(s, cfg, i)
    && !(i == id && via == LXMF)
    && (i in s.db.mine || !OneOf(s.db.people, i, id))
    && i !in s.db.bans
  }

  /** Two apps of one person, or the same one. */
  predicate OneOf(t: People.Tables, a: Identity, b: Identity) {
    a == b || (a in t.identities && b in t.identities && t.identities[a].person == t.identities[b].person)
  }

  /** Nothing, for a message sent again; else the message, its deliveries, and the room used now. */
  ghost predicate SayDone(s: State, o: Outcome, cfg: Config, id: Identity, room: Room, via: Via, origin: Option<nat>, now: int)
    requires o.Committed?
  {
    var m := Msg(NextId(s.db.log), room, id, via, origin);
    if exists x :: x in s.db.log && SameOrigin(x, m) then o == Committed(s, [])
    else
      && room in s.db.rooms && o.events == [Stored(m)]
      && o.s == s.(db := s.db.(log := s.db.log + [m], rooms := s.db.rooms[room := s.db.rooms[room].(lastUsed := now)], deliveries := o.s.db.deliveries))
      && forall d :: d in o.s.db.deliveries <==> d in s.db.deliveries || (d.message == m.id && QueuedFor(s, cfg, id, room, via, d.to))
  }

  lemma SayOutcome(s: State, cfg: Config, id: Identity, room: Room, via: Via, origin: Option<nat>, allowed: bool, now: int)
    requires Post(s, cfg, id, room, via, origin, allowed, now).Committed?
    ensures SayDone(s, Post(s, cfg, id, room, via, origin, allowed, now), cfg, id, room, via, origin, now)
  {
    var m := Msg(NextId(s.db.log), room, id, via, origin);
    StoredIff(s, cfg, id, room, via, origin, allowed, now);
    if !Duplicate(s.db.log, via, origin) {
      QueuedAll(s, cfg, id, room, via, m.id);
      hide Recipients;
      assert Post(s, cfg, id, room, via, origin, allowed, now).events == [Stored(m)];
    } else {
      DuplicateStays(s, cfg, id, room, via, origin, allowed, now);
    }
    hide Duplicate, NextId, Post;
  }

  lemma DuplicateStays(s: State, cfg: Config, id: Identity, room: Room, via: Via, origin: Option<nat>, allowed: bool, now: int)
    requires Duplicate(s.db.log, via, origin) && Post(s, cfg, id, room, via, origin, allowed, now).Committed?
    ensures Post(s, cfg, id, room, via, origin, allowed, now) == Committed(s, [])
  {
  }

  lemma QueuedAll(s: State, cfg: Config, id: Identity, room: Room, via: Via, m: nat)
    ensures var to := if room == cfg.group then Recipients(s, cfg, id, via) else {};
            forall i :: i in to <==> QueuedFor(s, cfg, id, room, via, i)
  {
  }

  /** A message is deleted if and only if it was named, and its deliveries with it. */
  lemma DeleteOutcome(s: State, ids: set<nat>)
    ensures var s2 := Erase(s, ids).s;
            && s2 == s.(db := s.db.(log := s2.db.log, deliveries := s2.db.deliveries))
            && (forall m :: m in s2.db.log <==> m in s.db.log && m.id !in ids)
            && (forall d :: d in s2.db.deliveries <==> d in s.db.deliveries && d.message !in ids)
  {
    KeptMembers(s.db.log, ids);
    hide Kept;
  }

  // ---- the group ------------------------------------------------------------------------------------------

  /** The mode is set, and nothing else changes but this member's own pause cursor. */
  lemma ModeOutcome(s: State, cfg: Config, id: Identity, mode: Mode)
    ensures var o := SetMode(s, cfg, id, mode);
            && o.Committed? && ModeOf(o.s.db, id) == mode
            && o.s == s.(db := s.db.(modes := s.db.modes[id := mode], lxmf := o.s.db.lxmf))
            && (forall i :: i != id || i !in s.db.members ==> (i in o.s.db.lxmf <==> i in s.db.lxmf) && (i in s.db.lxmf ==> o.s.db.lxmf[i] == s.db.lxmf[i]))
  {
    hide Paused, LastIn, After;
  }

  /** Whether one's own messages come back is as chosen, for this app alone. */
  lemma MineOutcome(s: State, id: Identity, on: bool)
    ensures var o := SetMine(s, id, on);
            && o.Committed? && (id in o.s.db.mine <==> on) && (forall i :: i != id ==> (i in o.s.db.mine <==> i in s.db.mine))
            && o.s == s.(db := s.db.(mine := o.s.db.mine)) && o.events == []
  {
  }

  /** Coming in is refused to the banned; a new member gets everything, its own messages included; an old one keeps its settings. */
  lemma EnterOutcome(s: State, id: Identity, allowed: bool)
    ensures var o := JoinGroup(s, id, allowed);
            && (o.Committed? <==> allowed && id !in s.db.bans)
            && (o.Committed? && id in s.db.members ==> o.s == s)
            && (o.Committed? && id !in s.db.members ==>
                  && ModeOf(o.s.db, id) == On && o.s.db.mine == s.db.mine + {id} && o.s.db.members == s.db.members + {id}
                  && (forall i :: i != id ==> ModeOf(o.s.db, i) == ModeOf(s.db, i))
                  && o.s == s.(db := s.db.(members := o.s.db.members, mine := o.s.db.mine, modes := o.s.db.modes)))
  {
  }

  /** A member that goes takes what was queued for it along, and nothing of anyone else's. */
  lemma QuitOutcome(s: State, id: Identity)
    ensures var o := LeaveGroup(s, id);
            && o.Committed? && o.s == s.(db := s.db.(members := s.db.members - {id}, deliveries := o.s.db.deliveries))
            && (forall d :: d in o.s.db.deliveries <==> d in s.db.deliveries && !(id in s.db.members && d.to == id))
  {
    if id !in s.db.members {
      assert s.db.members - {id} == s.db.members;
    }
  }

  // ---- operators ------------------------------------------------------------------------------------------

  lemma {:induction false} BannedUntil(bans: map<Identity, int>, apps: seq<Identity>, until: int)
    ensures forall i :: i in Banned(bans, apps, until) <==> i in bans || i in apps
    ensures forall i :: i in Banned(bans, apps, until) ==> Banned(bans, apps, until)[i] == if i in apps then until else bans[i]
    decreases |apps|
  {
    if apps != [] {
      BannedUntil(bans[apps[0] := until], apps[1..], until);
      assert forall i :: i in apps <==> i == apps[0] || i in apps[1..];
    }
  }

  /** All apps are out of the group and every room, with what was queued for them, and banned until then if it is a ban; nobody else is touched. */
  lemma PutOutOutcome(s: State, id: Identity, apps: seq<Identity>, others: seq<Identity>, rows: seq<PersonId>, seats: seq<Seat>, ban: Option<int>, now: int)
    requires Tidy(s.presence) && |rows| == |others| && ListsSeats(s.presence, apps, seats)
    ensures var o := Remove(s, id, apps, others, rows, seats, ban, now);
            && o.Committed?
            && (forall i :: i in o.s.db.members <==> i in s.db.members && i !in apps)
            && (forall d :: d in o.s.db.deliveries <==> d in s.db.deliveries && d.to !in apps)
            && (forall r, i :: Present(o.s.presence, r, i) <==> Present(s.presence, r, i) && i !in apps)
            && (forall i :: i in o.s.db.bans <==> i in s.db.bans || (ban.Some? && i in apps))
            && (forall i :: i in o.s.db.bans ==> o.s.db.bans[i] == if ban.Some? && i in apps then ban.value else s.db.bans[i])
            && o.s.db == s.db.(people := o.s.db.people, members := o.s.db.members, deliveries := o.s.db.deliveries, bans := o.s.db.bans)
  {
    PutOutTables(s, id, apps, others, rows, seats, ban, now);
    PutOutPlaces(s, id, apps, others, rows, seats, ban, now);
    hide Remove, ListsSeats, Present;
  }

  lemma PutOutTables(s: State, id: Identity, apps: seq<Identity>, others: seq<Identity>, rows: seq<PersonId>, seats: seq<Seat>, ban: Option<int>, now: int)
    requires |rows| == |others|
    ensures var o := Remove(s, id, apps, others, rows, seats, ban, now);
            && o.Committed?
            && (forall i :: i in o.s.db.members <==> i in s.db.members && i !in apps)
            && (forall d :: d in o.s.db.deliveries <==> d in s.db.deliveries && d.to !in apps)
            && (forall i :: i in o.s.db.bans <==> i in s.db.bans || (ban.Some? && i in apps))
            && (forall i :: i in o.s.db.bans ==> o.s.db.bans[i] == if ban.Some? && i in apps then ban.value else s.db.bans[i])
            && o.s.db == s.db.(people := o.s.db.people, members := o.s.db.members, deliveries := o.s.db.deliveries, bans := o.s.db.bans)
  {
    hide WithoutMembers, Banned, TearApart.TornApart, ForgetSeats;
    BanRuns.WithoutMembersGone(s.db, apps);
    if ban.Some? {
      BannedUntil(s.db.bans, apps, ban.value);
    }
  }

  lemma PutOutPlaces(s: State, id: Identity, apps: seq<Identity>, others: seq<Identity>, rows: seq<PersonId>, seats: seq<Seat>, ban: Option<int>, now: int)
    requires Tidy(s.presence) && |rows| == |others| && ListsSeats(s.presence, apps, seats)
    ensures var o := Remove(s, id, apps, others, rows, seats, ban, now);
            forall r, i :: Present(o.s.presence, r, i) <==> Present(s.presence, r, i) && i !in apps
  {
    hide Tidy, Seats, ForgetSeats, WithoutMembers, Banned, TearApart.TornApart, Present;
    var o := Remove(s, id, apps, others, rows, seats, ban, now);
    ForgetSeatsAll(s.presence, seats);
    forall r, i
      ensures Present(o.s.presence, r, i) <==> Present(s.presence, r, i) && i !in apps
    {
      InSeats(o.s.presence, r, i);
      InSeats(s.presence, r, i);
      assert Seat(r, i) in seats <==> i in apps && Present(s.presence, r, i);
    }
  }

  /** Out of the room, and from the group room out of the group too; cursors stay. */
  lemma RoomRemoveOutcome(s: State, cfg: Config, id: Identity, room: Room)
    requires Tidy(s.presence)
    ensures var o := RoomRemove(s, cfg, id, room);
            && o.Committed?
            && (forall r, i :: Links(o.s.presence, r, i) == if r == room && i == id then 0 else Links(s.presence, r, i))
            && (room != cfg.group ==> o.s.db == s.db)
            && (room == cfg.group ==>
                  && o.s.db == s.db.(members := s.db.members - {id}, deliveries := o.s.db.deliveries)
                  && forall d :: d in o.s.db.deliveries <==> d in s.db.deliveries && d.to != id)
  {
    ForgetCounts(s.presence, room, id);
    hide Tidy, Forget;
  }

  lemma UnbanOutcome(s: State, ids: set<Identity>)
    ensures var o := LiftBans(s, ids);
            && o.Committed? && o.s == s.(db := s.db.(bans := o.s.db.bans))
            && (forall i :: i in o.s.db.bans <==> i in s.db.bans && i !in ids)
            && (forall i :: i in o.s.db.bans ==> o.s.db.bans[i] == s.db.bans[i])
  {
  }

  // ---- maintenance ------------------------------------------------------------------------------------------

  /** Everyone present has their cursor at the newest message, or where it was if that is later; nobody else's moves. */
  lemma SaveOutcome(s: State, k: Seat)
    ensures var s2 := SaveCursors(s);
            && s2 == s.(db := s.db.(rrc := s2.db.rrc))
            && (k in s2.db.rrc <==> k in s.db.rrc || Present(s.presence, k.room, k.id))
            && (Present(s.presence, k.room, k.id) ==> s2.db.rrc[k] == Max(if k in s.db.rrc then s.db.rrc[k] else 0, LastIn(s.db.log, k.room)))
            && (!Present(s.presence, k.room, k.id) && k in s.db.rrc ==> s2.db.rrc[k] == s.db.rrc[k])
  {
    InSeats(s.presence, k.room, k.id);
    hide LastIn, Seats, Present;
  }

  /** A room's row goes if and only if it is not configured, nobody is in the room, and it was last used before the cutoff. */
  lemma PruneOutcome(s: State, cfg: Config, room: Room, cutoff: int)
    ensures var o := PruneRoom(s, cfg, room, cutoff);
            && o.Committed?
            && o.s.db.rooms == (if room in s.db.rooms && room !in cfg.defaults && room !in s.presence && s.db.rooms[room].lastUsed < cutoff
                                then s.db.rooms - {room} else s.db.rooms)
            && o.s == s.(db := s.db.(rooms := o.s.db.rooms))
  {
  }

  lemma StoreRoomOutcome(s: State, room: Room, registered: bool, now: int)
    ensures var o := PutRoom(s, room, registered, now);
            && o.Committed? && room in o.s.db.rooms && o.s.db.rooms[room].registered == registered && o.s.db.rooms[room].lastUsed == now
            && o.s.db.rooms - {room} == s.db.rooms - {room} && o.s == s.(db := s.db.(rooms := o.s.db.rooms))
  {
  }

  // ---- people -----------------------------------------------------------------------------------------------

  /** Whoever is new is a person of its own; the banned are turned away. */
  lemma IdentifyOutcome(s: State, id: Identity, row: PersonId, now: int)
    requires row !in s.db.people.people
    ensures var o := DoIdentify(s, id, row, now);
            && (o.Committed? <==> id !in s.db.bans)
            && (o.Committed? && id in s.db.people.identities ==> o == Committed(s, []))
            && (o.Committed? && id !in s.db.people.identities ==>
                  && o.s.db.people.identities == s.db.people.identities[id := People.Home(row, now)]
                  && o.s.db.people.people == s.db.people.people[row := People.Person(People.Member, People.DEFAULT_PREFS)]
                  && o.s == s.(db := s.db.(people := s.db.people.(identities := o.s.db.people.identities, people := o.s.db.people.people))))
  {
  }

  /** /forget: out of the group with what was queued, the other apps on their own, the name free. */
  lemma ForgetMeOutcome(s: State, id: Identity, others: seq<Identity>, rows: seq<PersonId>, now: int)
    requires |rows| == |others| && id in s.db.people.identities
    ensures var o := DoForget(s, id, others, rows, now);
            && o.Committed? && o.s.presence == s.presence
            && o.s.db == s.db.(people := o.s.db.people, members := s.db.members - {id}, deliveries := o.s.db.deliveries)
            && (forall d :: d in o.s.db.deliveries <==> d in s.db.deliveries && !(id in s.db.members && d.to == id))
            && o.s.db.people.identities == TearApart.UnlinkEach(s.db.people, others, rows, now).identities
            && (id in o.s.db.people.identities ==> o.s.db.people.identities[id].person !in o.s.db.people.names)
  {
    hide TearApart.UnlinkEach;
    if id !in s.db.members {
      assert s.db.members - {id} == s.db.members;
    }
  }
}
