/**
 The hub: one request at a time, each a transaction on the database whose
 in-memory changes and events are applied only when it commits. This module
 has the requests about rooms, the LXMF group, messages and removal.
 */
module Hub {
  import opened Common
  import opened Presence
  import People
  import PeopleLaws
  import TearApart

  datatype Seat = Seat(room: Room, id: Identity)
  datatype Via = RRC | LXMF | Page
  datatype Mode = On | Off | Auto

  /** origin is the sender's own message id, for de-duplication. */
  datatype Msg = Msg(id: nat, room: Room, author: Identity, via: Via, origin: Option<nat>)

  datatype RoomRow = RoomRow(registered: bool, lastUsed: int)
  datatype Delivery = Delivery(message: nat, to: Identity)

  datatype Event =
    | Joined(seat: Seat)
    | Parted(seat: Seat)
    | Resumed(id: Identity, missed: nat)
    | Stored(message: Msg)

  datatype Config = Config(group: Room, defaults: set<Room>, firstVisit: nat, replayMax: nat)

  /** The tables. rrc and lxmf are the cursors of the two ways in; lxmf ones are for the group room. */
  datatype Db = Db(
    people: People.Tables,
    modes: map<Identity, Mode>,
    mine: set<Identity>,
    members: set<Identity>,
    bans: map<Identity, int>,
    rooms: map<Room, RoomRow>,
    log: seq<Msg>,
    rrc: map<Seat, nat>,
    lxmf: map<Identity, nat>,
    deliveries: set<Delivery>)

  datatype State = State(db: Db, presence: Presence.Map)

  /** A request aborts, changing nothing, or commits with what it did and the events it publishes. */
  datatype Outcome = Aborted | Committed(s: State, events: seq<Event>)

  // ---- reading the tables ----------------------------------------------------------

  function LastIn(log: seq<Msg>, room: Room): nat {
    if log == [] then 0
    else if log[|log| - 1].room == room then log[|log| - 1].id
    else LastIn(log[..|log| - 1], room)
  }

  /** The messages of a room after a cursor, oldest first. */
  function After(log: seq<Msg>, room: Room, cursor: nat): seq<Msg> {
    if log == [] then []
    else After(log[..|log| - 1], room, cursor) +
         (if log[|log| - 1].room == room && log[|log| - 1].id > cursor then [log[|log| - 1]] else [])
  }

  function LastN(ms: seq<Msg>, n: nat): seq<Msg> {
    if |ms| <= n then ms else ms[|ms| - n..]
  }

  function Latest(log: seq<Msg>, room: Room, n: nat): seq<Msg> {
    LastN(After(log, room, 0), n)
  }

  /** What someone joining a room is shown: the latest few on a first visit, then what they missed, up to a cap. */
  function CatchUp(log: seq<Msg>, room: Room, cursor: Option<nat>, cfg: Config): seq<Msg> {
    if cursor.None? then Latest(log, room, cfg.firstVisit)
    else
      var missed := After(log, room, cursor.value);
      if |missed| > cfg.replayMax then Latest(log, room, cfg.replayMax) else missed
  }

  /** A cursor never moves back. */
  function SetCursor<K>(m: map<K, nat>, k: K, at: nat): map<K, nat> {
    m[k := if k in m && m[k] > at then m[k] else at]
  }

  function Cursor(m: map<Seat, nat>, k: Seat): Option<nat> {
    if k in m then Some(m[k]) else None
  }

  function NextId(log: seq<Msg>): nat {
    if log == [] then 1 else log[|log| - 1].id + 1
  }

  function ModeOf(db: Db, id: Identity): Mode {
    if id in db.modes then db.modes[id] else On
  }

  /** The apps of id's person; an identity never seen stands alone. */
  function Fellows(t: People.Tables, id: Identity): set<Identity> {
    if id in t.identities then People.Apps(t, t.identities[id].person) else {id}
  }

  predicate SamePerson(t: People.Tables, a: Identity, b: Identity) {
    a == b || (a in t.identities && b in t.identities && t.identities[a].person == t.identities[b].person)
  }

  /** An app of id's person, other than `except`, is in the room. */
  predicate PersonOn(s: State, id: Identity, room: Room, except: Option<Identity>) {
    exists i :: i in Fellows(s.db.people, id) && except != Some(i) && Present(s.presence, room, i)
  }

  predicate Paused(s: State, cfg: Config, id: Identity, mode: Mode) {
    match mode
    case On => false
    case Off => true
    case Auto => PersonOn(s, id, cfg.group, None)
  }

  // ---- pausing ---------------------------------------------------------------------

  /** Delivery to id pauses or resumes: the pause point is recorded, or the count of what was missed announced. */
  function PauseChange(log: seq<Msg>, g: Room, lxmf: map<Identity, nat>, id: Identity, was: bool, now: bool): (map<Identity, nat>, seq<Event>) {
    if !was && now then (SetCursor(lxmf, id, LastIn(log, g)), [])
    else if was && !now && id in lxmf then
      var missed := |After(log, g, lxmf[id])|;
      (SetCursor(lxmf, id, LastIn(log, g)), if missed > 0 then [Resumed(id, missed)] else [])
    else (lxmf, [])
  }

  predicate OnAuto(db: Db, id: Identity) {
    id in db.members && ModeOf(db, id) == Auto
  }

  /** Every app in the list that is a member on auto pauses (or resumes). */
  function PauseEach(db: Db, g: Room, apps: seq<Identity>, paused: bool): (Db, seq<Event>)
    decreases |apps|
  {
    if apps == [] then (db, [])
    else if !OnAuto(db, apps[0]) then PauseEach(db, g, apps[1..], paused)
    else
      var (lxmf, first) := PauseChange(db.log, g, db.lxmf, apps[0], !paused, paused);
      var (db2, rest) := PauseEach(db.(lxmf := lxmf), g, apps[1..], paused);
      (db2, first + rest)
  }

  /** The list of a person's apps, as the database gives it. */
  ghost predicate ListsApps(t: People.Tables, id: Identity, apps: seq<Identity>) {
    NoRepeats(apps) && forall i :: i in apps <==> i in Fellows(t, id)
  }

  // ---- rooms -----------------------------------------------------------------------

  /** Joining over one RRC link. admitted stands for the room's own rules: name, limits, invites, key, room bans. */
  function Join(s: State, cfg: Config, id: Identity, room: Room, admitted: bool, apps: seq<Identity>, now: int): Outcome {
    if !admitted || id in s.db.bans then Aborted
    else
      var row := RoomRow(room in s.db.rooms && s.db.rooms[room].registered, now);
      var db := s.db.(rooms := s.db.rooms[room := row]);
      if Present(s.presence, room, id) then Committed(State(db, AddLink(s.presence, room, id)), [])
      else
        var (db2, notes) := Arrive(s, cfg, db, id, room, apps);
        Committed(State(db2, AddLink(s.presence, room, id)), notes + [Joined(Seat(room, id))])
  }

  /** The first link of an identity in a room: the cursor moves up, and auto members of the person pause. */
  function Arrive(s: State, cfg: Config, db: Db, id: Identity, room: Room, apps: seq<Identity>): (Db, seq<Event>) {
    var db1 := db.(rrc := SetCursor(db.rrc, Seat(room, id), LastIn(db.log, room)));
    if room == cfg.group && !PersonOn(s, id, room, None) then PauseEach(db1, cfg.group, apps, true) else (db1, [])
  }

  /** The last link leaving: the cursor moves up, auto members of the person resume, an empty room may go. */
  function Depart(p: Presence.Map, cfg: Config, db: Db, id: Identity, room: Room, apps: seq<Identity>, now: int): (Db, seq<Event>) {
    var db1 := db.(rrc := SetCursor(db.rrc, Seat(room, id), LastIn(db.log, room)));
    var (db2, notes) :=
      if room == cfg.group && !PersonOn(State(db, p), id, room, Some(id)) then PauseEach(db1, cfg.group, apps, false) else (db1, []);
    (db2.(rooms := RoomsLeft(p, cfg, db2.rooms, id, room, now)), [Parted(Seat(room, id))] + notes)
  }

  predicate OthersIn(p: Presence.Map, room: Room, id: Identity) {
    exists i :: i in Members(p, room) && i != id && Present(p, room, i)
  }

  /** An unregistered room goes when its last member leaves. */
  function RoomsLeft(p: Presence.Map, cfg: Config, rooms: map<Room, RoomRow>, id: Identity, room: Room, now: int): map<Room, RoomRow> {
    if OthersIn(p, room, id) || room !in rooms then rooms
    else if rooms[room].registered || room in cfg.defaults then rooms[room := RoomRow(rooms[room].registered, now)]
    else rooms - {room}
  }

  function Part(s: State, cfg: Config, id: Identity, room: Room, apps: seq<Identity>, now: int): Outcome {
    if Links(s.presence, room, id) == 0 then Committed(s, [])
    else if Links(s.presence, room, id) > 1 then Committed(s.(presence := DropLink(s.presence, room, id)), [])
    else
      var (db, events) := Depart(s.presence, cfg, s.db, id, room, apps, now);
      Committed(State(db, DropLink(s.presence, room, id)), events)
  }

  /** What a part does to the tables while presence still stands as it was. */
  function PartDb(p: Presence.Map, cfg: Config, db: Db, id: Identity, room: Room, apps: seq<Identity>, now: int): (Db, seq<Event>) {
    if Links(p, room, id) == 1 then Depart(p, cfg, db, id, room, apps, now) else (db, [])
  }

  /** A closed link leaves all its rooms in one transaction: presence changes only at the end. */
  function DisconnectDb(p: Presence.Map, cfg: Config, db: Db, id: Identity, rooms: seq<Room>, apps: seq<Identity>, now: int): (Db, seq<Event>)
    decreases |rooms|
  {
    if rooms == [] then (db, [])
    else
      var (db1, first) := PartDb(p, cfg, db, id, rooms[0], apps, now);
      var (db2, rest) := DisconnectDb(p, cfg, db1, id, rooms[1..], apps, now);
      (db2, first + rest)
  }

  function Disconnect(s: State, cfg: Config, id: Identity, rooms: seq<Room>, apps: seq<Identity>, now: int): Outcome {
    var (db, events) := DisconnectDb(s.presence, cfg, s.db, id, rooms, apps, now);
    Committed(State(db, DropEach(s.presence, id, rooms)), events)
  }

  // ---- the LXMF group ----------------------------------------------------------------

  function SetMode(s: State, cfg: Config, id: Identity, mode: Mode): Outcome {
    var was := Paused(s, cfg, id, ModeOf(s.db, id));
    var now := Paused(s, cfg, id, mode);
    var db := s.db.(modes := s.db.modes[id := mode]);
    if id in s.db.members then
      var (lxmf, notes) := PauseChange(db.log, cfg.group, db.lxmf, id, was, now);
      Committed(s.(db := db.(lxmf := lxmf)), notes)
    else Committed(s.(db := db), [])
  }

  function SetMine(s: State, id: Identity, on: bool): Outcome {
    Committed(s.(db := s.db.(mine := if on then s.db.mine + {id} else s.db.mine - {id})), [])
  }

  /** Joining afresh starts delivery of every message, one's own included. allowed: not banned from the room. */
  function JoinGroup(s: State, id: Identity, allowed: bool): Outcome {
    if id in s.db.bans || !allowed then Aborted
    else if id in s.db.members then Committed(s, [])
    else Committed(s.(db := s.db.(members := s.db.members + {id}, modes := s.db.modes[id := On], mine := s.db.mine + {id})), [])
  }

  /** Leaving the group drops what was still to be delivered. */
  function WithoutMember(db: Db, id: Identity): Db {
    db.(members := db.members - {id}, deliveries := set d | d in db.deliveries && d.to != id)
  }

  function LeaveGroup(s: State, id: Identity): Outcome {
    Committed(if id in s.db.members then s.(db := WithoutMember(s.db, id)) else s, [])
  }

  // ---- messages ----------------------------------------------------------------------

  /** Who gets a group message by LXMF. */
  predicate Receives(s: State, cfg: Config, i: Identity, author: Identity, via: Via) {
    && i in s.db.members
    && !Paused(s, cfg, i, ModeOf(s.db, i))
    && !(i == author && via == LXMF)
    && (i in s.db.mine || !SamePerson(s.db.people, i, author))
    && i !in s.db.bans
  }

  function Recipients(s: State, cfg: Config, author: Identity, via: Via): set<Identity> {
    set i | i in s.db.members && Receives(s, cfg, i, author, via)
  }

  predicate Duplicate(log: seq<Msg>, via: Via, origin: Option<nat>) {
    origin.Some? && exists i :: 0 <= i < |log| && log[i].via == via && log[i].origin == origin
  }

  /** allowed stands for the rules about the text, room bans, moderation and the rate limit. */
  predicate MayPost(s: State, cfg: Config, id: Identity, room: Room, via: Via, allowed: bool) {
    && allowed && id !in s.db.bans && room in s.db.rooms
    && (via == LXMF ==> id in s.db.members)
    && (via == LXMF || via == Page ==> room == cfg.group)
  }

  function Post(s: State, cfg: Config, id: Identity, room: Room, via: Via, origin: Option<nat>, allowed: bool, now: int): Outcome {
    if !MayPost(s, cfg, id, room, via, allowed) then Aborted
    else if Duplicate(s.db.log, via, origin) then Committed(s, [])
    else
      var m := Msg(NextId(s.db.log), room, id, via, origin);
      var to := if room == cfg.group then Recipients(s, cfg, id, via) else {};
      var db := s.db.(log := s.db.log + [m],
                      rooms := s.db.rooms[room := RoomRow(s.db.rooms[room].registered, now)],
                      deliveries := s.db.deliveries + (set i | i in to :: Delivery(m.id, i)));
      Committed(s.(db := db), [Stored(m)])
  }

  function Kept(log: seq<Msg>, ids: set<nat>): seq<Msg> {
    if log == [] then [] else Kept(log[..|log| - 1], ids) + (if log[|log| - 1].id in ids then [] else [log[|log| - 1]])
  }

  /** Deleted or pruned messages go with their deliveries. */
  function Erase(s: State, ids: set<nat>): Outcome {
    Committed(s.(db := s.db.(log := Kept(s.db.log, ids), deliveries := set d | d in s.db.deliveries && d.message !in ids)), [])
  }

  // ---- operators ---------------------------------------------------------------------

  function ForgetSeats(p: Presence.Map, seats: seq<Seat>): Presence.Map
    decreases |seats|
  {
    if seats == [] then p else ForgetSeats(Forget(p, seats[0].room, seats[0].id), seats[1..])
  }

  function PartedAll(seats: seq<Seat>): seq<Event> {
    seq(|seats|, i requires 0 <= i < |seats| => Parted(seats[i]))
  }

  /** The places the given apps have in rooms. */
  ghost predicate ListsSeats(p: Presence.Map, apps: seq<Identity>, seats: seq<Seat>) {
    NoRepeats(seats) && forall r, i :: Seat(r, i) in seats <==> i in apps && Present(p, r, i)
  }

  function WithoutMembers(db: Db, apps: seq<Identity>): Db
    decreases |apps|
  {
    if apps == [] then db else WithoutMembers(WithoutMember(db, apps[0]), apps[1..])
  }

  function Banned(bans: map<Identity, int>, apps: seq<Identity>, until: int): map<Identity, int>
    decreases |apps|
  {
    if apps == [] then bans else Banned(bans[apps[0] := until], apps[1..], until)
  }

  /** Kick, or ban when `ban` says until when: every app is put out everywhere, and the person taken apart. */
  function Remove(s: State, id: Identity, apps: seq<Identity>, others: seq<Identity>, rows: seq<PersonId>, seats: seq<Seat>, ban: Option<int>, now: int): Outcome
    requires |rows| == |others|
  {
    var db := WithoutMembers(s.db, apps);
    var db2 := db.(people := TearApart.TornApart(db.people, id, others, rows, now),
                   bans := if ban.Some? then Banned(db.bans, apps, ban.value) else db.bans);
    Committed(State(db2, ForgetSeats(s.presence, seats)), PartedAll(seats))
  }

  /** A room operator puts one identity out of a room; in the group room, out of the group too. */
  function RoomRemove(s: State, cfg: Config, id: Identity, room: Room): Outcome {
    var db := if room == cfg.group then WithoutMember(s.db, id) else s.db;
    if Present(s.presence, room, id) then Committed(State(db, Forget(s.presence, room, id)), [Parted(Seat(room, id))])
    else Committed(s.(db := db), [])
  }

  function LiftBans(s: State, ids: set<Identity>): Outcome {
    Committed(s.(db := s.db.(bans := s.db.bans - ids)), [])
  }

  // ---- maintenance ---------------------------------------------------------------------

  function SavedCursor(s: State, k: Seat): nat {
    var last := LastIn(s.db.log, k.room);
    if k in s.db.rrc && s.db.rrc[k] > last then s.db.rrc[k] else last
  }

  function Seats(p: Presence.Map): set<Seat> {
    set r, i | r in p && i in p[r] && p[r][i] > 0 :: Seat(r, i)
  }

  /** Everyone present has seen their rooms up to now. */
  function SaveCursors(s: State): State {
    s.(db := s.db.(rrc := map k | k in s.db.rrc.Keys + Seats(s.presence) :: if k in Seats(s.presence) then SavedCursor(s, k) else s.db.rrc[k]))
  }

  /** A registered room nobody uses is forgotten, unless someone is in it or it is configured. */
  function PruneRoom(s: State, cfg: Config, room: Room, cutoff: int): Outcome {
    if room !in s.db.rooms || room in cfg.defaults || room in s.presence || s.db.rooms[room].lastUsed >= cutoff then Committed(s, [])
    else Committed(s.(db := s.db.(rooms := s.db.rooms - {room})), [])
  }

  /** A room row is written: the configured rooms at start-up, and rooms registered or unregistered since. */
  function PutRoom(s: State, room: Room, registered: bool, now: int): Outcome {
    Committed(s.(db := s.db.(rooms := s.db.rooms[room := RoomRow(registered, now)])), [])
  }

  /** The process ends; presence is not stored. */
  function Gone(s: State): State {
    s.(presence := map[])
  }

  function Stop(s: State): State {
    Gone(SaveCursors(s))
  }

  /** Apps move between persons: linking, unlinking, arriving. */
  function Regroup(s: State, t: People.Tables): State {
    s.(db := s.db.(people := t))
  }

  // ---- requests ------------------------------------------------------------------------

  /**
   Lists of apps, seats and new person numbers are what the database and the
   presence map would give; a request carrying any other list does nothing.
   */
  datatype Request =
    | Identify(id: Identity, row: PersonId, now: int)
    | JoinRoom(id: Identity, room: Room, admitted: bool, apps: seq<Identity>, now: int)
    | PartRoom(id: Identity, room: Room, apps: seq<Identity>, now: int)
    | Say(id: Identity, room: Room, via: Via, origin: Option<nat>, allowed: bool, now: int)
    | ChooseMode(id: Identity, mode: Mode)
    | ChooseMine(id: Identity, on: bool)
    | EnterGroup(id: Identity, allowed: bool)
    | QuitGroup(id: Identity)
    | PutOut(id: Identity, apps: seq<Identity>, others: seq<Identity>, rows: seq<PersonId>, seats: seq<Seat>, ban: Option<int>, now: int)
    | PutOutOfRoom(id: Identity, room: Room)
    | Unban(ids: set<Identity>)
    | Delete(messages: set<nat>)
    | Save
    | Prune(room: Room, cutoff: int)
    | StoreRoom(room: Room, registered: bool, now: int)
    | LinkApp(id: Identity, to: PersonId, now: int)
    | UnlinkApp(id: Identity, row: PersonId, now: int)
    | ForgetMe(id: Identity, others: seq<Identity>, rows: seq<PersonId>, now: int)

  function Regrouped(s: State, r: People.Result<People.Tables>): Outcome {
    if r.Ok? then Committed(Regroup(s, r.value), []) else Aborted
  }

  function DoIdentify(s: State, id: Identity, row: PersonId, now: int): Outcome {
    if id in s.db.bans || row in s.db.people.people then Aborted
    else Committed(Regroup(s, People.Touched(s.db.people, id, row, now)), [])
  }

  function DoUnlink(s: State, id: Identity, row: PersonId, now: int): Outcome {
    if row in s.db.people.people then Aborted else Regrouped(s, People.Unlinked(s.db.people, id, row, now))
  }

  /** /forget: out of the group, the other apps on their own, the name free. */
  function DoForget(s: State, id: Identity, others: seq<Identity>, rows: seq<PersonId>, now: int): Outcome
    requires |rows| == |others|
  {
    var t := People.Released(TearApart.UnlinkEach(s.db.people, others, rows, now), id);
    Committed(Regroup(if id in s.db.members then s.(db := WithoutMember(s.db, id)) else s, t), [])
  }

  /** The person's further apps and fresh row numbers for them; an identity never seen has neither. */
  ghost predicate ListsOthers(t: People.Tables, id: Identity, others: seq<Identity>, rows: seq<PersonId>) {
    && |rows| == |others| && TearApart.Fresh(t, rows)
    && (if id in t.identities then TearApart.OtherApps(t, id, others) else others == [])
  }

  ghost function Handle(s: State, cfg: Config, r: Request): Outcome {
    match r
    case Identify(id, row, now) => DoIdentify(s, id, row, now)
    case JoinRoom(id, room, admitted, apps, now) =>
      if ListsApps(s.db.people, id, apps) then Join(s, cfg, id, room, admitted, apps, now) else Aborted
    case PartRoom(id, room, apps, now) => if ListsApps(s.db.people, id, apps) then Part(s, cfg, id, room, apps, now) else Aborted
    case Say(id, room, via, origin, allowed, now) => Post(s, cfg, id, room, via, origin, allowed, now)
    case ChooseMode(id, mode) => SetMode(s, cfg, id, mode)
    case ChooseMine(id, on) => SetMine(s, id, on)
    case EnterGroup(id, allowed) => JoinGroup(s, id, allowed)
    case QuitGroup(id) => LeaveGroup(s, id)
    case PutOut(id, apps, others, rows, seats, ban, now) =>
      if ListsApps(s.db.people, id, apps) && ListsSeats(s.presence, apps, seats) && ListsOthers(s.db.people, id, others, rows)
      then Remove(s, id, apps, others, rows, seats, ban, now) else Aborted
    case PutOutOfRoom(id, room) => RoomRemove(s, cfg, id, room)
    case Unban(ids) => LiftBans(s, ids)
    case Delete(messages) => Erase(s, messages)
    case Save => Committed(SaveCursors(s), [])
    case Prune(room, cutoff) => PruneRoom(s, cfg, room, cutoff)
    case StoreRoom(room, registered, now) => PutRoom(s, room, registered, now)
    case LinkApp(id, to, now) => Regrouped(s, PeopleLaws.HubLinked(s.db.people, id, to, now))
    case UnlinkApp(id, row, now) => DoUnlink(s, id, row, now)
    case ForgetMe(id, others, rows, now) =>
      if ListsOthers(s.db.people, id, others, rows) then DoForget(s, id, others, rows, now) else Aborted
  }

  const EMPTY_HUB := State(Db(People.NOBODY, map[], {}, {}, map[], map[], [], map[], map[], {}), map[])
}
