/** Catch-up over whole runs of the hub, for every identity and room at once. */
module CatchUpRuns {
  import opened Common
  import opened Presence
  import opened Hub
  import opened CatchUps
  import opened PresenceRuns
  import People
  import PeopleLaws
  import TearApart

  /** The hub, with what each identity has seen of each room; reused says that a message id came up twice. */
  datatype Track = Track(s: State, seen: map<Seat, seq<nat>>, base: map<Seat, nat>, capped: set<Seat>, rough: set<Seat>, top: nat, reused: bool)

  const START := Track(Hub.EMPTY_HUB, map[], map[], {}, {}, 0, false)

  function Seen(w: Track, k: Seat): seq<nat> {
    if k in w.seen then w.seen[k] else []
  }

  function Base(w: Track, k: Seat): nat {
    if k in w.base then w.base[k] else 0
  }

  function SittingOf(w: Track, k: Seat): Sitting {
    Sitting(Present(w.s.presence, k.room, k.id), Cursor(w.s.db.rrc, k), Seen(w, k), Base(w, k), k in w.capped, k in w.rough)
  }

  // ---- what is recorded -------------------------------------------------------------------

  /** A first link is shown the catch-up. */
  function Shown(w: Track, cfg: Config, k: Seat, s2: State): Track {
    if Present(w.s.presence, k.room, k.id) then w.(s := s2)
    else
      var y := Enter(w.s.db.log, k.room, SittingOf(w, k), cfg);
      w.(s := s2, seen := w.seen[k := y.seen], base := w.base[k := y.base], capped := if y.capped then w.capped + {k} else w.capped)
  }

  /** A stored message is heard by everyone in its room. */
  function Said(w: Track, s2: State): Track {
    if |s2.db.log| <= |w.s.db.log| then w.(s := s2)
    else
      var m := s2.db.log[|s2.db.log| - 1];
      w.(s := s2, top := Max(w.top, m.id), reused := w.reused || m.id <= w.top,
         seen := map k | k in w.seen.Keys + Seats(w.s.presence) ::
           if k in Seats(w.s.presence) && k.room == m.room then Seen(w, k) + [m.id] else Seen(w, k))
  }

  /** Whoever is no longer in a room was put out of it. */
  function Thrown(w: Track, s2: State): Track {
    w.(s := s2, rough := w.rough + (Seats(w.s.presence) - Seats(s2.presence)))
  }

  function Recorded(w: Track, cfg: Config, r: Request, s2: State): Track {
    match r
    case JoinRoom(id, room, _, _, _) => Shown(w, cfg, Seat(room, id), s2)
    case Say(_, _, _, _, _, _) => Said(w, s2)
    case PutOut(_, _, _, _, _, _, _) => Thrown(w, s2)
    case PutOutOfRoom(_, _) => Thrown(w, s2)
    case _ => w.(s := s2)
  }

  ghost function NextTrack(w: Track, cfg: Config, t: Step): Track {
    match t
    case Stopped => w.(s := Stop(w.s))
    case Crashed => Thrown(w, Gone(w.s))
    case Ask(r) =>
      var o := Handle(w.s, cfg, r);
      if o.Aborted? then w else Recorded(w, cfg, r, o.s)
  }

  ghost function Follow(cfg: Config, ts: seq<Step>): Track
    decreases |ts|
  {
    if ts == [] then START else NextTrack(Follow(cfg, ts[..|ts| - 1]), cfg, ts[|ts| - 1])
  }

  // ---- what stays true ----------------------------------------------------------------------

  ghost predicate SeatsOk(w: Track) {
    forall k: Seat :: SeatOk(w.s.db.log, k.room, SittingOf(w, k), w.top)
  }

  ghost predicate TrackOk(w: Track) {
    && Tidy(w.s.presence) && LogOk(w.s.db.log, w.top)
    && (!w.reused ==> SeatsOk(w))
  }

  /** A request that leaves presence, log and these cursors alone. */
  lemma Unnoticed(w: Track, s2: State)
    requires TrackOk(w) && s2.presence == w.s.presence && s2.db.log == w.s.db.log && s2.db.rrc == w.s.db.rrc
    ensures TrackOk(w.(s := s2))
  {
  }

  // ---- joining and leaving --------------------------------------------------------------------

  lemma JoinEffects(s: State, cfg: Config, id: Identity, room: Room, admitted: bool, apps: seq<Identity>, now: int)
    requires Join(s, cfg, id, room, admitted, apps, now).Committed?
    ensures var s2 := Join(s, cfg, id, room, admitted, apps, now).s;
            && s2.presence == AddLink(s.presence, room, id) && s2.db.log == s.db.log
            && s2.db.rrc == if Present(s.presence, room, id) then s.db.rrc else SetCursor(s.db.rrc, Seat(room, id), LastIn(s.db.log, room))
  {
    hide PauseEach, PersonOn, LastIn, AddLink;
    var db := JoinDb(s, room, now);
    PauseNotes(db.(rrc := SetCursor(db.rrc, Seat(room, id), LastIn(db.log, room))), cfg.group, apps, true);
  }

  lemma JoinSits(w: Track, cfg: Config, k: Seat, s2: State, j: Seat)
    requires Tidy(w.s.presence) && s2.presence == AddLink(w.s.presence, k.room, k.id)
    requires s2.db.rrc == if Present(w.s.presence, k.room, k.id) then w.s.db.rrc else SetCursor(w.s.db.rrc, k, LastIn(w.s.db.log, k.room))
    ensures SittingOf(Shown(w, cfg, k, s2), j) ==
            if j == k && !Present(w.s.presence, k.room, k.id) then Enter(w.s.db.log, k.room, SittingOf(w, k), cfg) else SittingOf(w, j)
  {
    AddLinkCounts(w.s.presence, k.room, k.id);
    hide CatchUp, LastIn, Tidy, AddLink, After, BaseOf, Ids;
  }

  lemma JoinKeeps(w: Track, cfg: Config, id: Identity, room: Room, admitted: bool, apps: seq<Identity>, now: int)
    requires TrackOk(w) && Join(w.s, cfg, id, room, admitted, apps, now).Committed?
    ensures TrackOk(Shown(w, cfg, Seat(room, id), Join(w.s, cfg, id, room, admitted, apps, now).s))
  {
    var s2 := Join(w.s, cfg, id, room, admitted, apps, now).s;
    var k := Seat(room, id);
    JoinEffects(w.s, cfg, id, room, admitted, apps, now);
    AddLinkCounts(w.s.presence, room, id);
    hide Join, Tidy, LogOk, SeatOk, AddLink, Links, Enter;
    if !w.reused {
      forall j: Seat
        ensures SeatOk(s2.db.log, j.room, SittingOf(Shown(w, cfg, k, s2), j), w.top)
      {
        JoinSits(w, cfg, k, s2, j);
        assert SeatOk(w.s.db.log, j.room, SittingOf(w, j), w.top);
        if j == k && !Present(w.s.presence, k.room, k.id) {
          EnterOk(w.s.db.log, k.room, SittingOf(w, k), cfg, w.top);
        }
      }
    }
  }

  lemma PartEffects(s: State, cfg: Config, id: Identity, room: Room, apps: seq<Identity>, now: int)
    ensures var s2 := Part(s, cfg, id, room, apps, now).s;
            && s2.presence == DropLink(s.presence, room, id) && s2.db.log == s.db.log
            && s2.db.rrc == if Links(s.presence, room, id) == 1 then SetCursor(s.db.rrc, Seat(room, id), LastIn(s.db.log, room)) else s.db.rrc
  {
    hide PauseEach, PersonOn, LastIn, RoomsLeft;
    var db1 := s.db.(rrc := SetCursor(s.db.rrc, Seat(room, id), LastIn(s.db.log, room)));
    PauseNotes(db1, cfg.group, apps, false);
  }

  lemma PartSits(w: Track, k: Seat, s2: State, j: Seat)
    requires Tidy(w.s.presence) && s2.presence == DropLink(w.s.presence, k.room, k.id)
    requires s2.db.rrc == if Links(w.s.presence, k.room, k.id) == 1 then SetCursor(w.s.db.rrc, k, LastIn(w.s.db.log, k.room)) else w.s.db.rrc
    ensures SittingOf(w.(s := s2), j) ==
            if j == k && Links(w.s.presence, k.room, k.id) == 1 then Leave(w.s.db.log, k.room, SittingOf(w, k)) else SittingOf(w, j)
  {
    DropLinkCounts(w.s.presence, k.room, k.id);
    hide LastIn, Tidy, DropLink;
  }

  lemma PartKeeps(w: Track, cfg: Config, id: Identity, room: Room, apps: seq<Identity>, now: int)
    requires TrackOk(w)
    ensures TrackOk(w.(s := Part(w.s, cfg, id, room, apps, now).s))
  {
    var s2 := Part(w.s, cfg, id, room, apps, now).s;
    var k := Seat(room, id);
    PartEffects(w.s, cfg, id, room, apps, now);
    DropLinkCounts(w.s.presence, room, id);
    hide Part, Tidy, LogOk, SeatOk, DropLink, Links, Leave;
    if !w.reused {
      forall j: Seat
        ensures SeatOk(s2.db.log, j.room, SittingOf(w.(s := s2), j), w.top)
      {
        PartSits(w, k, s2, j);
        assert SeatOk(w.s.db.log, j.room, SittingOf(w, j), w.top);
        if j == k && Links(w.s.presence, k.room, k.id) == 1 {
          LeaveOk(w.s.db.log, k.room, SittingOf(w, k), w.top);
        }
      }
    }
  }

  // ---- messages ---------------------------------------------------------------------------------

  lemma SaidSits(w: Track, s2: State, m: Msg, k: Seat)
    requires s2.presence == w.s.presence && s2.db.rrc == w.s.db.rrc && s2.db.log == w.s.db.log + [m]
    ensures SittingOf(Said(w, s2), k) == if k.room == m.room then Hear(SittingOf(w, k), m.id) else SittingOf(w, k)
  {
  }

  lemma SaidKeeps(w: Track, s2: State, m: Msg)
    requires TrackOk(w) && s2.presence == w.s.presence && s2.db.rrc == w.s.db.rrc
    requires s2.db.log == w.s.db.log + [m] && m.id == NextId(w.s.db.log)
    ensures TrackOk(Said(w, s2))
  {
    NextIdLog(w.s.db.log, w.top, m);
    hide LogOk, SeatOk, Seats, Tidy, NextId;
    if !Said(w, s2).reused {
      forall k: Seat
        ensures SeatOk(s2.db.log, k.room, SittingOf(Said(w, s2), k), m.id)
      {
        SaidSits(w, s2, m, k);
        assert SeatOk(w.s.db.log, k.room, SittingOf(w, k), w.top);
        SaidOk(w.s.db.log, k.room, SittingOf(w, k), w.top, m);
      }
    }
  }

  lemma NextIdLog(log: seq<Msg>, top: nat, m: Msg)
    requires LogOk(log, top) && m.id == NextId(log)
    ensures LogOk(log + [m], Max(top, m.id))
  {
  }

  lemma EraseKeeps(w: Track, ids: set<nat>)
    requires TrackOk(w)
    ensures TrackOk(w.(s := Erase(w.s, ids).s))
  {
    var w2 := w.(s := Erase(w.s, ids).s);
    KeptLog(w.s.db.log, ids, w.top);
    hide LogOk, SeatOk, Tidy, Kept;
    if !w.reused {
      forall k: Seat
        ensures SeatOk(w2.s.db.log, k.room, SittingOf(w2, k), w.top)
      {
        assert SittingOf(w2, k) == SittingOf(w, k);
        assert SeatOk(w.s.db.log, k.room, SittingOf(w, k), w.top);
        KeptOk(w.s.db.log, ids, k.room, SittingOf(w, k), w.top);
      }
    }
  }

  // ---- removals, saving, stopping ------------------------------------------------------------------

  lemma ThrownSits(w: Track, s2: State, k: Seat)
    requires Seats(s2.presence) <= Seats(w.s.presence) && s2.db.rrc == w.s.db.rrc
    ensures SittingOf(Thrown(w, s2), k) == if k in Seats(w.s.presence) && k !in Seats(s2.presence) then Lost(SittingOf(w, k)) else SittingOf(w, k)
  {
  }

  lemma ThrownKeeps(w: Track, s2: State)
    requires TrackOk(w) && Tidy(s2.presence) && Seats(s2.presence) <= Seats(w.s.presence)
    requires s2.db.rrc == w.s.db.rrc && s2.db.log == w.s.db.log
    ensures TrackOk(Thrown(w, s2))
  {
    hide LogOk, SeatOk, Tidy, Seats;
    if !w.reused {
      forall k: Seat
        ensures SeatOk(s2.db.log, k.room, SittingOf(Thrown(w, s2), k), w.top)
      {
        ThrownSits(w, s2, k);
        assert SeatOk(w.s.db.log, k.room, SittingOf(w, k), w.top);
        LostOk(w.s.db.log, k.room, SittingOf(w, k), w.top);
      }
    }
  }

  lemma SavedSits(w: Track, k: Seat)
    ensures SittingOf(w.(s := SaveCursors(w.s)), k) == Noted(w.s.db.log, k.room, SittingOf(w, k))
  {
  }

  lemma SaveKeeps(w: Track)
    requires TrackOk(w)
    ensures TrackOk(w.(s := SaveCursors(w.s)))
  {
    hide LogOk, SeatOk, Tidy, Seats, SavedCursor, Noted;
    var w2 := w.(s := SaveCursors(w.s));
    if !w.reused {
      forall k: Seat
        ensures SeatOk(w2.s.db.log, k.room, SittingOf(w2, k), w.top)
      {
        SavedSits(w, k);
        assert SeatOk(w.s.db.log, k.room, SittingOf(w, k), w.top);
        NotedOk(w.s.db.log, k.room, SittingOf(w, k), w.top);
      }
    }
  }

  lemma StopSits(w: Track, k: Seat)
    ensures SittingOf(w.(s := Stop(w.s)), k) ==
            if SittingOf(w, k).present then Leave(w.s.db.log, k.room, SittingOf(w, k)) else SittingOf(w, k)
  {
  }

  lemma StopKeeps(w: Track)
    requires TrackOk(w)
    ensures TrackOk(w.(s := Stop(w.s)))
  {
    var w2 := w.(s := Stop(w.s));
    assert Tidy(w2.s.presence);
    hide LogOk, SeatOk, Tidy, Seats, SavedCursor, Leave;
    if !w.reused {
      forall k: Seat
        ensures SeatOk(w2.s.db.log, k.room, SittingOf(w2, k), w.top)
      {
        StopSits(w, k);
        assert SeatOk(w.s.db.log, k.room, SittingOf(w, k), w.top);
        if SittingOf(w, k).present {
          LeaveOk(w.s.db.log, k.room, SittingOf(w, k), w.top);
        }
      }
    }
  }

  // ---- every step --------------------------------------------------------------------------------

  lemma SayKeeps(w: Track, cfg: Config, id: Identity, room: Room, via: Via, origin: Option<nat>, allowed: bool, now: int)
    requires TrackOk(w) && Post(w.s, cfg, id, room, via, origin, allowed, now).Committed?
    ensures TrackOk(Said(w, Post(w.s, cfg, id, room, via, origin, allowed, now).s))
  {
    hide TrackOk, MayPost, Recipients, Duplicate, NextId;
    var s2 := Post(w.s, cfg, id, room, via, origin, allowed, now).s;
    if Duplicate(w.s.db.log, via, origin) {
      Unnoticed(w, s2);
    } else {
      SaidKeeps(w, s2, Msg(NextId(w.s.db.log), room, id, via, origin));
    }
  }

  /** Putting people out removes seats and touches neither log nor cursors. */
  lemma PutOutEffects(s: State, id: Identity, apps: seq<Identity>, others: seq<Identity>, rows: seq<PersonId>, seats: seq<Seat>, ban: Option<int>, now: int)
    requires Tidy(s.presence) && |rows| == |others|
    ensures var s2 := Remove(s, id, apps, others, rows, seats, ban, now).s;
            Tidy(s2.presence) && Seats(s2.presence) <= Seats(s.presence) && s2.db.rrc == s.db.rrc && s2.db.log == s.db.log
  {
    ForgetSeatsAll(s.presence, seats);
    WithoutMembersSame(s.db, apps);
    hide Tidy, Seats, ForgetSeats, WithoutMembers, Banned, TearApart.TornApart;
  }

  lemma RoomRemoveKeeps(w: Track, cfg: Config, id: Identity, room: Room)
    requires TrackOk(w)
    ensures TrackOk(Thrown(w, RoomRemove(w.s, cfg, id, room).s))
  {
    hide SeatsOk, LogOk, Tidy, Seats, Forget, Present, Thrown;
    ForgetSeat(w.s.presence, room, id);
    ThrownKeeps(w, RoomRemove(w.s, cfg, id, room).s);
  }

  ghost predicate OnlyElsewhere(r: Request) {
    !r.JoinRoom? && !r.PartRoom? && !r.Say? && !r.PutOut? && !r.PutOutOfRoom? && !r.Delete? && !r.Save?
  }

  ghost predicate AboutPeople(r: Request) {
    r.Identify? || r.LinkApp? || r.UnlinkApp? || r.ForgetMe?
  }

  lemma PeopleEffects(s: State, cfg: Config, r: Request)
    requires AboutPeople(r)
    ensures var o := Handle(s, cfg, r);
            o.Committed? ==> o.s.presence == s.presence && o.s.db.log == s.db.log && o.s.db.rrc == s.db.rrc
  {
    hide ListsOthers, People.Touched, People.Unlinked, People.Released, PeopleLaws.HubLinked, TearApart.UnlinkEach;
  }

  lemma ElsewhereEffects(s: State, cfg: Config, r: Request)
    requires OnlyElsewhere(r)
    ensures var o := Handle(s, cfg, r);
            o.Committed? ==> o.s.presence == s.presence && o.s.db.log == s.db.log && o.s.db.rrc == s.db.rrc
  {
    if AboutPeople(r) {
      PeopleEffects(s, cfg, r);
      hide Handle;
    } else {
      hide ListsOthers, PersonOn, Paused, PauseChange, ListsApps, ListsSeats, Join, Part, Post, Remove, RoomRemove, Erase, SaveCursors, DoIdentify, DoUnlink, DoForget;
    }
  }

  lemma AskKeeps(w: Track, cfg: Config, r: Request)
    requires TrackOk(w) && Handle(w.s, cfg, r).Committed?
    ensures TrackOk(Recorded(w, cfg, r, Handle(w.s, cfg, r).s))
  {
    assert Tidy(w.s.presence);
    hide TrackOk, Tidy, Join, Part, Post, Remove, RoomRemove, Erase, SaveCursors, Shown, Said, Thrown, ListsApps, ListsSeats, ListsOthers, Seats;
    if OnlyElsewhere(r) {
      ElsewhereEffects(w.s, cfg, r);
      hide Handle;
      Unnoticed(w, Handle(w.s, cfg, r).s);
    } else {
      match r
      case JoinRoom(id, room, admitted, apps, now) => JoinKeeps(w, cfg, id, room, admitted, apps, now);
      case PartRoom(id, room, apps, now) => PartKeeps(w, cfg, id, room, apps, now);
      case Say(id, room, via, origin, allowed, now) => SayKeeps(w, cfg, id, room, via, origin, allowed, now);
      case PutOut(_, _, _, _, _, _, _) => PutOutKeeps(w, cfg, r);
      case PutOutOfRoom(id, room) => RoomRemoveKeeps(w, cfg, id, room);
      case Delete(messages) => EraseKeeps(w, messages);
      case Save => SaveKeeps(w);
    }
  }

  lemma PutOutKeeps(w: Track, cfg: Config, r: Request)
    requires TrackOk(w) && r.PutOut? && Handle(w.s, cfg, r).Committed?
    ensures TrackOk(Thrown(w, Handle(w.s, cfg, r).s))
  {
    assert Tidy(w.s.presence);
    hide TrackOk, Tidy, Remove, Thrown, ListsApps, ListsSeats, ListsOthers, Seats;
    OthersFit(w.s.db.people, r.id, r.others, r.rows);
    PutOutEffects(w.s, r.id, r.apps, r.others, r.rows, r.seats, r.ban, r.now);
    ThrownKeeps(w, Handle(w.s, cfg, r).s);
  }

  lemma StepKeeps(w: Track, cfg: Config, t: Step)
    requires TrackOk(w)
    ensures TrackOk(NextTrack(w, cfg, t))
  {
    match t
    case Stopped => StopKeeps(w);
    case Crashed =>
      assert Tidy(Gone(w.s).presence);
      hide LogOk, SeatsOk, Tidy;
      ThrownKeeps(w, Gone(w.s));
    case Ask(r) =>
      hide TrackOk, Handle, Recorded;
      if Handle(w.s, cfg, r).Committed? {
        AskKeeps(w, cfg, r);
      }
  }

  lemma StartOk()
    ensures TrackOk(START)
  {
  }

  lemma {:induction false} FollowKeeps(cfg: Config, ts: seq<Step>)
    ensures TrackOk(Follow(cfg, ts))
    decreases |ts|
  {
    hide TrackOk, NextTrack;
    if ts == [] {
      StartOk();
    } else {
      FollowKeeps(cfg, ts[..|ts| - 1]);
      StepKeeps(Follow(cfg, ts[..|ts| - 1]), cfg, ts[|ts| - 1]);
    }
  }

  // ---- what this means -----------------------------------------------------------------------------

  /**
   No gaps: as long as no id came up twice and no replay was capped, everything
   still in the log since the first visit has been seen, all of it by someone
   in the room, and up to the cursor by someone who is not. Removals and
   crashes do not change that.
   */
  lemma NothingSkipped(cfg: Config, ts: seq<Step>, k: Seat, m: Msg)
    requires !Follow(cfg, ts).reused && k !in Follow(cfg, ts).capped && k in Follow(cfg, ts).s.db.rrc
    requires m in Follow(cfg, ts).s.db.log && m.room == k.room && m.id > Base(Follow(cfg, ts), k)
    requires Present(Follow(cfg, ts).s.presence, k.room, k.id) || m.id <= Follow(cfg, ts).s.db.rrc[k]
    ensures m.id in Seen(Follow(cfg, ts), k)
  {
    FollowKeeps(cfg, ts);
    hide Follow;
    var w := Follow(cfg, ts);
    assert SeatOk(w.s.db.log, k.room, SittingOf(w, k), w.top);
  }

  /** No repeats: without kicks, bans and crashes in its way a seat sees its messages once each, in order. */
  lemma NothingRepeated(cfg: Config, ts: seq<Step>, k: Seat)
    requires !Follow(cfg, ts).reused && k !in Follow(cfg, ts).rough
    ensures Rising(Seen(Follow(cfg, ts), k))
  {
    FollowKeeps(cfg, ts);
    hide Follow;
    var w := Follow(cfg, ts);
    assert SeatOk(w.s.db.log, k.room, SittingOf(w, k), w.top);
  }

  /** Every step of the run that deletes messages keeps the newest one. */
  ghost predicate KeepsNewest(log: seq<Msg>, t: Step) {
    t.Ask? && t.r.Delete? && log != [] ==> log[|log| - 1].id !in t.r.messages
  }

  ghost predicate NewestKept(cfg: Config, ts: seq<Step>)
    decreases |ts|
  {
    ts == [] || (NewestKept(cfg, ts[..|ts| - 1]) && KeepsNewest(Follow(cfg, ts[..|ts| - 1]).s.db.log, ts[|ts| - 1]))
  }

  ghost predicate TopIsLast(w: Track) {
    !w.reused && w.top == if w.s.db.log == [] then 0 else w.s.db.log[|w.s.db.log| - 1].id
  }

  lemma KeptLast(log: seq<Msg>, ids: set<nat>)
    requires log == [] || log[|log| - 1].id !in ids
    ensures log == [] ==> Kept(log, ids) == []
    ensures log != [] ==> Kept(log, ids) != [] && Kept(log, ids)[|Kept(log, ids)| - 1] == log[|log| - 1]
  {
  }

  /** Only saying something and deleting change the log. */
  lemma LogStays(s: State, cfg: Config, r: Request)
    requires !r.Say? && !r.Delete?
    ensures var o := Handle(s, cfg, r); o.Committed? ==> o.s.db.log == s.db.log
  {
    if OnlyElsewhere(r) {
      ElsewhereEffects(s, cfg, r);
      hide Handle;
    } else if r.JoinRoom? {
      hide Join, ListsApps;
      if Join(s, cfg, r.id, r.room, r.admitted, r.apps, r.now).Committed? {
        JoinEffects(s, cfg, r.id, r.room, r.admitted, r.apps, r.now);
      }
    } else if r.PartRoom? {
      hide Part, ListsApps;
      PartEffects(s, cfg, r.id, r.room, r.apps, r.now);
    } else if r.PutOut? {
      hide ListsApps, ListsSeats, ListsOthers, WithoutMembers, TearApart.TornApart, Banned, ForgetSeats;
      WithoutMembersSame(s.db, r.apps);
    } else {
      hide Present, Forget, Seats, SavedCursor;
    }
  }

  lemma TopSaid(w: Track, cfg: Config, id: Identity, room: Room, via: Via, origin: Option<nat>, allowed: bool, now: int)
    requires TopIsLast(w) && Post(w.s, cfg, id, room, via, origin, allowed, now).Committed?
    ensures TopIsLast(Said(w, Post(w.s, cfg, id, room, via, origin, allowed, now).s))
  {
  }

  lemma TopErased(w: Track, ids: set<nat>)
    requires TopIsLast(w) && (w.s.db.log == [] || w.s.db.log[|w.s.db.log| - 1].id !in ids)
    ensures TopIsLast(w.(s := Erase(w.s, ids).s))
  {
    hide Kept;
    KeptLast(w.s.db.log, ids);
  }

  /** What is recorded beside the log does not matter. */
  lemma TopSame(w: Track, w2: Track)
    requires TopIsLast(w) && w2.s.db.log == w.s.db.log && w2.top == w.top && w2.reused == w.reused
    ensures TopIsLast(w2)
  {
  }

  lemma RecordedTop(w: Track, cfg: Config, r: Request, s2: State)
    requires !r.Say?
    ensures var w2 := Recorded(w, cfg, r, s2); w2.s == s2 && w2.top == w.top && w2.reused == w.reused
  {
    hide Enter, Seats, Present, SittingOf;
  }

  lemma TopStays(w: Track, cfg: Config, t: Step)
    requires TopIsLast(w) && KeepsNewest(w.s.db.log, t)
    ensures TopIsLast(NextTrack(w, cfg, t))
  {
    hide Post, Said, TopIsLast, Recorded, Erase, SaveCursors, Seats;
    if t.Ask? {
      var r := t.r;
      if r.Say? {
        TopAsked(w, cfg, r);
      } else if r.Delete? {
        TopErased(w, r.messages);
        TopDeleted(w, cfg, r.messages);
      } else {
        LogStays(w.s, cfg, r);
        hide Handle;
        if Handle(w.s, cfg, r).Committed? {
          RecordedTop(w, cfg, r, Handle(w.s, cfg, r).s);
          TopSame(w, Recorded(w, cfg, r, Handle(w.s, cfg, r).s));
        }
      }
    } else {
      SaveCursorsLog(w.s);
      TopSame(w, NextTrack(w, cfg, t));
    }
  }

  lemma SaveCursorsLog(s: State)
    ensures SaveCursors(s).db.log == s.db.log
  {
  }

  lemma TopDeleted(w: Track, cfg: Config, ids: set<nat>)
    ensures NextTrack(w, cfg, Ask(Delete(ids))) == w.(s := Erase(w.s, ids).s)
  {
    hide Kept;
  }

  lemma TopAsked(w: Track, cfg: Config, r: Request)
    requires TopIsLast(w) && r.Say?
    ensures TopIsLast(NextTrack(w, cfg, Ask(r)))
  {
    hide Post, Said, TopIsLast;
    if Post(w.s, cfg, r.id, r.room, r.via, r.origin, r.allowed, r.now).Committed? {
      TopSaid(w, cfg, r.id, r.room, r.via, r.origin, r.allowed, r.now);
    }
  }

  /** If deletions always keep the newest message, no id ever comes up twice. */
  lemma {:induction false} IdsNeverReused(cfg: Config, ts: seq<Step>)
    requires NewestKept(cfg, ts)
    ensures TopIsLast(Follow(cfg, ts))
    decreases |ts|
  {
    if ts != [] {
      IdsNeverReused(cfg, ts[..|ts| - 1]);
      hide NextTrack, KeepsNewest, TopIsLast;
      TopStays(Follow(cfg, ts[..|ts| - 1]), cfg, ts[|ts| - 1]);
    }
  }

  /**
   A message stored while someone is away is shown to them on their return
   exactly when its id is above their cursor; and a new id is above every
   cursor, whatever it is, exactly when the newest message is still there.
   */
  lemma ShownIffAbove(log: seq<Msg>, top: nat, room: Room, cursor: nat, author: Identity, cfg: Config)
    requires LogOk(log, top) && |After(log, room, cursor)| < cfg.replayMax
    ensures var m := Msg(NextId(log), room, author, RRC, None);
            && (m in CatchUp(log + [m], room, Some(cursor), cfg) <==> NextId(log) > cursor)
            && (NextId(log) > top <==> (if log == [] then top == 0 else log[|log| - 1].id == top))
  {
    var m := Msg(NextId(log), room, author, RRC, None);
    assert (log + [m])[..|log|] == log;
    AfterMembers(log + [m], room, cursor);
  }

  /** A returning visitor is shown everything missed exactly when it is no more than the cap. */
  lemma CapDecides(log: seq<Msg>, top: nat, room: Room, cursor: nat, cfg: Config)
    requires LogOk(log, top)
    ensures (forall m :: m in log && m.room == room && m.id > cursor ==> m in CatchUp(log, room, Some(cursor), cfg))
            <==> |After(log, room, cursor)| <= cfg.replayMax
  {
    CatchUpShows(log, room, Some(cursor), cfg, top);
    AfterMembers(log, room, cursor);
    AfterAscends(log, room, cursor);
    if |After(log, room, cursor)| > cfg.replayMax {
      FirstLeftOut(log, room, cursor, cfg, top);
    }
  }

  lemma FirstLeftOut(log: seq<Msg>, room: Room, cursor: nat, cfg: Config, top: nat)
    requires LogOk(log, top) && |After(log, room, cursor)| > cfg.replayMax
    ensures After(log, room, cursor)[0] !in Latest(log, room, cfg.replayMax)
  {
    AfterIsSuffix(log, room, cursor);
    AfterAscends(log, room, 0);
    var all, missed := After(log, room, 0), After(log, room, cursor);
    var shown := Latest(log, room, cfg.replayMax);
    hide After;
    var first := |all| - |missed|;
    assert missed[0] == all[first];
    forall i | 0 <= i < |shown|
      ensures shown[i] != missed[0]
    {
      assert shown[i] == all[|all| - cfg.replayMax + i];
    }
  }
}
