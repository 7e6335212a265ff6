/**
 JOINED and PARTED, counted: every request announces exactly the seats it
 fills and empties, each once, and says nothing about anyone else's.
 */
module Announcements {
  import opened Common
  import opened Presence
  import opened Hub
  import opened PresenceRuns
  import TearApart

  /** No two presence events of the sequence are the same. */
  ghost predicate SaidOnce(events: seq<Event>) {
    forall i, j :: 0 <= i < j < |events| && (events[i].Joined? || events[i].Parted?) ==> events[i] != events[j]
  }

  /** The events are about exactly these seats. */
  ghost predicate Tells(events: seq<Event>, filled: set<Seat>, emptied: set<Seat>) {
    && (forall k :: Joined(k) in events <==> k in filled)
    && (forall k :: Parted(k) in events <==> k in emptied)
    && SaidOnce(events)
  }

  ghost predicate Announced(s: State, o: Outcome) {
    o.Committed? ==> Tells(o.events, Seats(o.s.presence) - Seats(s.presence), Seats(s.presence) - Seats(o.s.presence))
  }

  lemma NotesTell(events: seq<Event>)
    requires Notes(events)
    ensures Tells(events, {}, {})
  {
  }

  /** One presence event among notes. */
  lemma OneTells(before: seq<Event>, e: Event, after: seq<Event>)
    requires Notes(before) && Notes(after) && (e.Joined? || e.Parted?)
    ensures Tells(before + [e] + after, if e.Joined? then {e.seat} else {}, if e.Parted? then {e.seat} else {})
  {
    var events := before + [e] + after;
    assert events[|before|] == e;
    assert forall i :: 0 <= i < |events| && i != |before| ==> !events[i].Joined? && !events[i].Parted?;
    if e.Joined? {
      assert Joined(e.seat) in events;
    } else {
      assert Parted(e.seat) in events;
    }
  }

  lemma QuietAnnounced(s: State, o: Outcome)
    requires o.Committed? ==> Seats(o.s.presence) == Seats(s.presence) && Notes(o.events)
    ensures Announced(s, o)
  {
    hide Seats;
    if o.Committed? {
      NotesTell(o.events);
    }
  }

  lemma JoinAnnounced(s: State, cfg: Config, id: Identity, room: Room, admitted: bool, apps: seq<Identity>, now: int)
    requires Tidy(s.presence)
    ensures Announced(s, Join(s, cfg, id, room, admitted, apps, now))
  {
    AddLinkSeats(s.presence, room, id);
    InSeats(s.presence, room, id);
    ArriveNotes(s, cfg, id, room, apps, now);
    hide Seats, Tidy, AddLink, Present, Links, Arrive, Tells;
    var o := Join(s, cfg, id, room, admitted, apps, now);
    var k := Seat(room, id);
    if o.Committed? {
      if Present(s.presence, room, id) {
        assert Seats(o.s.presence) == Seats(s.presence);
        QuietAnnounced(s, o);
      } else {
        var notes := Arrive(s, cfg, JoinDb(s, room, now), id, room, apps).1;
        OneTells(notes, Joined(k), []);
        assert notes + [Joined(k)] + [] == o.events;
        assert Seats(o.s.presence) - Seats(s.presence) == {k};
        assert Seats(s.presence) - Seats(o.s.presence) == {};
      }
    }
  }

  lemma PartAnnounced(s: State, cfg: Config, id: Identity, room: Room, apps: seq<Identity>, now: int)
    requires Tidy(s.presence)
    ensures Announced(s, Part(s, cfg, id, room, apps, now))
  {
    DropLinkSeats(s.presence, room, id);
    InSeats(s.presence, room, id);
    var o := Part(s, cfg, id, room, apps, now);
    var k := Seat(room, id);
    assert Links(s.presence, room, id) > 0 <==> k in Seats(s.presence);
    hide Seats, Tidy, DropLink, Links, Depart, Tells;
    if Links(s.presence, room, id) == 1 {
      DepartNotes(s.presence, cfg, s.db, id, room, apps, now);
      assert o.events == [] + [o.events[0]] + o.events[1..];
      OneTells([], Parted(k), o.events[1..]);
      assert Seats(s.presence) - Seats(o.s.presence) == {k};
      assert Seats(o.s.presence) - Seats(s.presence) == {};
    } else {
      assert Seats(o.s.presence) == Seats(s.presence);
      QuietAnnounced(s, o);
    }
  }

  lemma PartedAllTell(seats: seq<Seat>)
    requires NoRepeats(seats)
    ensures Tells(PartedAll(seats), {}, set k | k in seats)
  {
    var events := PartedAll(seats);
    forall k | k in seats
      ensures Parted(k) in events
    {
      var i :| 0 <= i < |seats| && seats[i] == k;
      assert events[i] == Parted(k);
    }
  }

  lemma RemoveAnnounced(s: State, id: Identity, apps: seq<Identity>, others: seq<Identity>, rows: seq<PersonId>, seats: seq<Seat>, ban: Option<int>, now: int)
    requires Tidy(s.presence) && |rows| == |others| && ListsSeats(s.presence, apps, seats)
    ensures Announced(s, Remove(s, id, apps, others, rows, seats, ban, now))
  {
    var o := Remove(s, id, apps, others, rows, seats, ban, now);
    ForgetSeatsAll(s.presence, seats);
    PartedAllTell(seats);
    ListedTaken(s.presence, apps, seats);
    hide Tidy, Seats, ForgetSeats, PartedAll, WithoutMembers, Banned, TearApart.TornApart, Tells, ListsSeats;
    assert Seats(o.s.presence) - Seats(s.presence) == {};
    assert Seats(s.presence) - Seats(o.s.presence) == set k | k in seats;
  }

  lemma ListedTaken(p: Presence.Map, apps: seq<Identity>, seats: seq<Seat>)
    requires ListsSeats(p, apps, seats)
    ensures forall k :: k in seats ==> k in Seats(p)
  {
    forall k: Seat | k in seats
      ensures k in Seats(p)
    {
      InSeats(p, k.room, k.id);
      assert Seat(k.room, k.id) in seats;
    }
  }

  lemma RoomRemoveAnnounced(s: State, cfg: Config, id: Identity, room: Room)
    requires Tidy(s.presence)
    ensures Announced(s, RoomRemove(s, cfg, id, room))
  {
    var o := RoomRemove(s, cfg, id, room);
    var k := Seat(room, id);
    ForgetSeat(s.presence, room, id);
    InSeats(s.presence, room, id);
    hide Tidy, Seats, Forget, Present, Tells;
    if Present(s.presence, room, id) {
      OneTells([], Parted(k), []);
      assert [] + [Parted(k)] + [] == o.events;
      assert Seats(s.presence) - Seats(o.s.presence) == {k};
      assert Seats(o.s.presence) - Seats(s.presence) == {};
    } else {
      QuietAnnounced(s, o);
    }
  }

  lemma HandleAnnounced(s: State, cfg: Config, r: Request)
    requires Tidy(s.presence)
    ensures Announced(s, Handle(s, cfg, r))
  {
    hide Announced, Tidy, Join, Part, Remove, RoomRemove, ListsApps, ListsSeats, ListsOthers;
    if r.JoinRoom? {
      QuietAnnounced(s, Aborted);
      JoinAnnounced(s, cfg, r.id, r.room, r.admitted, r.apps, r.now);
    } else if r.PartRoom? {
      QuietAnnounced(s, Aborted);
      PartAnnounced(s, cfg, r.id, r.room, r.apps, r.now);
    } else if r.PutOut? {
      QuietAnnounced(s, Aborted);
      if ListsOthers(s.db.people, r.id, r.others, r.rows) && ListsSeats(s.presence, r.apps, r.seats) {
        OthersFit(s.db.people, r.id, r.others, r.rows);
        RemoveAnnounced(s, r.id, r.apps, r.others, r.rows, r.seats, r.ban, r.now);
      }
    } else if r.PutOutOfRoom? {
      RoomRemoveAnnounced(s, cfg, r.id, r.room);
    } else {
      OtherRequests(s, cfg, r);
      hide Handle;
      QuietAnnounced(s, Handle(s, cfg, r));
    }
  }

  /** In every run, whatever comes next announces each seat it fills or empties once, and no other. */
  lemma EveryChangeAnnouncedOnce(cfg: Config, ts: seq<Step>, r: Request)
    requires Handle(Run(cfg, ts).s, cfg, r).Committed?
    ensures var s, o := Run(cfg, ts).s, Handle(Run(cfg, ts).s, cfg, r);
            Tells(o.events, Seats(o.s.presence) - Seats(s.presence), Seats(s.presence) - Seats(o.s.presence))
  {
    RunKeeps(cfg, ts);
    hide Run, Handle, Tells, Seats;
    HandleAnnounced(Run(cfg, ts).s, cfg, r);
  }
}
