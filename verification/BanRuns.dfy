/**
 Moderation over whole runs: someone banned is in no room and not in the
 group, and nothing of theirs is stored; whoever is kicked or banned is taken
 apart completely.
 */
module BanRuns {
  import opened Common
  import opened Presence
  import opened Hub
  import opened PresenceRuns
  import CatchUpRuns
  import People
  import PeopleLaws
  import TearApart

  /** stored collects every message ever stored; since says how many there were when each ban was made. */
  datatype Docket = Docket(s: State, stored: seq<Msg>, since: map<Identity, nat>)

  function StoredIn(events: seq<Event>): seq<Msg> {
    if events == [] then []
    else StoredIn(events[..|events| - 1]) + (if events[|events| - 1].Stored? then [events[|events| - 1].message] else [])
  }

  function SinceNext(w: Docket, s2: State, count: nat): map<Identity, nat> {
    map i | i in s2.db.bans :: if i in w.s.db.bans && i in w.since then w.since[i] else count
  }

  ghost function NextDocket(w: Docket, cfg: Config, t: Step): Docket {
    match t
    case Stopped => w.(s := Stop(w.s))
    case Crashed => w.(s := Gone(w.s))
    case Ask(r) =>
      var o := Handle(w.s, cfg, r);
      if o.Aborted? then w
      else
        var stored := w.stored + StoredIn(o.events);
        Docket(o.s, stored, SinceNext(w, o.s, |stored|))
  }

  ghost function Watch(cfg: Config, ts: seq<Step>): Docket
    decreases |ts|
  {
    if ts == [] then Docket(Hub.EMPTY_HUB, [], map[]) else NextDocket(Watch(cfg, ts[..|ts| - 1]), cfg, ts[|ts| - 1])
  }

  // ---- who is where ----------------------------------------------------------------------

  ghost predicate Out(s: State, i: Identity) {
    i !in s.db.members && forall r :: !Present(s.presence, r, i)
  }

  ghost predicate BannedAreOut(s: State) {
    forall i :: i in s.db.bans ==> Out(s, i)
  }

  /** Nobody comes in, and nobody is banned anew. */
  ghost predicate NobodyEnters(s: State, s2: State) {
    && s2.db.members <= s.db.members && s2.db.bans.Keys <= s.db.bans.Keys
    && forall r, i :: Present(s2.presence, r, i) ==> Present(s.presence, r, i)
  }

  lemma NobodyEntersOk(s: State, s2: State)
    requires BannedAreOut(s) && NobodyEnters(s, s2)
    ensures BannedAreOut(s2)
  {
  }

  lemma JoinBans(s: State, cfg: Config, id: Identity, room: Room, admitted: bool, apps: seq<Identity>, now: int)
    requires BannedAreOut(s) && Tidy(s.presence)
    ensures var o := Join(s, cfg, id, room, admitted, apps, now); o.Committed? ==> BannedAreOut(o.s)
  {
    var o := Join(s, cfg, id, room, admitted, apps, now);
    if o.Committed? {
      JoinPlainly(s, cfg, id, room, admitted, apps, now);
      AddLinkCounts(s.presence, room, id);
      hide Join, AddLink, Tidy;
      forall i | i in o.s.db.bans
        ensures Out(o.s, i)
      {
        assert Out(s, i);
        forall r
          ensures !Present(o.s.presence, r, i)
        {
          assert !Present(s.presence, r, i);
        }
      }
    }
  }

  lemma JoinPlainly(s: State, cfg: Config, id: Identity, room: Room, admitted: bool, apps: seq<Identity>, now: int)
    requires Join(s, cfg, id, room, admitted, apps, now).Committed?
    ensures var o := Join(s, cfg, id, room, admitted, apps, now);
            id !in s.db.bans && o.s.db.bans == s.db.bans && o.s.db.members == s.db.members && o.s.presence == AddLink(s.presence, room, id)
  {
    var db := JoinDb(s, room, now);
    PauseNotes(db.(rrc := SetCursor(db.rrc, Seat(room, id), LastIn(db.log, room))), cfg.group, apps, true);
    hide PauseEach, PersonOn, LastIn, AddLink, Present;
  }

  lemma PartBans(s: State, cfg: Config, id: Identity, room: Room, apps: seq<Identity>, now: int)
    requires Tidy(s.presence)
    ensures NobodyEnters(s, Part(s, cfg, id, room, apps, now).s)
  {
    DropLinkCounts(s.presence, room, id);
    PauseNotes(s.db.(rrc := SetCursor(s.db.rrc, Seat(room, id), LastIn(s.db.log, room))), cfg.group, apps, false);
    hide PauseEach, PersonOn, LastIn, DropLink, RoomsLeft, Tidy;
  }

  lemma RoomRemoveBans(s: State, cfg: Config, id: Identity, room: Room)
    requires Tidy(s.presence)
    ensures NobodyEnters(s, RoomRemove(s, cfg, id, room).s)
  {
  }

  // ---- putting someone out ------------------------------------------------------------------

  lemma {:induction false} WithoutMembersGone(db: Db, apps: seq<Identity>)
    ensures var d := WithoutMembers(db, apps);
            && d == db.(members := d.members, deliveries := d.deliveries)
            && (forall i :: i in d.members <==> i in db.members && i !in apps)
            && (forall e :: e in d.deliveries <==> e in db.deliveries && e.to !in apps)
    decreases |apps|
  {
    if apps != [] {
      WithoutMembersGone(WithoutMember(db, apps[0]), apps[1..]);
      assert forall i :: i in apps <==> i == apps[0] || i in apps[1..];
    }
  }

  lemma {:induction false} BannedKeys(bans: map<Identity, int>, apps: seq<Identity>, until: int)
    ensures forall i :: i in Banned(bans, apps, until) <==> i in bans || i in apps
    decreases |apps|
  {
    if apps != [] {
      BannedKeys(bans[apps[0] := until], apps[1..], until);
      assert forall i :: i in apps <==> i == apps[0] || i in apps[1..];
    }
  }

  /** After a kick or ban: no presence, no membership, nothing on its way, for any app of the person. */
  ghost predicate Cleared(s2: State, apps: seq<Identity>) {
    forall i :: i in apps ==> Out(s2, i) && forall m :: Delivery(m, i) !in s2.db.deliveries
  }

  lemma RemoveClears(s: State, id: Identity, apps: seq<Identity>, others: seq<Identity>, rows: seq<PersonId>, seats: seq<Seat>, ban: Option<int>, now: int)
    requires Tidy(s.presence) && |rows| == |others| && ListsSeats(s.presence, apps, seats)
    ensures var s2 := Remove(s, id, apps, others, rows, seats, ban, now).s;
            && Cleared(s2, apps)
            && (forall r, i :: Present(s2.presence, r, i) ==> Present(s.presence, r, i))
            && s2.db.members <= s.db.members
            && (forall i :: i in s2.db.bans ==> i in s.db.bans || i in apps)
            && (ban.Some? ==> forall i :: i in apps ==> i in s2.db.bans)
  {
    var s2 := Remove(s, id, apps, others, rows, seats, ban, now).s;
    WithoutMembersGone(s.db, apps);
    ForgetSeatsAll(s.presence, seats);
    if ban.Some? {
      BannedKeys(s.db.bans, apps, ban.value);
    }
    hide Tidy, ForgetSeats, WithoutMembers, Banned, TearApart.TornApart, Seats;
    forall r, i
      ensures Present(s2.presence, r, i) <==> Present(s.presence, r, i) && i !in apps
    {
      InSeats(s2.presence, r, i);
      InSeats(s.presence, r, i);
      assert Seat(r, i) in seats <==> i in apps && Present(s.presence, r, i);
    }
    hide Present;
  }

  lemma RemoveBans(s: State, id: Identity, apps: seq<Identity>, others: seq<Identity>, rows: seq<PersonId>, seats: seq<Seat>, ban: Option<int>, now: int)
    requires BannedAreOut(s) && Tidy(s.presence) && |rows| == |others| && ListsSeats(s.presence, apps, seats)
    ensures BannedAreOut(Remove(s, id, apps, others, rows, seats, ban, now).s)
  {
    RemoveClears(s, id, apps, others, rows, seats, ban, now);
    hide Remove, Tidy, ListsSeats, Present;
  }

  // ---- every request ---------------------------------------------------------------------------

  ghost predicate LetsIn(r: Request) {
    r.JoinRoom? || r.EnterGroup? || r.PutOut?
  }

  lemma PeopleBans(s: State, cfg: Config, r: Request)
    requires CatchUpRuns.AboutPeople(r)
    ensures var o := Handle(s, cfg, r); o.Committed? ==> NobodyEnters(s, o.s)
  {
    hide ListsOthers, People.Touched, People.Unlinked, People.Released, PeopleLaws.HubLinked, TearApart.UnlinkEach, Present;
  }

  lemma OtherBans(s: State, cfg: Config, r: Request)
    requires !LetsIn(r) && Tidy(s.presence)
    ensures var o := Handle(s, cfg, r); o.Committed? ==> NobodyEnters(s, o.s)
  {
    if CatchUpRuns.AboutPeople(r) {
      PeopleBans(s, cfg, r);
      hide Handle, Tidy;
    } else if r.PartRoom? {
      hide Part, ListsApps, NobodyEnters, Tidy;
      PartBans(s, cfg, r.id, r.room, r.apps, r.now);
    } else if r.PutOutOfRoom? {
      hide RoomRemove, NobodyEnters, Tidy;
      RoomRemoveBans(s, cfg, r.id, r.room);
    } else {
      hide Tidy, Present, Paused, PauseChange, MayPost, Duplicate, Recipients, Kept, Seats, SavedCursor, Join, Part, Remove, RoomRemove, DoIdentify, DoUnlink, DoForget, ListsApps, ListsOthers, ListsSeats;
    }
  }

  lemma HandleBans(s: State, cfg: Config, r: Request)
    requires BannedAreOut(s) && Tidy(s.presence)
    ensures var o := Handle(s, cfg, r); o.Committed? ==> BannedAreOut(o.s)
  {
    if r.JoinRoom? {
      hide Join, ListsApps, Tidy, BannedAreOut;
      JoinBans(s, cfg, r.id, r.room, r.admitted, r.apps, r.now);
    } else if r.EnterGroup? {
      hide Tidy, Present;
    } else if r.PutOut? {
      hide Remove, ListsApps, ListsSeats, ListsOthers, Tidy, BannedAreOut;
      if ListsSeats(s.presence, r.apps, r.seats) && ListsOthers(s.db.people, r.id, r.others, r.rows) {
        OthersFit(s.db.people, r.id, r.others, r.rows);
        RemoveBans(s, r.id, r.apps, r.others, r.rows, r.seats, r.ban, r.now);
      }
    } else {
      OtherBans(s, cfg, r);
      hide Handle, Tidy, NobodyEnters, BannedAreOut;
      if Handle(s, cfg, r).Committed? {
        NobodyEntersOk(s, Handle(s, cfg, r).s);
      }
    }
  }

  // ---- nothing of theirs is stored ------------------------------------------------------------------

  ghost predicate Silent(w: Docket) {
    forall i :: i in w.s.db.bans ==> i in w.since && forall j :: w.since[i] <= j < |w.stored| ==> w.stored[j].author != i
  }

  /** A request stores at most one message, and not one of someone banned. */
  lemma StoresOne(s: State, cfg: Config, r: Request)
    ensures var o := Handle(s, cfg, r);
            o.Committed? ==> StoredIn(o.events) == [] ||
                             (o.s.db.bans == s.db.bans && |StoredIn(o.events)| == 1 && StoredIn(o.events)[0].author !in s.db.bans)
  {
    var o := Handle(s, cfg, r);
    if r.Say? {
      hide MayPost, Duplicate, Recipients;
      if o.Committed? {
        assert r.id !in s.db.bans by { MayPostBan(s, cfg, r.id, r.room, r.via, r.allowed); }
        if o.events != [] {
          assert [o.events[0]][..0] == [];
        }
      }
    } else {
      NoStored(s, cfg, r);
      hide Handle;
      if o.Committed? {
        NoneStored(o.events);
      }
    }
  }

  lemma MayPostBan(s: State, cfg: Config, id: Identity, room: Room, via: Via, allowed: bool)
    requires MayPost(s, cfg, id, room, via, allowed)
    ensures id !in s.db.bans
  {
  }

  lemma {:induction false} NoneStored(events: seq<Event>)
    requires forall i :: 0 <= i < |events| ==> !events[i].Stored?
    ensures StoredIn(events) == []
  {
    if events != [] {
      NoneStored(events[..|events| - 1]);
    }
  }

  lemma {:induction false} PauseStoresNone(db: Db, g: Room, apps: seq<Identity>, paused: bool)
    ensures forall i :: 0 <= i < |PauseEach(db, g, apps, paused).1| ==> !PauseEach(db, g, apps, paused).1[i].Stored?
    decreases |apps|
  {
    if apps != [] {
      var lxmf := PauseChange(db.log, g, db.lxmf, apps[0], !paused, paused).0;
      PauseStoresNone(db, g, apps[1..], paused);
      PauseStoresNone(db.(lxmf := lxmf), g, apps[1..], paused);
    }
  }

  lemma NoStored(s: State, cfg: Config, r: Request)
    requires !r.Say?
    ensures var o := Handle(s, cfg, r); o.Committed? ==> forall i :: 0 <= i < |o.events| ==> !o.events[i].Stored?
  {
    if r.JoinRoom? {
      var db := JoinDb(s, r.room, r.now);
      PauseStoresNone(db.(rrc := SetCursor(db.rrc, Seat(r.room, r.id), LastIn(db.log, r.room))), cfg.group, r.apps, true);
      hide PauseEach, PersonOn, LastIn, AddLink, Present, ListsApps;
    } else if r.PartRoom? {
      PauseStoresNone(s.db.(rrc := SetCursor(s.db.rrc, Seat(r.room, r.id), LastIn(s.db.log, r.room))), cfg.group, r.apps, false);
      hide PauseEach, PersonOn, LastIn, DropLink, Links, RoomsLeft, ListsApps;
    } else if r.PutOut? {
      hide ListsApps, ListsSeats, ListsOthers, WithoutMembers, ForgetSeats, Banned, TearApart.TornApart;
    } else {
      hide ListsOthers, PersonOn, Paused, Present, Forget, Seats, SavedCursor, Kept, Join, Part, Post, Remove, People.Touched, People.Unlinked, People.Released, PeopleLaws.HubLinked, TearApart.UnlinkEach, After, LastIn;
    }
  }

  lemma SilentNext(w: Docket, cfg: Config, r: Request)
    requires Silent(w) && Handle(w.s, cfg, r).Committed?
    ensures Silent(NextDocket(w, cfg, Ask(r)))
  {
    StoresOne(w.s, cfg, r);
    hide Handle, StoredIn;
  }

  // ---- persons stay well formed -------------------------------------------------------------------------

  lemma PeopleStay(s: State, cfg: Config, r: Request)
    requires !CatchUpRuns.AboutPeople(r) && !r.PutOut?
    ensures var o := Handle(s, cfg, r); o.Committed? ==> o.s.db.people == s.db.people
  {
    if r.JoinRoom? {
      var db := JoinDb(s, r.room, r.now);
      PauseNotes(db.(rrc := SetCursor(db.rrc, Seat(r.room, r.id), LastIn(db.log, r.room))), cfg.group, r.apps, true);
      hide PauseEach, PersonOn, LastIn, AddLink, Present, ListsApps;
    } else if r.PartRoom? {
      PauseNotes(s.db.(rrc := SetCursor(s.db.rrc, Seat(r.room, r.id), LastIn(s.db.log, r.room))), cfg.group, r.apps, false);
      hide PauseEach, PersonOn, LastIn, DropLink, Links, RoomsLeft, ListsApps;
    } else {
      hide Paused, PauseChange, Present, Forget, Seats, SavedCursor, Kept, Join, Part, Remove, MayPost, Duplicate, Recipients, DoIdentify, DoUnlink, DoForget, ListsApps, ListsOthers, ListsSeats;
    }
  }

  lemma ForgetValid(t: People.Tables, id: Identity, others: seq<Identity>, rows: seq<PersonId>, now: int)
    requires People.Valid(t) && ListsOthers(t, id, others, rows)
    ensures People.Valid(People.Released(TearApart.UnlinkEach(t, others, rows, now), id))
  {
    var m := TearApart.UnlinkEach(t, others, rows, now);
    if id in t.identities {
      assert TearApart.FellowApps(t, id, others);
      hide People.Valid, TearApart.UnlinkEach, TearApart.Fresh, TearApart.FellowApps, People.Released, TearApart.Separated;
      TearApart.UnlinkEachSeparates(t, id, others, rows, now);
      PeopleLaws.ReleasedKeeps(m, id);
    } else {
      assert m == t;
      PeopleLaws.ReleasedKeeps(t, id);
    }
  }

  lemma TornValid(t: People.Tables, id: Identity, others: seq<Identity>, rows: seq<PersonId>, now: int)
    requires People.Valid(t) && ListsOthers(t, id, others, rows)
    ensures People.Valid(TearApart.TornApart(t, id, others, rows, now))
    ensures id in t.identities ==> TearApart.AllSingle(t, TearApart.TornApart(t, id, others, rows, now), id)
  {
    if id in t.identities {
      hide People.Valid, TearApart.TornApart, TearApart.AllSingle, TearApart.Fresh, TearApart.OtherApps;
      TearApart.TornApartSeparates(t, id, others, rows, now);
    } else {
      assert TearApart.UnlinkEach(t, others, rows, now) == t;
    }
  }

  lemma HandleValid(s: State, cfg: Config, r: Request)
    requires People.Valid(s.db.people)
    ensures var o := Handle(s, cfg, r); o.Committed? ==> People.Valid(o.s.db.people)
  {
    hide People.Valid, ListsOthers, ListsApps, ListsSeats;
    if r.PutOut? {
      if ListsOthers(s.db.people, r.id, r.others, r.rows) {
        OthersFit(s.db.people, r.id, r.others, r.rows);
        WithoutMembersSame(s.db, r.apps);
        TornValid(s.db.people, r.id, r.others, r.rows, r.now);
        hide TearApart.TornApart, WithoutMembers, Banned, ForgetSeats, TearApart.AllSingle;
      }
    } else if CatchUpRuns.AboutPeople(r) {
      PeopleValid(s, cfg, r);
    } else {
      PeopleStay(s, cfg, r);
      hide Handle;
    }
  }

  lemma PeopleValid(s: State, cfg: Config, r: Request)
    requires People.Valid(s.db.people) && CatchUpRuns.AboutPeople(r)
    ensures var o := Handle(s, cfg, r); o.Committed? ==> People.Valid(o.s.db.people)
  {
    hide People.Valid, ListsOthers, People.Touched, People.Unlinked, People.Released, PeopleLaws.HubLinked, TearApart.UnlinkEach;
    if r.Identify? {
      if r.row !in s.db.people.people {
        PeopleLaws.TouchedKeeps(s.db.people, r.id, r.row, r.now);
      }
    } else if r.LinkApp? {
      if PeopleLaws.HubLinked(s.db.people, r.id, r.to, r.now).Ok? {
        PeopleLaws.HubLinkedKeeps(s.db.people, r.id, r.to, r.now);
      }
    } else if r.UnlinkApp? {
      if r.row !in s.db.people.people && People.Unlinked(s.db.people, r.id, r.row, r.now).Ok? {
        PeopleLaws.UnlinkedKeeps(s.db.people, r.id, r.row, r.now);
      }
    } else if ListsOthers(s.db.people, r.id, r.others, r.rows) {
      OthersFit(s.db.people, r.id, r.others, r.rows);
      ForgetValid(s.db.people, r.id, r.others, r.rows, r.now);
    }
  }

  // ---- whole runs -----------------------------------------------------------------------------------------

  ghost predicate DocketOk(w: Docket) {
    Tidy(w.s.presence) && BannedAreOut(w.s) && Silent(w) && People.Valid(w.s.db.people)
  }

  lemma WatchStep(w: Docket, cfg: Config, t: Step)
    requires DocketOk(w)
    ensures DocketOk(NextDocket(w, cfg, t))
  {
    if t.Ask? {
      HandleTold(w.s, cfg, t.r);
      HandleBans(w.s, cfg, t.r);
      HandleValid(w.s, cfg, t.r);
      hide Handle, Tidy, BannedAreOut, Silent, People.Valid, StoredIn, Fold, Seats;
      if Handle(w.s, cfg, t.r).Committed? {
        SilentNext(w, cfg, t.r);
      }
    } else {
      assert Tidy(map[]);
      hide People.Valid, Seats, SavedCursor;
    }
  }

  lemma {:induction false} WatchKeeps(cfg: Config, ts: seq<Step>)
    ensures DocketOk(Watch(cfg, ts))
    decreases |ts|
  {
    if ts == [] {
      assert People.Valid(People.NOBODY);
    } else {
      hide DocketOk, NextDocket;
      WatchKeeps(cfg, ts[..|ts| - 1]);
      WatchStep(Watch(cfg, ts[..|ts| - 1]), cfg, ts[|ts| - 1]);
    }
  }

  /** In every run someone banned is in no room and not in the group, and has stored nothing since the ban. */
  lemma BansHold(cfg: Config, ts: seq<Step>, i: Identity, room: Room, j: nat)
    requires i in Watch(cfg, ts).s.db.bans
    ensures var w := Watch(cfg, ts);
            && i !in w.s.db.members && !Present(w.s.presence, room, i)
            && i in w.since && (w.since[i] <= j < |w.stored| ==> w.stored[j].author != i)
  {
    WatchKeeps(cfg, ts);
    hide Watch, People.Valid, Tidy;
    assert Out(Watch(cfg, ts).s, i);
  }

  /**
   After any kick or ban in any run: every app the person had is a person of
   its own, with no name and no stored rank, in no room, not in the group, with
   nothing on its way; if it was a ban, each of them is banned.
   */
  lemma RemovalIsComplete(cfg: Config, ts: seq<Step>, r: Request, a: Identity)
    requires r.PutOut? && Handle(Watch(cfg, ts).s, cfg, r).Committed?
    requires a in Fellows(Watch(cfg, ts).s.db.people, r.id)
    ensures var s2 := Handle(Watch(cfg, ts).s, cfg, r).s;
            && Out(s2, a) && (forall m :: Delivery(m, a) !in s2.db.deliveries)
            && (a in s2.db.people.identities ==> TearApart.Single(s2.db.people, a))
            && (r.ban.Some? ==> a in s2.db.bans)
  {
    WatchKeeps(cfg, ts);
    hide Watch;
    var s := Watch(cfg, ts).s;
    assert a in r.apps;
    OthersFit(s.db.people, r.id, r.others, r.rows);
    RemoveClears(s, r.id, r.apps, r.others, r.rows, r.seats, r.ban, r.now);
    hide Tidy, ListsSeats, ListsApps, People.Valid, Silent, BannedAreOut, Out;
    RemovalPeople(s, r.id, r.apps, r.others, r.rows, r.seats, r.ban, r.now, a);
    hide Remove;
  }

  lemma RemovalPeople(s: State, id: Identity, apps: seq<Identity>, others: seq<Identity>, rows: seq<PersonId>, seats: seq<Seat>, ban: Option<int>, now: int, a: Identity)
    requires People.Valid(s.db.people) && ListsOthers(s.db.people, id, others, rows) && a in Fellows(s.db.people, id)
    ensures var t := Remove(s, id, apps, others, rows, seats, ban, now).s.db.people;
            a in t.identities ==> TearApart.Single(t, a)
  {
    TornValid(s.db.people, id, others, rows, now);
    WithoutMembersSame(s.db, apps);
    if id !in s.db.people.identities {
      assert TearApart.UnlinkEach(s.db.people, others, rows, now) == s.db.people;
    }
    hide People.Valid, ListsOthers, WithoutMembers, ForgetSeats, Banned, TearApart.UnlinkEach;
  }
}
