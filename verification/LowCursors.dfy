/**
 When no message goes uncounted: as long as deletions keep the newest message,
 every pause cursor stays below the ids to come.
 */
module LowCursors {
  import opened Common
  import opened Presence
  import opened Hub
  import opened CatchUps
  import opened PresenceRuns
  import opened PauseSteps
  import opened PauseRuns
  import People
  import PeopleLaws
  import TearApart
  import CatchUpRuns

  /** No pause cursor is at or past the id the next message gets. */
  predicate CursorsLow(db: Db) {
    forall i :: i in db.lxmf ==> db.lxmf[i] < NextId(db.log)
  }

  // ---- steps ------------------------------------------------------------------------------------------

  lemma LastLow(log: seq<Msg>, g: Room)
    requires Ascending(log)
    ensures LastIn(log, g) < NextId(log)
  {
    LastInMax(log, g);
  }

  lemma ChangeLow(db: Db, g: Room, id: Identity, was: bool, now: bool)
    requires CursorsLow(db) && Ascending(db.log)
    ensures CursorsLow(db.(lxmf := PauseChange(db.log, g, db.lxmf, id, was, now).0))
  {
    LastLow(db.log, g);
    hide LastIn, After, NextId, Ascending;
  }

  lemma {:induction false} EachLow(db: Db, g: Room, apps: seq<Identity>, paused: bool)
    requires CursorsLow(db) && Ascending(db.log)
    ensures var db2 := PauseEach(db, g, apps, paused).0; CursorsLow(db2) && db2.log == db.log
    decreases |apps|
  {
    hide CursorsLow, Ascending, PauseChange;
    if apps != [] {
      ChangeLow(db, g, apps[0], !paused, paused);
      EachLow(db, g, apps[1..], paused);
      EachLow(db.(lxmf := PauseChange(db.log, g, db.lxmf, apps[0], !paused, paused).0), g, apps[1..], paused);
    }
  }

  /** Cursors and log as before. */
  lemma SameLow(db: Db, db2: Db)
    requires CursorsLow(db) && db2.log == db.log && db2.lxmf == db.lxmf
    ensures CursorsLow(db2)
  {
  }

  lemma JoinLow(s: State, cfg: Config, id: Identity, room: Room, admitted: bool, apps: seq<Identity>, now: int)
    requires CursorsLow(s.db) && Ascending(s.db.log) && Join(s, cfg, id, room, admitted, apps, now).Committed?
    ensures CursorsLow(Join(s, cfg, id, room, admitted, apps, now).s.db)
  {
    hide CursorsLow, Ascending, PauseEach, PersonOn, LastIn, AddLink, Present;
    var db := JoinDb(s, room, now);
    var db1 := db.(rrc := SetCursor(db.rrc, Seat(room, id), LastIn(db.log, room)));
    SameLow(s.db, db);
    SameLow(s.db, db1);
    EachLow(db1, cfg.group, apps, true);
  }

  lemma PartLow(s: State, cfg: Config, id: Identity, room: Room, apps: seq<Identity>, now: int)
    requires CursorsLow(s.db) && Ascending(s.db.log)
    ensures CursorsLow(Part(s, cfg, id, room, apps, now).s.db)
  {
    hide CursorsLow, Ascending, PauseEach, PersonOn, LastIn, DropLink, RoomsLeft;
    var db1 := s.db.(rrc := SetCursor(s.db.rrc, Seat(room, id), LastIn(s.db.log, room)));
    var db2 := PauseEach(db1, cfg.group, apps, false).0;
    SameLow(s.db, db1);
    EachLow(db1, cfg.group, apps, false);
    SameLow(db1, db1.(rooms := RoomsLeft(s.presence, cfg, db1.rooms, id, room, now)));
    SameLow(db2, db2.(rooms := RoomsLeft(s.presence, cfg, db2.rooms, id, room, now)));
  }

  lemma ModeLow(s: State, cfg: Config, id: Identity, mode: Mode)
    requires CursorsLow(s.db) && Ascending(s.db.log)
    ensures CursorsLow(SetMode(s, cfg, id, mode).s.db)
  {
    hide CursorsLow, Ascending, Paused, PauseChange;
    var db := s.db.(modes := s.db.modes[id := mode]);
    SameLow(s.db, db);
    ChangeLow(db, cfg.group, id, Paused(s, cfg, id, ModeOf(s.db, id)), Paused(s, cfg, id, mode));
  }

  lemma SayLow(s: State, cfg: Config, id: Identity, room: Room, via: Via, origin: Option<nat>, allowed: bool, now: int)
    requires CursorsLow(s.db) && Post(s, cfg, id, room, via, origin, allowed, now).Committed?
    ensures CursorsLow(Post(s, cfg, id, room, via, origin, allowed, now).s.db)
  {
    SayPlain(s, cfg, id, room, via, origin, allowed, now);
    hide Post, Duplicate;
  }

  lemma EraseLow(s: State, ids: set<nat>)
    requires CursorsLow(s.db) && (s.db.log == [] || s.db.log[|s.db.log| - 1].id !in ids)
    ensures CursorsLow(Erase(s, ids).s.db)
  {
    hide Kept;
    CatchUpRuns.KeptLast(s.db.log, ids);
  }

  ghost predicate MovesCursors(r: Request) {
    r.JoinRoom? || r.PartRoom? || r.ChooseMode? || r.Say? || r.Delete?
  }

  lemma PeopleCursors(s: State, cfg: Config, r: Request)
    requires CatchUpRuns.AboutPeople(r)
    ensures var o := Handle(s, cfg, r); o.Committed? ==> o.s.db.lxmf == s.db.lxmf
  {
    hide ListsOthers, People.Touched, People.Unlinked, People.Released, PeopleLaws.HubLinked, TearApart.UnlinkEach;
  }

  lemma OtherCursors(s: State, cfg: Config, r: Request)
    requires !MovesCursors(r)
    ensures var o := Handle(s, cfg, r); o.Committed? ==> o.s.db.lxmf == s.db.lxmf
  {
    if CatchUpRuns.AboutPeople(r) {
      PeopleCursors(s, cfg, r);
      hide Handle;
    } else if r.PutOut? {
      WithoutMembersSame(s.db, r.apps);
      hide ListsApps, ListsSeats, ListsOthers, WithoutMembers, TearApart.TornApart, Banned, ForgetSeats;
    } else {
      hide Present, Forget, Seats, SavedCursor, DoIdentify, DoUnlink, DoForget, Join, Part, Post, SetMode, Erase, Remove, ListsApps, ListsSeats, ListsOthers;
    }
  }

  lemma HandleLow(s: State, cfg: Config, r: Request)
    requires CursorsLow(s.db) && Ascending(s.db.log) && CatchUpRuns.KeepsNewest(s.db.log, Ask(r))
    requires Handle(s, cfg, r).Committed?
    ensures CursorsLow(Handle(s, cfg, r).s.db)
  {
    hide CursorsLow, Ascending, Join, Part, Post, SetMode, Erase, ListsApps;
    if !MovesCursors(r) {
      OtherCursors(s, cfg, r);
      CatchUpRuns.LogStays(s, cfg, r);
      hide Handle;
      SameLow(s.db, Handle(s, cfg, r).s.db);
    } else {
      match r
      case JoinRoom(id, room, admitted, apps, now) => JoinLow(s, cfg, id, room, admitted, apps, now);
      case PartRoom(id, room, apps, now) => PartLow(s, cfg, id, room, apps, now);
      case ChooseMode(id, mode) => ModeLow(s, cfg, id, mode);
      case Say(id, room, via, origin, allowed, now) => SayLow(s, cfg, id, room, via, origin, allowed, now);
      case Delete(ids) => EraseLow(s, ids);
    }
  }

  // ---- runs -------------------------------------------------------------------------------------------

  /** Whenever the run deletes messages the newest one is kept. */
  ghost predicate NewestKept(cfg: Config, ts: seq<Step>)
    decreases |ts|
  {
    ts == [] || (NewestKept(cfg, ts[..|ts| - 1]) && CatchUpRuns.KeepsNewest(Run(cfg, ts[..|ts| - 1]).s.db.log, ts[|ts| - 1]))
  }

  lemma {:induction false} RunLow(cfg: Config, ts: seq<Step>)
    requires NewestKept(cfg, ts)
    ensures CursorsLow(Run(cfg, ts).s.db)
    decreases |ts|
  {
    if ts != [] {
      var s, t := Run(cfg, ts[..|ts| - 1]).s, ts[|ts| - 1];
      hide Handle, CursorsLow, SaveCursors, CatchUpRuns.KeepsNewest;
      RunLow(cfg, ts[..|ts| - 1]);
      if t.Ask? {
        if Handle(s, cfg, t.r).Committed? {
          assert Ascending(s.db.log) by { RunStocks(cfg, ts[..|ts| - 1]); }
          HandleLow(s, cfg, t.r);
        }
      } else {
        RestartFacts(s, cfg, t);
        SameLow(s.db, ResultOf(s, cfg, t).s.db);
      }
    }
  }

  /** In every run whose deletions keep the newest message, whatever is said next is counted by everyone it should be. */
  lemma SayingIsQuiet(cfg: Config, ts: seq<Step>, id: Identity, room: Room, via: Via, origin: Option<nat>, allowed: bool)
    requires NewestKept(cfg, ts)
    ensures QuietSay(Run(cfg, ts).s, cfg, id, room, via, origin, allowed)
  {
    RunLow(cfg, ts);
    hide Run, MayPost, Duplicate, NextId;
  }
}
