/**
 Pause accounting, request by request: a resume note counts exactly the group
 messages stored since the member's pause began, and none of those was queued.
 */
module PauseSteps {
  import opened Common
  import opened Presence
  import opened Hub
  import opened CatchUps
  import opened PresenceRuns
  import opened Pausing
  import People
  import PeopleLaws

  /** since says, for each paused member, how long the log was when the pause began. */
  datatype Ledger = Ledger(s: State, since: map<Identity, nat>)

  /** A pause goes on, or begins at the end of the log; nothing else is remembered. */
  function SinceNext(w: Ledger, cfg: Config, s2: State): map<Identity, nat> {
    map i | i in s2.db.members && PausedMember(s2, cfg, i) ::
      if PausedMember(w.s, cfg, i) && i in w.since then w.since[i] else |s2.db.log|
  }

  /** Requests that leave persons and messages as they are and put nobody out. */
  predicate Steady(r: Request) {
    || r.Identify? || r.JoinRoom? || r.PartRoom? || r.ChooseMode? || r.ChooseMine?
    || r.EnterGroup? || r.QuitGroup? || r.Save? || r.Prune? || r.StoreRoom? || r.Unban?
  }

  // ---- what stays true -------------------------------------------------------------------

  /** What is queued is stored. */
  ghost predicate QueueStored(db: Db) {
    forall d :: d in db.deliveries ==> exists j :: 0 <= j < |db.log| && db.log[j].id == d.message
  }

  ghost predicate Points(w: Ledger, cfg: Config) {
    forall i :: PausedMember(w.s, cfg, i) ==>
      i in w.since && i in w.s.db.lxmf && PausePoint(w.s.db.log, cfg.group, w.since[i], w.s.db.lxmf[i])
  }

  /** What the hub would tell each paused member now is what was stored since. */
  ghost predicate CountsRight(w: Ledger, cfg: Config) {
    forall i :: PausedMember(w.s, cfg, i) ==>
      && i in w.since && i in w.s.db.lxmf && w.since[i] <= |w.s.db.log|
      && Missed(w.s.db, cfg.group, i) == CountRoom(w.s.db.log[w.since[i]..], cfg.group)
  }

  /** Nothing stored during a pause is queued for the paused member. */
  ghost predicate Unqueued(w: Ledger, cfg: Config) {
    forall i, j :: PausedMember(w.s, cfg, i) && i in w.since && w.since[i] <= j < |w.s.db.log| ==>
      Delivery(w.s.db.log[j].id, i) !in w.s.db.deliveries
  }

  ghost predicate Grounded(s: State) {
    Ascending(s.db.log) && Tidy(s.presence) && People.Valid(s.db.people) && QueueStored(s.db)
  }

  ghost predicate LedgerOk(w: Ledger, cfg: Config) {
    Grounded(w.s) && Points(w, cfg) && Unqueued(w, cfg)
  }

  /** The accounts of pause points are right if and only if the counts are. */
  lemma PointsAreCounts(w: Ledger, cfg: Config)
    requires Ascending(w.s.db.log)
    ensures Points(w, cfg) <==> CountsRight(w, cfg)
  {
    hide PausedMember, PausePoint, After, CountRoom, Ascending;
    var log, g := w.s.db.log, cfg.group;
    forall i | PausedMember(w.s, cfg, i) && i in w.since && i in w.s.db.lxmf
      ensures PausePoint(log, g, w.since[i], w.s.db.lxmf[i]) ==> w.since[i] <= |log|
      ensures w.since[i] <= |log| ==>
                (PausePoint(log, g, w.since[i], w.s.db.lxmf[i]) <==> Missed(w.s.db, g, i) == CountRoom(log[w.since[i]..], g))
    {
      PointInside(log, g, w.since[i], w.s.db.lxmf[i]);
      if w.since[i] <= |log| {
        PausePointIff(log, g, w.since[i], w.s.db.lxmf[i]);
      }
    }
  }

  lemma PointInside(log: seq<Msg>, g: Room, from: nat, cursor: nat)
    ensures PausePoint(log, g, from, cursor) ==> from <= |log|
  {
  }

  // ---- requests that store no message --------------------------------------------------------

  /** A pause that goes on keeps its cursor; one that begins takes the newest message's. */
  ghost predicate PausesRight(s: State, s2: State, cfg: Config) {
    forall i :: PausedMember(s2, cfg, i) ==>
      if PausedMember(s, cfg, i) then i in s.db.lxmf ==> i in s2.db.lxmf && s2.db.lxmf[i] == s.db.lxmf[i]
      else i in s2.db.lxmf && s2.db.lxmf[i] >= LastIn(s.db.log, cfg.group)
  }

  ghost predicate Consistent(s: State, s2: State, cfg: Config) {
    && s2.db.log == s.db.log && s2.db.deliveries <= s.db.deliveries
    && Tidy(s2.presence) && People.Valid(s2.db.people)
    && PausesRight(s, s2, cfg)
  }

  lemma ConsistentKeeps(w: Ledger, s2: State, cfg: Config)
    requires LedgerOk(w, cfg) && Consistent(w.s, s2, cfg)
    ensures LedgerOk(Ledger(s2, SinceNext(w, cfg, s2)), cfg)
  {
    var w2 := Ledger(s2, SinceNext(w, cfg, s2));
    hide Tidy, PausePoint, LastIn, Paused, People.Valid, Ascending;
    forall i | PausedMember(s2, cfg, i)
      ensures i in w2.since && i in s2.db.lxmf && PausePoint(s2.db.log, cfg.group, w2.since[i], s2.db.lxmf[i])
    {
      if !PausedMember(w.s, cfg, i) {
        PauseBegins(w.s.db.log, cfg.group, s2.db.lxmf[i]);
      }
    }
    assert Unqueued(w2, cfg);
  }

  /** Everyone's pause is as it was. */
  lemma NobodyChanges(s: State, s2: State, cfg: Config)
    requires Grounded(s)
    requires s2.db.log == s.db.log && s2.db.deliveries <= s.db.deliveries && Tidy(s2.presence) && People.Valid(s2.db.people)
    requires s2.db.lxmf == s.db.lxmf
    requires forall i :: PausedMember(s2, cfg, i) ==> PausedMember(s, cfg, i)
    ensures Consistent(s, s2, cfg)
  {
  }

  // ---- notes -------------------------------------------------------------------------------

  /** i resumes in this step. */
  ghost predicate Resumes(s: State, s2: State, cfg: Config, i: Identity) {
    PausedMember(s, cfg, i) && i in s2.db.members && !PausedMember(s2, cfg, i)
  }

  /** The resume notes of a step are exactly those due, with the right counts, once each. */
  ghost predicate NotesExact(w: Ledger, s2: State, events: seq<Event>, cfg: Config) {
    && (forall i, n :: Resumed(i, n) in events <==>
          Resumes(w.s, s2, cfg, i) && i in w.since && w.since[i] <= |w.s.db.log| && n == CountRoom(w.s.db.log[w.since[i]..], cfg.group) && n > 0)
    && (forall j, k :: 0 <= j < k < |events| && events[j].Resumed? ==> events[j] != events[k])
  }

  /** What the code counts is what the ledger says was stored since. */
  lemma MissedIsCount(w: Ledger, cfg: Config, i: Identity)
    requires Points(w, cfg) && PausedMember(w.s, cfg, i)
    ensures i in w.since && w.since[i] <= |w.s.db.log| && Missed(w.s.db, cfg.group, i) == CountRoom(w.s.db.log[w.since[i]..], cfg.group)
  {
    CountsSince(w.s.db.log, cfg.group, w.since[i], w.s.db.lxmf[i]);
  }

  lemma NoNotes(w: Ledger, s2: State, events: seq<Event>, cfg: Config)
    requires forall i :: !Resumes(w.s, s2, cfg, i)
    requires forall e :: e in events ==> !e.Resumed?
    ensures NotesExact(w, s2, events, cfg)
  {
  }

  // ---- joining a room --------------------------------------------------------------------------

  ghost predicate SamePresent(s: State, s2: State, g: Room) {
    s2.db.people == s.db.people && forall a :: Present(s2.presence, g, a) == Present(s.presence, g, a)
  }

  lemma PausedSame(s: State, s2: State, cfg: Config, i: Identity)
    requires SamePresent(s, s2, cfg.group) && s2.db.members == s.db.members && s2.db.modes == s.db.modes
    ensures PausedMember(s2, cfg, i) == PausedMember(s, cfg, i)
  {
  }

  /** Nothing about pauses changes: presence in the group room, members and modes are as before. */
  lemma UnrelatedOk(w: Ledger, s2: State, events: seq<Event>, cfg: Config)
    requires LedgerOk(w, cfg) && SamePresent(w.s, s2, cfg.group) && s2.db.members == w.s.db.members && s2.db.modes == w.s.db.modes
    requires s2.db.log == w.s.db.log && s2.db.deliveries <= w.s.db.deliveries && Tidy(s2.presence) && s2.db.lxmf == w.s.db.lxmf
    requires forall e :: e in events ==> !e.Resumed?
    ensures Consistent(w.s, s2, cfg) && NotesExact(w, s2, events, cfg)
  {
    hide Tidy, LastIn, People.Valid, Points, Unqueued;
    forall i
      ensures PausedMember(s2, cfg, i) == PausedMember(w.s, cfg, i)
    {
      PausedSame(w.s, s2, cfg, i);
    }
    hide PausedMember;
    NobodyChanges(w.s, s2, cfg);
    NoNotes(w, s2, events, cfg);
  }

  /** What a join does, as far as pauses go. */
  lemma JoinPlain(s: State, cfg: Config, id: Identity, room: Room, admitted: bool, apps: seq<Identity>, now: int)
    requires Tidy(s.presence) && Join(s, cfg, id, room, admitted, apps, now).Committed?
    ensures var o := Join(s, cfg, id, room, admitted, apps, now);
            && o.s.presence == AddLink(s.presence, room, id) && Tidy(o.s.presence)
            && o.s.db.people == s.db.people && o.s.db.members == s.db.members && o.s.db.modes == s.db.modes
            && o.s.db.log == s.db.log && o.s.db.deliveries == s.db.deliveries
            && (room != cfg.group || PersonOn(s, id, cfg.group, None) ==> o.s.db.lxmf == s.db.lxmf && forall e :: e in o.events ==> !e.Resumed?)
  {
    AddLinkCounts(s.presence, room, id);
    var db := JoinDb(s, room, now);
    PauseNotes(db.(rrc := SetCursor(db.rrc, Seat(room, id), LastIn(db.log, room))), cfg.group, apps, true);
    hide PauseEach, PersonOn, LastIn, Tidy, AddLink, Present;
  }

  lemma JoinPresence(p: Presence.Map, room: Room, id: Identity, g: Room)
    requires Tidy(p)
    ensures forall a :: Present(AddLink(p, room, id), g, a) <==> Present(p, g, a) || (a == id && room == g)
  {
  }

  lemma AlreadyOn(s: State, cfg: Config, id: Identity, a: Identity)
    requires Present(s.presence, cfg.group, a) && a in Fellows(s.db.people, id)
    ensures PersonOn(s, id, cfg.group, None)
  {
  }

  /** Auto members among the apps get the newest message as their cursor; everyone else keeps theirs. */
  lemma ArrivalCursors(s: State, cfg: Config, id: Identity, admitted: bool, apps: seq<Identity>, now: int)
    requires NoRepeats(apps) && Join(s, cfg, id, cfg.group, admitted, apps, now).Committed?
    requires id in Fellows(s.db.people, id) && !PersonOn(s, id, cfg.group, None)
    ensures var o := Join(s, cfg, id, cfg.group, admitted, apps, now);
            && (forall i :: i in o.s.db.lxmf <==> i in s.db.lxmf || (i in apps && OnAuto(s.db, i)))
            && (forall i :: i in o.s.db.lxmf ==>
                  o.s.db.lxmf[i] == if i in apps && OnAuto(s.db, i) then Point(s.db, cfg.group, i) else s.db.lxmf[i])
            && o.events == [Joined(Seat(cfg.group, id))]
  {
    var db := JoinDb(s, cfg.group, now);
    var db1 := db.(rrc := SetCursor(db.rrc, Seat(cfg.group, id), LastIn(db.log, cfg.group)));
    assert !Present(s.presence, cfg.group, id);
    assert forall i :: OnAuto(db1, i) == OnAuto(s.db, i);
    PauseEachPauses(db1, cfg.group, apps);
    hide PauseEach, PersonOn, LastIn, AddLink, OnAuto, Present, Fellows;
    assert forall i :: Point(db1, cfg.group, i) == Point(s.db, cfg.group, i);
    assert [] + [Joined(Seat(cfg.group, id))] == [Joined(Seat(cfg.group, id))];
  }

  lemma OwnFellow(t: People.Tables, id: Identity)
    ensures id in Fellows(t, id)
  {
  }

  /** A join that brings the person into the group room for the first time pauses its auto members. */
  lemma ArrivalPauses(w: Ledger, cfg: Config, id: Identity, admitted: bool, apps: seq<Identity>, now: int)
    requires LedgerOk(w, cfg) && ListsApps(w.s.db.people, id, apps) && Join(w.s, cfg, id, cfg.group, admitted, apps, now).Committed?
    requires !PersonOn(w.s, id, cfg.group, None)
    ensures var o := Join(w.s, cfg, id, cfg.group, admitted, apps, now);
            Consistent(w.s, o.s, cfg) && NotesExact(w, o.s, o.events, cfg)
  {
    var o := Join(w.s, cfg, id, cfg.group, admitted, apps, now);
    JoinPlain(w.s, cfg, id, cfg.group, admitted, apps, now);
    JoinPresence(w.s.presence, cfg.group, id, cfg.group);
    OwnFellow(w.s.db.people, id);
    ArrivalCursors(w.s, cfg, id, admitted, apps, now);
    hide Join, LastIn, Tidy, Points, Unqueued, PersonOn, AddLink, Present, Fellows, PausedMember, OnAuto, People.Valid, QueueStored;
    forall i
      ensures PausedMember(o.s, cfg, i) <==> PausedMember(w.s, cfg, i) || (i in apps && OnAuto(w.s.db, i))
      ensures i in apps && OnAuto(w.s.db, i) ==> !PausedMember(w.s, cfg, i)
    {
      ArrivalPaused(w.s, o.s, cfg, id, apps, i);
    }
    hide NotesExact;
    NoNotes(w, o.s, o.events, cfg);
    ArrivalConsistent(w.s, o.s, cfg, apps);
  }

  lemma ArrivalConsistent(s: State, s2: State, cfg: Config, apps: seq<Identity>)
    requires Tidy(s2.presence) && People.Valid(s2.db.people)
    requires s2.db.log == s.db.log && s2.db.deliveries == s.db.deliveries
    requires forall i :: i in s2.db.lxmf <==> i in s.db.lxmf || (i in apps && OnAuto(s.db, i))
    requires forall i :: i in s2.db.lxmf ==> s2.db.lxmf[i] == if i in apps && OnAuto(s.db, i) then Point(s.db, cfg.group, i) else s.db.lxmf[i]
    requires forall i :: PausedMember(s2, cfg, i) <==> PausedMember(s, cfg, i) || (i in apps && OnAuto(s.db, i))
    requires forall i :: i in apps && OnAuto(s.db, i) ==> !PausedMember(s, cfg, i)
    ensures Consistent(s, s2, cfg)
  {
    hide LastIn, Tidy, People.Valid, PausedMember, OnAuto;
  }

  lemma ArrivalPaused(s: State, s2: State, cfg: Config, id: Identity, apps: seq<Identity>, i: Identity)
    requires ListsApps(s.db.people, id, apps) && !PersonOn(s, id, cfg.group, None)
    requires s2.db.people == s.db.people && s2.db.members == s.db.members && s2.db.modes == s.db.modes
    requires forall a :: Present(s2.presence, cfg.group, a) <==> Present(s.presence, cfg.group, a) || a == id
    ensures PausedMember(s2, cfg, i) <==> PausedMember(s, cfg, i) || (i in apps && OnAuto(s.db, i))
    ensures i in apps && OnAuto(s.db, i) ==> !PausedMember(s, cfg, i)
  {
    hide PersonOn, Present, Fellows;
    OnAfterJoin(s, s2, cfg, id, i);
    if i in apps {
      FellowOn(s, cfg, id, i);
    }
  }

  lemma FellowOn(s: State, cfg: Config, id: Identity, i: Identity)
    requires i in Fellows(s.db.people, id)
    ensures OnRrc(s, cfg, i) == PersonOn(s, id, cfg.group, None)
  {
  }

  /** What every request must do to the accounts: keep them right, and send exactly the notes due. */
  ghost predicate Accounted(w: Ledger, o: Outcome, cfg: Config) {
    o.Committed? ==> LedgerOk(Ledger(o.s, SinceNext(w, cfg, o.s)), cfg) && NotesExact(w, o.s, o.events, cfg)
  }

  lemma FromConsistent(w: Ledger, o: Outcome, cfg: Config)
    requires LedgerOk(w, cfg) && (o.Committed? ==> Consistent(w.s, o.s, cfg) && NotesExact(w, o.s, o.events, cfg))
    ensures Accounted(w, o, cfg)
  {
    if o.Committed? {
      hide LedgerOk, Consistent, NotesExact, SinceNext;
      ConsistentKeeps(w, o.s, cfg);
    }
  }

  lemma JoinAccounted(w: Ledger, cfg: Config, id: Identity, room: Room, admitted: bool, apps: seq<Identity>, now: int)
    requires LedgerOk(w, cfg) && ListsApps(w.s.db.people, id, apps)
    ensures Accounted(w, Join(w.s, cfg, id, room, admitted, apps, now), cfg)
  {
    var o := Join(w.s, cfg, id, room, admitted, apps, now);
    assert Tidy(w.s.presence);
    hide LedgerOk, Join, Tidy, Consistent, NotesExact, ListsApps, PersonOn, AddLink, Present;
    if o.Committed? {
      JoinPlain(w.s, cfg, id, room, admitted, apps, now);
      JoinPresence(w.s.presence, room, id, cfg.group);
      if room != cfg.group || Present(w.s.presence, cfg.group, id) {
        if room == cfg.group {
          OwnFellow(w.s.db.people, id);
          AlreadyOn(w.s, cfg, id, id);
        }
        UnrelatedOk(w, o.s, o.events, cfg);
      } else if PersonOn(w.s, id, cfg.group, None) {
        FellowArrives(w, cfg, id, o);
      } else {
        ArrivalPauses(w, cfg, id, admitted, apps, now);
      }
    }
    FromConsistent(w, o, cfg);
  }

  /** Another app of someone already in the group room comes in: no pause changes. */
  lemma FellowArrives(w: Ledger, cfg: Config, id: Identity, o: Outcome)
    requires LedgerOk(w, cfg) && o.Committed? && PersonOn(w.s, id, cfg.group, None)
    requires o.s.db.people == w.s.db.people && o.s.db.members == w.s.db.members && o.s.db.modes == w.s.db.modes
    requires o.s.db.log == w.s.db.log && o.s.db.deliveries == w.s.db.deliveries && o.s.db.lxmf == w.s.db.lxmf && Tidy(o.s.presence)
    requires forall a :: Present(o.s.presence, cfg.group, a) <==> Present(w.s.presence, cfg.group, a) || a == id
    requires forall e :: e in o.events ==> !e.Resumed?
    ensures Consistent(w.s, o.s, cfg) && NotesExact(w, o.s, o.events, cfg)
  {
    hide PersonOn, Fellows, Tidy, Present, LastIn, People.Valid, Points, Unqueued;
    forall i
      ensures PausedMember(o.s, cfg, i) == PausedMember(w.s, cfg, i)
    {
      OnAfterJoin(w.s, o.s, cfg, id, i);
      if i in Fellows(w.s.db.people, id) {
        FellowOn(w.s, cfg, id, i);
      }
    }
    hide PausedMember;
    NobodyChanges(w.s, o.s, cfg);
    NoNotes(w, o.s, o.events, cfg);
  }

  // ---- leaving a room ---------------------------------------------------------------------------

  lemma PartPlain(s: State, cfg: Config, id: Identity, room: Room, apps: seq<Identity>, now: int)
    requires Tidy(s.presence)
    ensures var o := Part(s, cfg, id, room, apps, now);
            && o.s.presence == DropLink(s.presence, room, id) && Tidy(o.s.presence)
            && o.s.db.people == s.db.people && o.s.db.members == s.db.members && o.s.db.modes == s.db.modes
            && o.s.db.log == s.db.log && o.s.db.deliveries == s.db.deliveries
            && (Links(s.presence, room, id) != 1 || room != cfg.group || PersonOn(s, id, cfg.group, Some(id)) ==>
                  o.s.db.lxmf == s.db.lxmf && forall e :: e in o.events ==> !e.Resumed?)
  {
    DropLinkCounts(s.presence, room, id);
    PauseNotes(s.db.(rrc := SetCursor(s.db.rrc, Seat(room, id), LastIn(s.db.log, room))), cfg.group, apps, false);
    hide PauseEach, PersonOn, LastIn, Tidy, DropLink, RoomsLeft;
  }

  lemma PartPresence(p: Presence.Map, room: Room, id: Identity, g: Room)
    requires Tidy(p)
    ensures forall a :: Present(DropLink(p, room, id), g, a) <==> Present(p, g, a) && !(a == id && room == g && Links(p, room, id) == 1)
  {
    DropLinkCounts(p, room, id);
    hide Tidy, DropLink;
  }

  lemma DepartureCursors(s: State, cfg: Config, id: Identity, apps: seq<Identity>, now: int)
    requires NoRepeats(apps)
    requires Links(s.presence, cfg.group, id) == 1 && !PersonOn(s, id, cfg.group, Some(id))
    ensures var o := Part(s, cfg, id, cfg.group, apps, now);
            && (forall i :: i in o.s.db.lxmf <==> i in s.db.lxmf)
            && (forall i :: i in s.db.lxmf ==>
                  o.s.db.lxmf[i] == if i in apps && OnAuto(s.db, i) then Point(s.db, cfg.group, i) else s.db.lxmf[i])
            && o.events != [] && o.events[0] == Parted(Seat(cfg.group, id)) && NotesFor(o.events[1..], s.db, cfg.group, apps)
  {
    var db1 := s.db.(rrc := SetCursor(s.db.rrc, Seat(cfg.group, id), LastIn(s.db.log, cfg.group)));
    assert forall i :: OnAuto(db1, i) == OnAuto(s.db, i);
    assert forall i :: Missed(db1, cfg.group, i) == Missed(s.db, cfg.group, i);
    PauseEachResumes(db1, cfg.group, apps);
    var notes := PauseEach(db1, cfg.group, apps, false).1;
    assert ([Parted(Seat(cfg.group, id))] + notes)[1..] == notes;
    hide PauseEach, PersonOn, LastIn, DropLink, OnAuto, Fellows, RoomsLeft, Missed;
    assert forall i :: Point(db1, cfg.group, i) == Point(s.db, cfg.group, i);
  }

  /** The last app of a person leaves the group room: exactly its auto members resume, and are told. */
  lemma DepartureResumes(w: Ledger, cfg: Config, id: Identity, apps: seq<Identity>, now: int)
    requires LedgerOk(w, cfg) && ListsApps(w.s.db.people, id, apps)
    requires Links(w.s.presence, cfg.group, id) == 1 && !PersonOn(w.s, id, cfg.group, Some(id))
    ensures var o := Part(w.s, cfg, id, cfg.group, apps, now);
            Consistent(w.s, o.s, cfg) && NotesExact(w, o.s, o.events, cfg)
  {
    var o := Part(w.s, cfg, id, cfg.group, apps, now);
    assert Present(w.s.presence, cfg.group, id);
    PartPlain(w.s, cfg, id, cfg.group, apps, now);
    PartPresence(w.s.presence, cfg.group, id, cfg.group);
    DepartureCursors(w.s, cfg, id, apps, now);
    hide Part, LastIn, Tidy, Unqueued, PersonOn, DropLink, Present, Fellows, PausePoint, NotesFor;
    forall i
      ensures PausedMember(o.s, cfg, i) <==> PausedMember(w.s, cfg, i) && !(i in apps && OnAuto(w.s.db, i))
      ensures i in apps && OnAuto(w.s.db, i) ==> PausedMember(w.s, cfg, i)
    {
      OnAfterPart(w.s, o.s, cfg, id, i);
    }
    hide PausedMember, OnAuto, Points;
    DepartureNotes(w, o.s, o.events, cfg, apps);
    DepartureConsistent(w.s, o.s, cfg, apps);
  }

  lemma DepartureConsistent(s: State, s2: State, cfg: Config, apps: seq<Identity>)
    requires Grounded(s) && Tidy(s2.presence) && s2.db.people == s.db.people
    requires s2.db.log == s.db.log && s2.db.deliveries == s.db.deliveries
    requires forall i :: i in s2.db.lxmf <==> i in s.db.lxmf
    requires forall i :: i in s.db.lxmf ==> s2.db.lxmf[i] == if i in apps && OnAuto(s.db, i) then Point(s.db, cfg.group, i) else s.db.lxmf[i]
    requires forall i :: PausedMember(s2, cfg, i) <==> PausedMember(s, cfg, i) && !(i in apps && OnAuto(s.db, i))
    ensures Consistent(s, s2, cfg)
  {
    hide LastIn;
  }

  lemma DepartureNotes(w: Ledger, s2: State, events: seq<Event>, cfg: Config, apps: seq<Identity>)
    requires Points(w, cfg) && s2.db.members == w.s.db.members
    requires events != [] && !events[0].Resumed? && NotesFor(events[1..], w.s.db, cfg.group, apps)
    requires forall i :: PausedMember(s2, cfg, i) <==> PausedMember(w.s, cfg, i) && !(i in apps && OnAuto(w.s.db, i))
    requires forall i :: i in apps && OnAuto(w.s.db, i) ==> PausedMember(w.s, cfg, i)
    ensures NotesExact(w, s2, events, cfg)
  {
    assert forall i :: OnAuto(w.s.db, i) ==> i in w.s.db.members;
    assert events == [events[0]] + events[1..];
    assert forall i, n :: Resumed(i, n) in events <==> Resumed(i, n) in events[1..];
    assert forall i :: PausedMember(w.s, cfg, i) ==> i in w.s.db.members;
    assert forall i :: Resumes(w.s, s2, cfg, i) <==> i in apps && OnAuto(w.s.db, i);
    forall i | PausedMember(w.s, cfg, i)
      ensures i in w.since && w.since[i] <= |w.s.db.log| && Missed(w.s.db, cfg.group, i) == CountRoom(w.s.db.log[w.since[i]..], cfg.group)
    {
      MissedIsCount(w, cfg, i);
    }
    hide PausedMember, OnAuto, Missed, CountRoom, Points, Resumes;
  }

  lemma PartAccounted(w: Ledger, cfg: Config, id: Identity, room: Room, apps: seq<Identity>, now: int)
    requires LedgerOk(w, cfg) && ListsApps(w.s.db.people, id, apps)
    ensures Accounted(w, Part(w.s, cfg, id, room, apps, now), cfg)
  {
    var o := Part(w.s, cfg, id, room, apps, now);
    assert o.Committed?;
    assert Tidy(w.s.presence);
    PartPlain(w.s, cfg, id, room, apps, now);
    PartPresence(w.s.presence, room, id, cfg.group);
    hide LedgerOk, Part, Tidy, Consistent, NotesExact, ListsApps, PersonOn, DropLink;
    if room != cfg.group || Links(w.s.presence, room, id) != 1 {
      UnrelatedOk(w, o.s, o.events, cfg);
    } else if PersonOn(w.s, id, cfg.group, Some(id)) {
      FellowLeaves(w, cfg, id, o);
    } else {
      DepartureResumes(w, cfg, id, apps, now);
    }
    FromConsistent(w, o, cfg);
  }

  lemma FellowLeaves(w: Ledger, cfg: Config, id: Identity, o: Outcome)
    requires LedgerOk(w, cfg) && o.Committed? && PersonOn(w.s, id, cfg.group, Some(id)) && Present(w.s.presence, cfg.group, id)
    requires o.s.db.people == w.s.db.people && o.s.db.members == w.s.db.members && o.s.db.modes == w.s.db.modes
    requires o.s.db.log == w.s.db.log && o.s.db.deliveries == w.s.db.deliveries && o.s.db.lxmf == w.s.db.lxmf && Tidy(o.s.presence)
    requires forall a :: Present(o.s.presence, cfg.group, a) <==> Present(w.s.presence, cfg.group, a) && a != id
    requires forall e :: e in o.events ==> !e.Resumed?
    ensures Consistent(w.s, o.s, cfg) && NotesExact(w, o.s, o.events, cfg)
  {
    hide PersonOn, Fellows, Tidy, Present, LastIn, People.Valid, Points, Unqueued;
    forall i
      ensures PausedMember(o.s, cfg, i) == PausedMember(w.s, cfg, i)
    {
      OnAfterPart(w.s, o.s, cfg, id, i);
    }
    hide PausedMember;
    NobodyChanges(w.s, o.s, cfg);
    NoNotes(w, o.s, o.events, cfg);
  }

  // ---- the group ---------------------------------------------------------------------------------

  lemma ModePaused(s: State, cfg: Config, id: Identity, mode: Mode, i: Identity)
    ensures var s2 := SetMode(s, cfg, id, mode).s;
            PausedMember(s2, cfg, i) == if i == id then i in s.db.members && Paused(s, cfg, id, mode) else PausedMember(s, cfg, i)
  {
  }

  /** What a pause or resumption of id does to the cursors, and which note it sends. */
  ghost predicate ModeChanged(db: Db, lxmf: map<Identity, nat>, notes: seq<Event>, g: Room, id: Identity, was: bool, now: bool) {
    && (forall i :: i != id ==> (i in lxmf <==> i in db.lxmf) && (i in db.lxmf ==> lxmf[i] == db.lxmf[i]))
    && (was == now ==> lxmf == db.lxmf)
    && (!was && now ==> id in lxmf && lxmf[id] >= LastIn(db.log, g))
    && notes == if was && !now && Missed(db, g, id) > 0 then [Resumed(id, Missed(db, g, id))] else []
  }

  lemma ChangeCursors(db: Db, g: Room, id: Identity, was: bool, now: bool)
    ensures var (lxmf, notes) := PauseChange(db.log, g, db.lxmf, id, was, now); ModeChanged(db, lxmf, notes, g, id, was, now)
  {
    hide LastIn, After;
  }

  lemma ModeCursors(s: State, cfg: Config, id: Identity, mode: Mode)
    ensures var o := SetMode(s, cfg, id, mode);
            && o.Committed? && o.s == s.(db := s.db.(modes := s.db.modes[id := mode], lxmf := o.s.db.lxmf))
            && ModeChanged(s.db, o.s.db.lxmf, o.events, cfg.group, id, PausedMember(s, cfg, id), id in s.db.members && Paused(s, cfg, id, mode))
  {
    hide LastIn, After, Paused, PauseChange, ModeChanged;
    ChangeCursors(s.db, cfg.group, id, Paused(s, cfg, id, ModeOf(s.db, id)), Paused(s, cfg, id, mode));
    NothingChanged(s.db, cfg.group, id);
  }

  lemma NothingChanged(db: Db, g: Room, id: Identity)
    ensures ModeChanged(db, db.lxmf, [], g, id, false, false)
  {
  }

  lemma ModeAccounted(w: Ledger, cfg: Config, id: Identity, mode: Mode)
    requires LedgerOk(w, cfg)
    ensures Accounted(w, SetMode(w.s, cfg, id, mode), cfg)
  {
    var o := SetMode(w.s, cfg, id, mode);
    ModeCursors(w.s, cfg, id, mode);
    forall i
      ensures PausedMember(o.s, cfg, i) == if i == id then i in w.s.db.members && Paused(w.s, cfg, id, mode) else PausedMember(w.s, cfg, i)
    {
      ModePaused(w.s, cfg, id, mode, i);
    }
    assert PausedMember(w.s, cfg, id) ==> id in w.s.db.members;
    hide SetMode, LastIn, Missed, PausedMember, Paused, PausePoint, Tidy, People.Valid, Unqueued, QueueStored;
    if PausedMember(w.s, cfg, id) {
      MissedIsCount(w, cfg, id);
    }
    hide Points;
    assert Consistent(w.s, o.s, cfg);
    ModeNotes(w, o, cfg, id);
    FromConsistent(w, o, cfg);
  }

  lemma ModeNotes(w: Ledger, o: Outcome, cfg: Config, id: Identity)
    requires o.Committed? && o.s.db.members == w.s.db.members
    requires forall i :: i != id ==> PausedMember(o.s, cfg, i) == PausedMember(w.s, cfg, i)
    requires PausedMember(w.s, cfg, id) ==> id in w.s.db.members
    requires PausedMember(w.s, cfg, id) ==> id in w.since && w.since[id] <= |w.s.db.log| && Missed(w.s.db, cfg.group, id) == CountRoom(w.s.db.log[w.since[id]..], cfg.group)
    requires var due := PausedMember(w.s, cfg, id) && !PausedMember(o.s, cfg, id);
             o.events == if due && Missed(w.s.db, cfg.group, id) > 0 then [Resumed(id, Missed(w.s.db, cfg.group, id))] else []
    ensures NotesExact(w, o.s, o.events, cfg)
  {
  }

  lemma EnterAccounted(w: Ledger, cfg: Config, id: Identity, allowed: bool)
    requires LedgerOk(w, cfg)
    ensures Accounted(w, JoinGroup(w.s, id, allowed), cfg)
  {
    var o := JoinGroup(w.s, id, allowed);
    if o.Committed? {
      forall i
        ensures PausedMember(o.s, cfg, i) == PausedMember(w.s, cfg, i)
      {
        OnSame(w.s, o.s, cfg, i);
        hide PersonOn;
      }
      hide PausedMember, Tidy, LastIn, Points, Unqueued, People.Valid;
      NobodyChanges(w.s, o.s, cfg);
      NoNotes(w, o.s, o.events, cfg);
    }
    hide LedgerOk, Consistent, NotesExact, JoinGroup;
    FromConsistent(w, o, cfg);
  }

  lemma QuitAccounted(w: Ledger, cfg: Config, id: Identity)
    requires LedgerOk(w, cfg)
    ensures Accounted(w, LeaveGroup(w.s, id), cfg)
  {
    var o := LeaveGroup(w.s, id);
    forall i
      ensures PausedMember(o.s, cfg, i) <==> PausedMember(w.s, cfg, i) && i != id
    {
      OnSame(w.s, o.s, cfg, i);
      hide PersonOn;
    }
    assert id !in o.s.db.members;
    hide PausedMember, Tidy, LastIn, Points, Unqueued, People.Valid;
    NobodyChanges(w.s, o.s, cfg);
    NoNotes(w, o.s, o.events, cfg);
    hide LedgerOk, Consistent, NotesExact, LeaveGroup;
    FromConsistent(w, o, cfg);
  }

  /** Someone new is a person alone: nobody else's apps change. */
  lemma TouchedFellows(t: People.Tables, id: Identity, row: PersonId, now: int, i: Identity)
    requires People.Homed(t) && row !in t.people
    ensures Fellows(People.Touched(t, id, row, now), i) == Fellows(t, i)
  {
  }

  lemma IdentifyAccounted(w: Ledger, cfg: Config, id: Identity, row: PersonId, now: int)
    requires LedgerOk(w, cfg)
    ensures Accounted(w, DoIdentify(w.s, id, row, now), cfg)
  {
    var o := DoIdentify(w.s, id, row, now);
    if o.Committed? {
      PeopleLaws.TouchedKeeps(w.s.db.people, id, row, now);
      forall i
        ensures PausedMember(o.s, cfg, i) == PausedMember(w.s, cfg, i)
      {
        TouchedFellows(w.s.db.people, id, row, now, i);
        hide Fellows, People.Touched;
      }
      hide PausedMember, Tidy, LastIn, Points, Unqueued, People.Valid, People.Touched;
      NobodyChanges(w.s, o.s, cfg);
      NoNotes(w, o.s, o.events, cfg);
    }
    hide LedgerOk, Consistent, NotesExact, DoIdentify;
    FromConsistent(w, o, cfg);
  }

  /** Requests that touch neither members, modes, presence, persons, log nor these cursors. */
  lemma SmallAccounted(w: Ledger, cfg: Config, r: Request)
    requires LedgerOk(w, cfg) && (r.ChooseMine? || r.Save? || r.Prune? || r.StoreRoom? || r.Unban?)
    ensures Accounted(w, Handle(w.s, cfg, r), cfg)
  {
    assert Tidy(w.s.presence);
    hide LedgerOk, Tidy, Consistent, NotesExact, Seats, SavedCursor;
    var o := Handle(w.s, cfg, r);
    UnrelatedOk(w, o.s, o.events, cfg);
    hide Handle;
    FromConsistent(w, o, cfg);
  }

  // ---- messages -------------------------------------------------------------------------------------

  /** A group message is queued for exactly the members it is for. */
  lemma QueuedIff(s: State, cfg: Config, id: Identity, via: Via, origin: Option<nat>, allowed: bool, now: int, i: Identity)
    requires Ascending(s.db.log) && QueueStored(s.db) && Post(s, cfg, id, cfg.group, via, origin, allowed, now).Committed? && !Duplicate(s.db.log, via, origin)
    ensures var o := Post(s, cfg, id, cfg.group, via, origin, allowed, now);
            Delivery(NextId(s.db.log), i) in o.s.db.deliveries <==>
              && i in s.db.members && !PausedMember(s, cfg, i)
              && !(i == id && via == LXMF)
              && (i in s.db.mine || !SamePerson(s.db.people, i, id))
              && i !in s.db.bans
  {
  }

  lemma SayPlain(s: State, cfg: Config, id: Identity, room: Room, via: Via, origin: Option<nat>, allowed: bool, now: int)
    requires Post(s, cfg, id, room, via, origin, allowed, now).Committed?
    ensures var o := Post(s, cfg, id, room, via, origin, allowed, now);
            && o.s.presence == s.presence && o.s.db.people == s.db.people && o.s.db.members == s.db.members
            && o.s.db.modes == s.db.modes && o.s.db.lxmf == s.db.lxmf
            && (forall e :: e in o.events ==> !e.Resumed?)
            && (Duplicate(s.db.log, via, origin) ==> o.s == s)
            && (!Duplicate(s.db.log, via, origin) ==>
                  && o.s.db.log == s.db.log + [Msg(NextId(s.db.log), room, id, via, origin)]
                  && (forall d :: d in o.s.db.deliveries ==> d in s.db.deliveries || (d.message == NextId(s.db.log) && !PausedMember(s, cfg, d.to))))
  {
  }

  /** A message may be stored in the group room, and some paused member's cursor is not below its id. */
  ghost predicate SaidPastCursor(s: State, cfg: Config, room: Room) {
    room == cfg.group && exists i :: PausedMember(s, cfg, i) && i in s.db.lxmf && s.db.lxmf[i] >= NextId(s.db.log)
  }

  /** What it takes for a message to be counted by everyone it is to be counted by, if it is stored at all. */
  ghost predicate QuietSay(s: State, cfg: Config, id: Identity, room: Room, via: Via, origin: Option<nat>, allowed: bool) {
    MayPost(s, cfg, id, room, via, allowed) && !Duplicate(s.db.log, via, origin) ==> !SaidPastCursor(s, cfg, room)
  }

  lemma SayIff(w: Ledger, cfg: Config, id: Identity, room: Room, via: Via, origin: Option<nat>, allowed: bool, now: int)
    requires LedgerOk(w, cfg)
    ensures Accounted(w, Post(w.s, cfg, id, room, via, origin, allowed, now), cfg) <==> QuietSay(w.s, cfg, id, room, via, origin, allowed)
  {
    var o := Post(w.s, cfg, id, room, via, origin, allowed, now);
    assert Tidy(w.s.presence);
    assert o.Committed? <==> MayPost(w.s, cfg, id, room, via, allowed);
    hide LedgerOk, Post, MayPost, Tidy, Consistent, NotesExact, Duplicate, NextId, SaidPastCursor;
    if o.Committed? {
      SayPlain(w.s, cfg, id, room, via, origin, allowed, now);
      if Duplicate(w.s.db.log, via, origin) {
        UnrelatedOk(w, o.s, o.events, cfg);
        FromConsistent(w, o, cfg);
      } else {
        forall i
          ensures PausedMember(o.s, cfg, i) == PausedMember(w.s, cfg, i)
        {
          PausedSame(w.s, o.s, cfg, i);
        }
        hide PausedMember;
        NoNotes(w, o.s, o.events, cfg);
        SaidLedger(w, o.s, cfg, Msg(NextId(w.s.db.log), room, id, via, origin));
      }
    }
  }

  lemma SaidLedger(w: Ledger, s2: State, cfg: Config, m: Msg)
    requires LedgerOk(w, cfg) && s2.presence == w.s.presence && s2.db.people == w.s.db.people && s2.db.lxmf == w.s.db.lxmf
    requires s2.db.log == w.s.db.log + [m] && m.id == NextId(w.s.db.log)
    requires s2.db.members == w.s.db.members && forall i :: PausedMember(s2, cfg, i) == PausedMember(w.s, cfg, i)
    requires forall d :: d in s2.db.deliveries ==> d in w.s.db.deliveries || (d.message == m.id && !PausedMember(w.s, cfg, d.to))
    ensures LedgerOk(Ledger(s2, SinceNext(w, cfg, s2)), cfg) <==> !SaidPastCursor(w.s, cfg, m.room)
  {
    var w2 := Ledger(s2, SinceNext(w, cfg, s2));
    assert forall i :: PausedMember(s2, cfg, i) ==> i in s2.db.members;
    SaidGround(w.s, s2, m);
    hide PausedMember, Tidy, LastIn, People.Valid, NextId, QueueStored, Ascending;
    forall i | PausedMember(s2, cfg, i)
      ensures i in w.since && i in w2.since && w2.since[i] == w.since[i] && i in w.s.db.lxmf
      ensures PausePoint(s2.db.log, cfg.group, w2.since[i], s2.db.lxmf[i]) <==> (m.room == cfg.group ==> m.id > w.s.db.lxmf[i])
    {
      PausePointGrows(w.s.db.log, cfg.group, w.since[i], w.s.db.lxmf[i], m);
    }
    hide PausePoint;
    SaidUnqueued(w, w2, cfg, m);
  }

  lemma SaidGround(s: State, s2: State, m: Msg)
    requires Grounded(s) && s2.presence == s.presence && s2.db.people == s.db.people && s2.db.log == s.db.log + [m] && m.id == NextId(s.db.log)
    requires forall d :: d in s2.db.deliveries ==> d in s.db.deliveries || d.message == m.id
    ensures Grounded(s2)
  {
    hide Tidy, People.Valid;
    forall d | d in s2.db.deliveries
      ensures exists j :: 0 <= j < |s2.db.log| && s2.db.log[j].id == d.message
    {
      if d in s.db.deliveries {
        var j :| 0 <= j < |s.db.log| && s.db.log[j].id == d.message;
        assert s2.db.log[j].id == d.message;
      } else {
        assert s2.db.log[|s.db.log|].id == d.message;
      }
    }
  }

  lemma SaidUnqueued(w: Ledger, w2: Ledger, cfg: Config, m: Msg)
    requires Unqueued(w, cfg) && w2.s.db.log == w.s.db.log + [m] && Grounded(w.s) && m.id == NextId(w.s.db.log)
    requires forall i :: PausedMember(w2.s, cfg, i) == PausedMember(w.s, cfg, i)
    requires forall i :: PausedMember(w2.s, cfg, i) ==> i in w.since && i in w2.since && w2.since[i] == w.since[i]
    requires forall d :: d in w2.s.db.deliveries ==> d in w.s.db.deliveries || (d.message == m.id && !PausedMember(w.s, cfg, d.to))
    ensures Unqueued(w2, cfg)
  {
  }

  // ---- all of them ---------------------------------------------------------------------------------------

  lemma RequestAccounted(w: Ledger, cfg: Config, r: Request)
    requires LedgerOk(w, cfg) && Steady(r)
    ensures Accounted(w, Handle(w.s, cfg, r), cfg)
  {
    hide LedgerOk, ListsApps, Join, Part, Post, SetMode, JoinGroup, LeaveGroup, DoIdentify;
    match r
    case Identify(id, row, now) => IdentifyAccounted(w, cfg, id, row, now);
    case JoinRoom(id, room, admitted, apps, now) =>
      if ListsApps(w.s.db.people, id, apps) {
        JoinAccounted(w, cfg, id, room, admitted, apps, now);
      }
    case PartRoom(id, room, apps, now) =>
      if ListsApps(w.s.db.people, id, apps) {
        PartAccounted(w, cfg, id, room, apps, now);
      }
    case ChooseMode(id, mode) => ModeAccounted(w, cfg, id, mode);
    case EnterGroup(id, allowed) => EnterAccounted(w, cfg, id, allowed);
    case QuitGroup(id) => QuitAccounted(w, cfg, id);
    case _ => SmallAccounted(w, cfg, r);
  }
}
