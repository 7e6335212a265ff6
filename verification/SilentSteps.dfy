/**
 Steps that change who is paused without a word: linking, unlinking, /forget,
 removals, restarts, deletions. Each keeps the accounts right if and only if a
 condition holds that can be checked beforehand.
 */
module SilentSteps {
  import opened Common
  import opened Presence
  import opened Hub
  import opened CatchUps
  import opened PresenceRuns
  import opened Pausing
  import opened PauseSteps
  import People
  import TearApart
  import BanRuns

  // ---- steps that say nothing about pauses ---------------------------------------------------------

  /** i has a cursor and the group has nothing after it. */
  predicate Settled(db: Db, g: Room, i: Identity) {
    i in db.lxmf && After(db.log, g, db.lxmf[i]) == []
  }

  /** Whoever stays a member on auto and comes to be on RRC, or off it, has missed nothing since its cursor. */
  ghost predicate Unnoticed(s: State, s2: State, cfg: Config) {
    forall i :: i in s2.db.members && ModeOf(s.db, i) == Auto && OnRrc(s2, cfg, i) != OnRrc(s, cfg, i) ==> Settled(s.db, cfg.group, i)
  }

  /** Messages, cursors and modes as before, nobody new in the group, nothing new in the queue. */
  ghost predicate Frozen(s: State, s2: State) {
    && s2.db.log == s.db.log && s2.db.lxmf == s.db.lxmf && s2.db.modes == s.db.modes
    && s2.db.members <= s.db.members && s2.db.deliveries <= s.db.deliveries
    && Tidy(s2.presence) && People.Valid(s2.db.people)
  }

  ghost predicate NoteFree(events: seq<Event>) {
    forall e :: e in events ==> !e.Resumed?
  }

  lemma SettledIff(log: seq<Msg>, g: Room, cursor: nat)
    requires Ascending(log)
    ensures After(log, g, cursor) == [] <==> cursor >= LastIn(log, g)
    ensures PausePoint(log, g, |log|, cursor) <==> cursor >= LastIn(log, g)
  {
    LastInMax(log, g);
    AfterMembers(log, g, cursor);
    hide LastIn, After;
    if cursor >= LastIn(log, g) {
      PauseBegins(log, g, cursor);
      NoneAfterIn(log, g, cursor);
    } else {
      var m :| m in log && m.room == g && m.id == LastIn(log, g);
      assert m in After(log, g, cursor);
      var j :| 0 <= j < |log| && log[j] == m;
    }
  }

  /** Off the pause flag itself: only those on auto can change. */
  lemma PausedByOn(s: State, s2: State, cfg: Config, i: Identity)
    requires s2.db.modes == s.db.modes && i in s.db.members && i in s2.db.members
    ensures ModeOf(s2.db, i) == ModeOf(s.db, i)
    ensures PausedMember(s2, cfg, i) != PausedMember(s, cfg, i) <==> ModeOf(s.db, i) == Auto && OnRrc(s2, cfg, i) != OnRrc(s, cfg, i)
  {
    hide PersonOn;
  }

  lemma SilentConsistent(w: Ledger, s2: State, events: seq<Event>, cfg: Config)
    requires LedgerOk(w, cfg) && Frozen(w.s, s2) && NoteFree(events) && Unnoticed(w.s, s2, cfg)
    ensures Consistent(w.s, s2, cfg) && NotesExact(w, s2, events, cfg)
  {
    hide Tidy, People.Valid, OnRrc, PausedMember, LastIn, After, Unqueued, CountRoom, Missed;
    forall i | PausedMember(s2, cfg, i) && !PausedMember(w.s, cfg, i)
      ensures i in s2.db.lxmf && s2.db.lxmf[i] >= LastIn(w.s.db.log, cfg.group)
    {
      MemberOf(s2, cfg, i);
      PausedByOn(w.s, s2, cfg, i);
      SettledIff(w.s.db.log, cfg.group, w.s.db.lxmf[i]);
    }
    forall i | Resumes(w.s, s2, cfg, i) && i in w.since && w.since[i] <= |w.s.db.log|
      ensures CountRoom(w.s.db.log[w.since[i]..], cfg.group) == 0
    {
      MemberOf(w.s, cfg, i);
      PausedByOn(w.s, s2, cfg, i);
      MissedIsCount(w, cfg, i);
      MissedNothing(w.s.db, cfg.group, i);
    }
    hide Points;
    SilentNotes(w, s2, events, cfg);
  }

  lemma MemberOf(s: State, cfg: Config, i: Identity)
    requires PausedMember(s, cfg, i)
    ensures i in s.db.members
  {
  }

  lemma MissedNothing(db: Db, g: Room, i: Identity)
    ensures Settled(db, g, i) <==> i in db.lxmf && Missed(db, g, i) == 0
  {
  }

  lemma SilentNotes(w: Ledger, s2: State, events: seq<Event>, cfg: Config)
    requires NoteFree(events)
    requires forall i :: Resumes(w.s, s2, cfg, i) && i in w.since && w.since[i] <= |w.s.db.log| ==> CountRoom(w.s.db.log[w.since[i]..], cfg.group) == 0
    ensures NotesExact(w, s2, events, cfg)
  {
    hide Resumes, CountRoom;
    forall j | 0 <= j < |events|
      ensures !events[j].Resumed?
    {
      assert events[j] in events;
    }
  }

  /** The other way: accounts that are right after a silent step mean that nobody had anything to be told. */
  lemma SilentOnly(w: Ledger, s2: State, events: seq<Event>, cfg: Config, i: Identity)
    requires LedgerOk(w, cfg) && Frozen(w.s, s2) && NoteFree(events)
    requires LedgerOk(Ledger(s2, SinceNext(w, cfg, s2)), cfg) && NotesExact(w, s2, events, cfg)
    requires i in s2.db.members && ModeOf(w.s.db, i) == Auto && OnRrc(s2, cfg, i) != OnRrc(w.s, cfg, i)
    ensures Settled(w.s.db, cfg.group, i)
  {
    hide Tidy, People.Valid, OnRrc, PausedMember, LastIn, After, Unqueued, CountRoom, Missed;
    PausedByOn(w.s, s2, cfg, i);
    if PausedMember(s2, cfg, i) {
      assert SinceNext(w, cfg, s2)[i] == |s2.db.log|;
      SettledIff(w.s.db.log, cfg.group, w.s.db.lxmf[i]);
    } else {
      MissedIsCount(w, cfg, i);
      var n := CountRoom(w.s.db.log[w.since[i]..], cfg.group);
      assert n > 0 ==> Resumed(i, n) in events;
      MissedNothing(w.s.db, cfg.group, i);
    }
  }

  /** A step that says nothing keeps the accounts right if and only if it goes unnoticed. */
  lemma SilentIff(w: Ledger, s2: State, events: seq<Event>, cfg: Config)
    requires LedgerOk(w, cfg) && Frozen(w.s, s2) && NoteFree(events)
    ensures LedgerOk(Ledger(s2, SinceNext(w, cfg, s2)), cfg) && NotesExact(w, s2, events, cfg) <==> Unnoticed(w.s, s2, cfg)
  {
    hide LedgerOk, NotesExact, Frozen, OnRrc, SinceNext, Settled, Consistent, NoteFree;
    if Unnoticed(w.s, s2, cfg) {
      SilentConsistent(w, s2, events, cfg);
      ConsistentKeeps(w, s2, cfg);
    } else if LedgerOk(Ledger(s2, SinceNext(w, cfg, s2)), cfg) && NotesExact(w, s2, events, cfg) {
      forall i | i in s2.db.members && ModeOf(w.s.db, i) == Auto && OnRrc(s2, cfg, i) != OnRrc(w.s, cfg, i)
        ensures Settled(w.s.db, cfg.group, i)
      {
        SilentOnly(w, s2, events, cfg, i);
      }
    }
  }

  // ---- regrouping, removals and restarts --------------------------------------------------------------

  /** An app of i's person, were the apps grouped as t has them, is in the group room. */
  predicate OnIf(s: State, cfg: Config, t: People.Tables, i: Identity) {
    exists a :: a in Fellows(t, i) && Present(s.presence, cfg.group, a)
  }

  /** Grouping the apps as t has them changes for no member on auto, but for one left out, whether it is on RRC, unless it is settled. */
  ghost predicate QuietRegroup(s: State, cfg: Config, t: People.Tables, but: Option<Identity>) {
    forall i :: i in s.db.members && Some(i) != but && ModeOf(s.db, i) == Auto && OnIf(s, cfg, t, i) != OnRrc(s, cfg, i) ==>
      Settled(s.db, cfg.group, i)
  }

  /** id is nobody's last app in the group room, as far as other members on auto go that are not settled. */
  ghost predicate QuietWithout(s: State, cfg: Config, id: Identity) {
    forall i :: i in s.db.members && i != id && ModeOf(s.db, i) == Auto && OnRrc(s, cfg, i) && !PersonOn(s, i, cfg.group, Some(id)) ==>
      Settled(s.db, cfg.group, i)
  }

  /** Nobody on auto is paused with anything missed. */
  ghost predicate QuietRestart(s: State, cfg: Config) {
    forall i :: i in s.db.members && ModeOf(s.db, i) == Auto && OnRrc(s, cfg, i) ==> Settled(s.db, cfg.group, i)
  }

  lemma RegroupOn(s: State, cfg: Config, t: People.Tables)
    ensures forall i :: OnRrc(Regroup(s, t), cfg, i) == OnIf(s, cfg, t, i)
  {
  }

  lemma RegroupUnnoticed(s: State, cfg: Config, t: People.Tables)
    ensures Unnoticed(s, Regroup(s, t), cfg) <==> QuietRegroup(s, cfg, t, None)
  {
    RegroupOn(s, cfg, t);
    hide OnRrc, OnIf, Settled;
  }

  /** Right accounts after a silent step, given what went unnoticed. */
  lemma SilentAccounted(w: Ledger, o: Outcome, cfg: Config)
    requires LedgerOk(w, cfg) && o.Committed? && Frozen(w.s, o.s) && NoteFree(o.events)
    ensures Accounted(w, o, cfg) <==> Unnoticed(w.s, o.s, cfg)
  {
    hide LedgerOk, NotesExact, SinceNext, Unnoticed, Frozen, NoteFree;
    SilentIff(w, o.s, o.events, cfg);
  }

  lemma RegroupIff(w: Ledger, cfg: Config, t: People.Tables)
    requires LedgerOk(w, cfg) && People.Valid(t)
    ensures Accounted(w, Committed(Regroup(w.s, t), []), cfg) <==> QuietRegroup(w.s, cfg, t, None)
  {
    assert Tidy(w.s.presence);
    hide LedgerOk, Tidy, People.Valid, Accounted, Unnoticed, QuietRegroup;
    SilentAccounted(w, Committed(Regroup(w.s, t), []), cfg);
    RegroupUnnoticed(w.s, cfg, t);
  }

  /** The tables after /forget. */
  function Forgotten(t: People.Tables, id: Identity, others: seq<Identity>, rows: seq<PersonId>, now: int): People.Tables
    requires |rows| == |others|
  {
    People.Released(TearApart.UnlinkEach(t, others, rows, now), id)
  }

  lemma ForgetIff(w: Ledger, cfg: Config, id: Identity, others: seq<Identity>, rows: seq<PersonId>, now: int)
    requires LedgerOk(w, cfg) && |rows| == |others| && People.Valid(Forgotten(w.s.db.people, id, others, rows, now))
    ensures Accounted(w, DoForget(w.s, id, others, rows, now), cfg)
            <==> QuietRegroup(w.s, cfg, Forgotten(w.s.db.people, id, others, rows, now), Some(id))
  {
    assert Tidy(w.s.presence);
    hide People.Released, TearApart.UnlinkEach, LedgerOk, Tidy, People.Valid, Accounted, QuietRegroup, Unnoticed, DoForget, Frozen, NoteFree;
    var o := DoForget(w.s, id, others, rows, now);
    ForgetFacts(w.s, id, others, rows, now);
    SilentAccounted(w, o, cfg);
    ForgetUnnoticed(w.s, cfg, id, Forgotten(w.s.db.people, id, others, rows, now), o.s);
  }

  lemma ForgetFacts(s: State, id: Identity, others: seq<Identity>, rows: seq<PersonId>, now: int)
    requires Tidy(s.presence) && |rows| == |others| && People.Valid(Forgotten(s.db.people, id, others, rows, now))
    ensures var o := DoForget(s, id, others, rows, now);
            && o.Committed? && Frozen(s, o.s) && NoteFree(o.events) && o.s.presence == s.presence
            && o.s.db.people == Forgotten(s.db.people, id, others, rows, now) && o.s.db.members == s.db.members - {id}
  {
    hide People.Released, TearApart.UnlinkEach, Tidy, People.Valid;
  }

  lemma ForgetUnnoticed(s: State, cfg: Config, id: Identity, t: People.Tables, s2: State)
    requires s2.presence == s.presence && s2.db.people == t && s2.db.members == s.db.members - {id}
    ensures Unnoticed(s, s2, cfg) <==> QuietRegroup(s, cfg, t, Some(id))
  {
    assert forall i :: OnRrc(s2, cfg, i) == OnIf(s, cfg, t, i);
    hide OnRrc, OnIf, Settled;
  }

  lemma RestartIff(w: Ledger, cfg: Config, s2: State)
    requires LedgerOk(w, cfg) && s2.presence == map[] && s2.db == w.s.db.(rrc := s2.db.rrc)
    ensures Accounted(w, Committed(s2, []), cfg) <==> QuietRestart(w.s, cfg)
  {
    assert Tidy(s2.presence);
    assert forall i :: !OnRrc(s2, cfg, i);
    hide LedgerOk, Tidy, People.Valid, Accounted, OnRrc, Settled;
    SilentAccounted(w, Committed(s2, []), cfg);
  }

  /** Put out of a room by its operators. */
  lemma RoomRemoveIff(w: Ledger, cfg: Config, id: Identity, room: Room)
    requires LedgerOk(w, cfg)
    ensures Accounted(w, RoomRemove(w.s, cfg, id, room), cfg) <==> room != cfg.group || QuietWithout(w.s, cfg, id)
  {
    assert Tidy(w.s.presence);
    ForgetCounts(w.s.presence, room, id);
    var o := RoomRemove(w.s, cfg, id, room);
    RoomRemoveFacts(w.s, cfg, id, room);
    hide LedgerOk, Tidy, People.Valid, Accounted, RoomRemove, Unnoticed, QuietWithout, Forget, Present;
    SilentAccounted(w, o, cfg);
    RemovedUnnoticed(w.s, cfg, id, room, o.s);
  }

  lemma RoomRemoveFacts(s: State, cfg: Config, id: Identity, room: Room)
    requires Tidy(s.presence) && People.Valid(s.db.people)
    ensures var o := RoomRemove(s, cfg, id, room);
            && o.Committed? && Frozen(s, o.s) && NoteFree(o.events) && o.s.db.people == s.db.people
            && o.s.db.members == (if room == cfg.group then s.db.members - {id} else s.db.members)
            && (forall r, a :: Present(o.s.presence, r, a) <==> Present(s.presence, r, a) && !(r == room && a == id))
  {
    ForgetCounts(s.presence, room, id);
    hide Tidy, People.Valid, Forget;
  }

  lemma RemovedUnnoticed(s: State, cfg: Config, id: Identity, room: Room, s2: State)
    requires s2.db.people == s.db.people && s2.db.members == (if room == cfg.group then s.db.members - {id} else s.db.members)
    requires forall r, a :: Present(s2.presence, r, a) <==> Present(s.presence, r, a) && !(r == room && a == id)
    ensures Unnoticed(s, s2, cfg) <==> room != cfg.group || QuietWithout(s, cfg, id)
  {
    forall i
      ensures OnRrc(s2, cfg, i) == if room == cfg.group then PersonOn(s, i, cfg.group, Some(id)) else OnRrc(s, cfg, i)
      ensures PersonOn(s, i, cfg.group, Some(id)) ==> OnRrc(s, cfg, i)
    {
      hide Fellows, Present;
    }
    hide OnRrc, PersonOn, Settled;
  }

  // ---- kicks and bans -------------------------------------------------------------------------------

  /** Tearing a person apart leaves everyone else's apps together. */
  lemma TornFellows(t: People.Tables, u: People.Tables, id: Identity, i: Identity)
    requires u.identities.Keys == t.identities.Keys && i !in Fellows(t, id)
    requires id in t.identities ==> TearApart.AllSingle(t, u, id)
    requires id !in t.identities ==> u.identities == t.identities
    ensures Fellows(u, i) == Fellows(t, i)
  {
    if id in t.identities && i in t.identities {
      assert TearApart.SameFor(t, u, i);
      forall a
        ensures a in Fellows(u, i) <==> a in Fellows(t, i)
      {
        if a in t.identities {
          if t.identities[a].person == t.identities[id].person {
            assert TearApart.Single(u, a);
          } else {
            assert TearApart.SameFor(t, u, a);
          }
        }
      }
    }
  }

  /** A kick or ban takes all of a person's apps out of the group: nobody that stays is affected. */
  lemma RemoveAccounted(w: Ledger, cfg: Config, id: Identity, apps: seq<Identity>, others: seq<Identity>, rows: seq<PersonId>, seats: seq<Seat>, ban: Option<int>, now: int)
    requires LedgerOk(w, cfg) && ListsApps(w.s.db.people, id, apps) && ListsSeats(w.s.presence, apps, seats)
    requires |rows| == |others| && ListsOthers(w.s.db.people, id, others, rows)
    ensures Accounted(w, Remove(w.s, id, apps, others, rows, seats, ban, now), cfg)
  {
    var o := Remove(w.s, id, apps, others, rows, seats, ban, now);
    RemoveFacts(w.s, id, apps, others, rows, seats, ban, now);
    hide LedgerOk, Remove, Accounted, ListsSeats, ListsOthers, Frozen, Unnoticed;
    RemoveUnnoticed(w.s, o.s, cfg, id, apps);
    SilentAccounted(w, o, cfg);
  }

  /** Only the apps listed leave rooms and the group; the others' persons stay. */
  ghost predicate OnlyTheseGone(s: State, s2: State, id: Identity, apps: seq<Identity>) {
    && (forall r, a :: Present(s2.presence, r, a) <==> Present(s.presence, r, a) && a !in apps)
    && (forall i :: i in s2.db.members ==> i in s.db.members && i !in apps)
    && (forall i :: i !in apps ==> Fellows(s2.db.people, i) == Fellows(s.db.people, i))
  }

  lemma RemoveUnnoticed(s: State, s2: State, cfg: Config, id: Identity, apps: seq<Identity>)
    requires ListsApps(s.db.people, id, apps) && OnlyTheseGone(s, s2, id, apps)
    ensures Unnoticed(s, s2, cfg)
  {
    forall i | i in s2.db.members
      ensures OnRrc(s2, cfg, i) == OnRrc(s, cfg, i)
    {
      forall a | a in Fellows(s.db.people, i)
        ensures a !in apps
      {
        FellowsMutual(s.db.people, a, i);
        FellowsMutual(s.db.people, a, id);
        FellowsMutual(s.db.people, i, id);
      }
      hide Fellows, Present;
    }
    hide OnRrc, Settled;
  }

  lemma RemoveFacts(s: State, id: Identity, apps: seq<Identity>, others: seq<Identity>, rows: seq<PersonId>, seats: seq<Seat>, ban: Option<int>, now: int)
    requires Grounded(s) && ListsApps(s.db.people, id, apps) && ListsSeats(s.presence, apps, seats)
    requires |rows| == |others| && ListsOthers(s.db.people, id, others, rows)
    ensures var o := Remove(s, id, apps, others, rows, seats, ban, now);
            o.Committed? && Frozen(s, o.s) && NoteFree(o.events) && OnlyTheseGone(s, o.s, id, apps)
  {
    var o := Remove(s, id, apps, others, rows, seats, ban, now);
    RemovePlaces(s, id, apps, others, rows, seats, ban, now);
    BanRuns.TornValid(s.db.people, id, others, rows, now);
    TornKeys(s.db.people, id, others, rows, now);
    forall i | i !in apps
      ensures Fellows(o.s.db.people, i) == Fellows(s.db.people, i)
    {
      TornFellows(s.db.people, o.s.db.people, id, i);
    }
    hide Remove, Tidy, People.Valid, TearApart.TornApart, Present, Fellows, ListsSeats, ListsOthers;
  }

  lemma TornKeys(t: People.Tables, id: Identity, others: seq<Identity>, rows: seq<PersonId>, now: int)
    requires People.Valid(t) && |rows| == |others| && ListsOthers(t, id, others, rows)
    ensures var u := TearApart.TornApart(t, id, others, rows, now);
            u.identities.Keys == t.identities.Keys && (id !in t.identities ==> u.identities == t.identities)
  {
    BanRuns.TornValid(t, id, others, rows, now);
    if id !in t.identities {
      assert TearApart.UnlinkEach(t, others, rows, now) == t;
    } else {
      hide TearApart.TornApart;
    }
  }

  lemma RemovePlaces(s: State, id: Identity, apps: seq<Identity>, others: seq<Identity>, rows: seq<PersonId>, seats: seq<Seat>, ban: Option<int>, now: int)
    requires Tidy(s.presence) && ListsSeats(s.presence, apps, seats) && |rows| == |others|
    ensures var o := Remove(s, id, apps, others, rows, seats, ban, now);
            && o.Committed? && Tidy(o.s.presence) && NoteFree(o.events)
            && o.s.db.log == s.db.log && o.s.db.lxmf == s.db.lxmf && o.s.db.modes == s.db.modes
            && o.s.db.members <= s.db.members && o.s.db.deliveries <= s.db.deliveries
            && o.s.db.people == TearApart.TornApart(s.db.people, id, others, rows, now)
            && (forall r, a :: Present(o.s.presence, r, a) <==> Present(s.presence, r, a) && a !in apps)
            && (forall i :: i in o.s.db.members ==> i !in apps)
  {
    BanRuns.WithoutMembersGone(s.db, apps);
    ForgetSeatsAll(s.presence, seats);
    var o := Remove(s, id, apps, others, rows, seats, ban, now);
    hide Tidy, ForgetSeats, WithoutMembers, Banned, TearApart.TornApart, Seats;
    forall r, a
      ensures Present(o.s.presence, r, a) <==> Present(s.presence, r, a) && a !in apps
    {
      InSeats(o.s.presence, r, a);
      InSeats(s.presence, r, a);
      assert Seat(r, a) in seats <==> a in apps && Present(s.presence, r, a);
    }
  }

  // ---- deletions -----------------------------------------------------------------------------------

  /** Since when each member has been paused, in a log that has lost messages. */
  function SinceErased(w: Ledger, ids: set<nat>): map<Identity, nat> {
    map i | i in w.since && w.since[i] <= |w.s.db.log| :: |Kept(w.s.db.log[..w.since[i]], ids)|
  }

  lemma {:induction false} KeptConcat(a: seq<Msg>, b: seq<Msg>, ids: set<nat>)
    ensures Kept(a + b, ids) == Kept(a, ids) + Kept(b, ids)
    decreases |b|
  {
    if b == [] {
      assert a + b == a;
    } else {
      assert (a + b)[..|a + b| - 1] == a + b[..|b| - 1];
      KeptConcat(a, b[..|b| - 1], ids);
    }
  }

  /** What is kept from a place on is what is kept of the part from there on. */
  lemma KeptFrom(log: seq<Msg>, ids: set<nat>, from: nat)
    requires from <= |log|
    ensures var early, late := Kept(log[..from], ids), Kept(log[from..], ids);
            && Kept(log, ids) == early + late
            && (forall j :: 0 <= j < |early| ==> early[j] in log[..from])
            && (forall j :: 0 <= j < |late| ==> late[j] in log[from..])
  {
    assert log == log[..from] + log[from..];
    KeptConcat(log[..from], log[from..], ids);
    KeptMembers(log[..from], ids);
    KeptMembers(log[from..], ids);
    hide Kept;
    assert forall j :: 0 <= j < |Kept(log[..from], ids)| ==> Kept(log[..from], ids)[j] in Kept(log[..from], ids);
    assert forall j :: 0 <= j < |Kept(log[from..], ids)| ==> Kept(log[from..], ids)[j] in Kept(log[from..], ids);
  }

  lemma KeptPoint(log: seq<Msg>, ids: set<nat>, g: Room, from: nat, cursor: nat)
    requires PausePoint(log, g, from, cursor)
    ensures PausePoint(Kept(log, ids), g, |Kept(log[..from], ids)|, cursor)
  {
    KeptFrom(log, ids, from);
    hide Kept;
    var early, late := Kept(log[..from], ids), Kept(log[from..], ids);
    assert forall j :: 0 <= j < |early| && early[j].room == g ==> early[j].id <= cursor;
    assert forall j :: 0 <= j < |late| && late[j].room == g ==> late[j].id > cursor;
  }

  /** What stays of the log after a pause began is what was stored after it began. */
  lemma KeptLate(log: seq<Msg>, ids: set<nat>, from: nat, j: nat)
    requires from <= |log| && |Kept(log[..from], ids)| <= j < |Kept(log, ids)|
    ensures exists k :: from <= k < |log| && log[k] == Kept(log, ids)[j]
  {
    KeptFrom(log, ids, from);
    hide Kept;
    var m := Kept(log, ids)[j];
    assert m in log[from..];
    var k :| 0 <= k < |log| - from && log[from..][k] == m;
    assert log[from + k] == m;
  }

  lemma KeptQueue(db: Db, ids: set<nat>)
    requires QueueStored(db)
    ensures QueueStored(db.(log := Kept(db.log, ids), deliveries := set d | d in db.deliveries && d.message !in ids))
  {
    KeptMembers(db.log, ids);
    hide Kept;
    var log2 := Kept(db.log, ids);
    forall d | d in db.deliveries && d.message !in ids
      ensures exists j :: 0 <= j < |log2| && log2[j].id == d.message
    {
      var k :| 0 <= k < |db.log| && db.log[k].id == d.message;
      assert db.log[k] in log2;
      var j :| 0 <= j < |log2| && log2[j] == db.log[k];
    }
  }

  /** What a deletion must do: the accounts stay right, counted in the log that is left. */
  ghost predicate ErasedRight(w: Ledger, cfg: Config, ids: set<nat>) {
    var o := Erase(w.s, ids);
    LedgerOk(Ledger(o.s, SinceErased(w, ids)), cfg) && NotesExact(w, o.s, o.events, cfg)
  }

  lemma DeletePaused(s: State, cfg: Config, ids: set<nat>)
    ensures forall i :: PausedMember(Erase(s, ids).s, cfg, i) == PausedMember(s, cfg, i)
  {
    forall i
      ensures PausedMember(Erase(s, ids).s, cfg, i) == PausedMember(s, cfg, i)
    {
      PausedSame(s, Erase(s, ids).s, cfg, i);
      hide Kept;
    }
  }

  lemma DeletePoints(w: Ledger, cfg: Config, ids: set<nat>)
    requires Points(w, cfg) && Unqueued(w, cfg)
    ensures var w2 := Ledger(Erase(w.s, ids).s, SinceErased(w, ids)); Points(w2, cfg) && Unqueued(w2, cfg)
  {
    hide PausedMember, Kept, PausePoint;
    var w2 := Ledger(Erase(w.s, ids).s, SinceErased(w, ids));
    DeletePaused(w.s, cfg, ids);
    forall i | PausedMember(w2.s, cfg, i)
      ensures i in w2.since && i in w2.s.db.lxmf && PausePoint(w2.s.db.log, cfg.group, w2.since[i], w2.s.db.lxmf[i])
    {
      PointInside(w.s.db.log, cfg.group, w.since[i], w.s.db.lxmf[i]);
      KeptPoint(w.s.db.log, ids, cfg.group, w.since[i], w.s.db.lxmf[i]);
    }
    forall i, j | PausedMember(w2.s, cfg, i) && i in w2.since && w2.since[i] <= j < |w2.s.db.log|
      ensures Delivery(w2.s.db.log[j].id, i) !in w2.s.db.deliveries
    {
      KeptLate(w.s.db.log, ids, w.since[i], j);
    }
  }

  /** Deleting messages always keeps the accounts right: it is messages stored afterwards that may go uncounted. */
  lemma DeleteAccounted(w: Ledger, cfg: Config, ids: set<nat>)
    requires LedgerOk(w, cfg)
    ensures ErasedRight(w, cfg, ids)
  {
    DeletePaused(w.s, cfg, ids);
    DeletePoints(w, cfg, ids);
    KeptQueue(w.s.db, ids);
    KeptAscends(w.s.db.log, ids);
    hide Kept, PausedMember, Points, Unqueued, Ascending, Tidy, People.Valid, QueueStored, SinceErased;
    NoNotes(w, Erase(w.s, ids).s, [], cfg);
  }

  // ---- what a deletion does to later counts -----------------------------------------------------------

  /** The next group message adds to what a cursor counts if and only if the cursor is below its id. */
  lemma CountedIffBelow(log: seq<Msg>, g: Room, cursor: nat, author: Identity, via: Via, origin: Option<nat>)
    ensures var m := Msg(NextId(log), g, author, via, origin);
            |After(log + [m], g, cursor)| == |After(log, g, cursor)| + (if cursor < NextId(log) then 1 else 0)
  {
    var m := Msg(NextId(log), g, author, via, origin);
    assert (log + [m])[..|log|] == log;
  }

  /** n more group messages. */
  function Spoken(log: seq<Msg>, g: Room, author: Identity, n: nat): seq<Msg> {
    if n == 0 then log
    else Spoken(log, g, author, n - 1) + [Msg(NextId(Spoken(log, g, author, n - 1)), g, author, RRC, None)]
  }

  lemma {:induction false} SpokenNext(log: seq<Msg>, g: Room, author: Identity, n: nat)
    ensures NextId(Spoken(log, g, author, n)) == NextId(log) + n && |Spoken(log, g, author, n)| == |log| + n
  {
    if n > 0 {
      SpokenNext(log, g, author, n - 1);
    }
  }

  lemma {:induction false} SpokenAfter(log: seq<Msg>, g: Room, author: Identity, n: nat, cursor: nat)
    ensures |After(Spoken(log, g, author, n), g, cursor)| + Min(n, Max(0, cursor + 1 - NextId(log))) == |After(log, g, cursor)| + n
  {
    hide After, NextId;
    if n > 0 {
      var less := Spoken(log, g, author, n - 1);
      SpokenAfter(log, g, author, n - 1, cursor);
      SpokenNext(log, g, author, n - 1);
      CountedIffBelow(less, g, cursor, author, RRC, None);
      assert Spoken(log, g, author, n) == less + [Msg(NextId(less), g, author, RRC, None)];
      hide Spoken;
    }
  }

  lemma {:induction false} SpokenStored(log: seq<Msg>, g: Room, author: Identity, n: nat, from: nat)
    requires from <= |log|
    ensures from <= |Spoken(log, g, author, n)| && CountRoom(Spoken(log, g, author, n)[from..], g) == CountRoom(log[from..], g) + n
  {
    if n > 0 {
      var less, more := Spoken(log, g, author, n - 1), Spoken(log, g, author, n);
      SpokenStored(log, g, author, n - 1, from);
      SpokenNext(log, g, author, n - 1);
      hide Spoken, NextId;
      assert more[from..][..|less| - from] == less[from..];
      assert more[from..][|less| - from].room == g;
    }
  }

  /**
   After any deletion during a pause and n more group messages, what the paused
   member would be told falls short of what was stored since by exactly those
   whose ids are not above its cursor: it is right if and only if there is none
   or the cursor is below the first of the new ids.
   */
  lemma ShortAfterDeletion(w: Ledger, cfg: Config, ids: set<nat>, i: Identity, author: Identity, n: nat)
    requires LedgerOk(w, cfg) && PausedMember(w.s, cfg, i)
    ensures var db, since := Erase(w.s, ids).s.db, SinceErased(w, ids);
            && i in since && i in db.lxmf && since[i] <= |db.log| <= |Spoken(db.log, cfg.group, author, n)|
            && var log := Spoken(db.log, cfg.group, author, n);
               var told, stored := |After(log, cfg.group, db.lxmf[i])|, CountRoom(log[since[i]..], cfg.group);
               && told + Min(n, Max(0, db.lxmf[i] + 1 - NextId(db.log))) == stored
               && (told == stored <==> n == 0 || db.lxmf[i] < NextId(db.log))
  {
    var db, since := Erase(w.s, ids).s.db, SinceErased(w, ids);
    DeletePaused(w.s, cfg, ids);
    DeletePoints(w, cfg, ids);
    hide PausedMember, Kept, Unqueued, After, NextId, PausePoint, Spoken, CountRoom, SinceErased;
    PointInside(db.log, cfg.group, since[i], db.lxmf[i]);
    CountsSince(db.log, cfg.group, since[i], db.lxmf[i]);
    SpokenAfter(db.log, cfg.group, author, n, db.lxmf[i]);
    SpokenStored(db.log, cfg.group, author, n, since[i]);
    SpokenNext(db.log, cfg.group, author, n);
  }
}
