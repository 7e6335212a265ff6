/**
 Pause accounting over whole runs. The accounts stay right in a run if every
 step is admissible when it comes, and a step that is not makes them wrong.
 */
module PauseRuns {
  import opened Common
  import opened Presence
  import opened Hub
  import opened CatchUps
  import opened PresenceRuns
  import opened Pausing
  import opened PauseSteps
  import opened SilentSteps
  import People
  import PeopleLaws
  import TearApart
  import CatchUpRuns
  import BanRuns

  /** What a step does; a process that stops or crashes says nothing. */
  ghost function ResultOf(s: State, cfg: Config, t: Step): Outcome {
    match t
    case Ask(r) => Handle(s, cfg, r)
    case Stopped => Committed(Stop(s), [])
    case Crashed => Committed(Gone(s), [])
  }

  /** A pause begins at the end of the log; deletions take messages from before and after its beginning. */
  ghost function NextLedger(w: Ledger, cfg: Config, t: Step): Ledger {
    var o := ResultOf(w.s, cfg, t);
    if o.Aborted? then w
    else if t.Ask? && t.r.Delete? then Ledger(o.s, SinceErased(w, t.r.messages))
    else Ledger(o.s, SinceNext(w, cfg, o.s))
  }

  /** What a step must do: keep the accounts right, and send exactly the notes due. */
  ghost predicate KeepsAccounts(w: Ledger, cfg: Config, t: Step) {
    var o := ResultOf(w.s, cfg, t);
    o.Committed? ==> LedgerOk(NextLedger(w, cfg, t), cfg) && NotesExact(w, o.s, o.events, cfg)
  }

  // ---- which steps keep the accounts -------------------------------------------------------------

  ghost predicate QuietLink(s: State, cfg: Config, u: People.Result<People.Tables>) {
    u.Ok? ==> QuietRegroup(s, cfg, u.value, None)
  }

  ghost predicate QuietForget(s: State, cfg: Config, id: Identity, others: seq<Identity>, rows: seq<PersonId>, now: int) {
    ListsOthers(s.db.people, id, others, rows) ==> QuietRegroup(s, cfg, Forgotten(s.db.people, id, others, rows, now), Some(id))
  }

  /** Deletions, kicks and bans by hub operators, and everything else members do, need no condition. */
  ghost predicate AdmissibleRequest(s: State, cfg: Config, r: Request) {
    match r
    case LinkApp(id, to, now) => QuietLink(s, cfg, PeopleLaws.HubLinked(s.db.people, id, to, now))
    case UnlinkApp(id, row, now) => row in s.db.people.people || QuietLink(s, cfg, People.Unlinked(s.db.people, id, row, now))
    case ForgetMe(id, others, rows, now) => QuietForget(s, cfg, id, others, rows, now)
    case PutOutOfRoom(id, room) => room != cfg.group || QuietWithout(s, cfg, id)
    case Say(id, room, via, origin, allowed, now) => QuietSay(s, cfg, id, room, via, origin, allowed)
    case _ => true
  }

  /** The condition each step needs, on the state before it. */
  ghost predicate Admissible(s: State, cfg: Config, t: Step) {
    match t
    case Ask(r) => AdmissibleRequest(s, cfg, r)
    case _ => QuietRestart(s, cfg)
  }

  lemma PlainStep(w: Ledger, cfg: Config, t: Step)
    requires !(t.Ask? && t.r.Delete?)
    ensures KeepsAccounts(w, cfg, t) <==> Accounted(w, ResultOf(w.s, cfg, t), cfg)
  {
    hide ResultOf, LedgerOk, NotesExact, SinceNext;
  }

  lemma DeleteStep(w: Ledger, cfg: Config, ids: set<nat>)
    ensures KeepsAccounts(w, cfg, Ask(Delete(ids))) <==> ErasedRight(w, cfg, ids)
  {
    hide Kept, LedgerOk, NotesExact, SinceErased;
  }

  lemma RegroupedIff(w: Ledger, cfg: Config, u: People.Result<People.Tables>)
    requires LedgerOk(w, cfg) && (u.Ok? ==> People.Valid(u.value))
    ensures Accounted(w, Regrouped(w.s, u), cfg) <==> QuietLink(w.s, cfg, u)
  {
    hide LedgerOk, People.Valid, QuietRegroup, NotesExact, SinceNext;
    if u.Ok? {
      RegroupIff(w, cfg, u.value);
    }
  }

  lemma LinkIff(w: Ledger, cfg: Config, r: Request)
    requires LedgerOk(w, cfg) && (r.LinkApp? || r.UnlinkApp?)
    ensures Accounted(w, Handle(w.s, cfg, r), cfg) <==> AdmissibleRequest(w.s, cfg, r)
  {
    assert People.Valid(w.s.db.people);
    BanRuns.PeopleValid(w.s, cfg, r);
    hide LedgerOk, People.Valid, PeopleLaws.HubLinked, People.Unlinked, NotesExact, SinceNext, QuietLink;
    if r.LinkApp? {
      RegroupedIff(w, cfg, PeopleLaws.HubLinked(w.s.db.people, r.id, r.to, r.now));
    } else if r.row !in w.s.db.people.people {
      RegroupedIff(w, cfg, People.Unlinked(w.s.db.people, r.id, r.row, r.now));
    }
  }

  lemma ForgetMeIff(w: Ledger, cfg: Config, r: Request)
    requires LedgerOk(w, cfg) && r.ForgetMe?
    ensures Accounted(w, Handle(w.s, cfg, r), cfg) <==> AdmissibleRequest(w.s, cfg, r)
  {
    assert People.Valid(w.s.db.people);
    hide LedgerOk, People.Valid, NotesExact, SinceNext, ListsOthers, DoForget, QuietRegroup, People.Released, TearApart.UnlinkEach;
    if ListsOthers(w.s.db.people, r.id, r.others, r.rows) {
      OthersFit(w.s.db.people, r.id, r.others, r.rows);
      BanRuns.ForgetValid(w.s.db.people, r.id, r.others, r.rows, r.now);
      ForgetIff(w, cfg, r.id, r.others, r.rows, r.now);
    }
  }

  lemma PutOutAccounted(w: Ledger, cfg: Config, r: Request)
    requires LedgerOk(w, cfg) && r.PutOut?
    ensures Accounted(w, Handle(w.s, cfg, r), cfg)
  {
    hide LedgerOk, NotesExact, SinceNext, ListsOthers, ListsApps, ListsSeats, Remove;
    if ListsApps(w.s.db.people, r.id, r.apps) && ListsSeats(w.s.presence, r.apps, r.seats) && ListsOthers(w.s.db.people, r.id, r.others, r.rows) {
      OthersFit(w.s.db.people, r.id, r.others, r.rows);
      RemoveAccounted(w, cfg, r.id, r.apps, r.others, r.rows, r.seats, r.ban, r.now);
    }
  }

  lemma RequestIff(w: Ledger, cfg: Config, r: Request)
    requires LedgerOk(w, cfg) && !r.Delete?
    ensures Accounted(w, Handle(w.s, cfg, r), cfg) <==> AdmissibleRequest(w.s, cfg, r)
  {
    hide Handle, LedgerOk, Accounted, QuietLink, QuietForget, QuietWithout, QuietSay, RoomRemove, Post;
    if r.LinkApp? || r.UnlinkApp? {
      LinkIff(w, cfg, r);
    } else if r.ForgetMe? {
      ForgetMeIff(w, cfg, r);
    } else if r.PutOutOfRoom? {
      RoomRemoveIff(w, cfg, r.id, r.room);
      RoomRemoveHandled(w.s, cfg, r.id, r.room);
    } else if r.PutOut? {
      PutOutAccounted(w, cfg, r);
    } else if r.Say? {
      SayIff(w, cfg, r.id, r.room, r.via, r.origin, r.allowed, r.now);
      SayHandled(w.s, cfg, r);
    } else {
      RequestAccounted(w, cfg, r);
    }
  }

  lemma SayHandled(s: State, cfg: Config, r: Request)
    requires r.Say?
    ensures Handle(s, cfg, r) == Post(s, cfg, r.id, r.room, r.via, r.origin, r.allowed, r.now)
  {
    hide Post;
  }

  lemma RoomRemoveHandled(s: State, cfg: Config, id: Identity, room: Room)
    ensures Handle(s, cfg, PutOutOfRoom(id, room)) == RoomRemove(s, cfg, id, room)
  {
    hide RoomRemove;
  }

  /**
   For every step there is, from right accounts: they are right afterwards,
   and the notes sent are exactly those due, if and only if the step is admissible.
   */
  lemma AccountedIff(w: Ledger, cfg: Config, t: Step)
    requires LedgerOk(w, cfg)
    ensures KeepsAccounts(w, cfg, t) <==> Admissible(w.s, cfg, t)
  {
    hide LedgerOk, Handle, Accounted, KeepsAccounts, QuietRestart, ErasedRight, SaveCursors;
    if t.Ask? && t.r.Delete? {
      DeleteAccounted(w, cfg, t.r.messages);
      DeleteStep(w, cfg, t.r.messages);
    } else {
      PlainStep(w, cfg, t);
      if t.Ask? {
        hide AdmissibleRequest;
        RequestIff(w, cfg, t.r);
      } else {
        RestartFacts(w.s, cfg, t);
        RestartIff(w, cfg, ResultOf(w.s, cfg, t).s);
      }
    }
  }

  lemma RestartFacts(s: State, cfg: Config, t: Step)
    requires !t.Ask?
    ensures var o := ResultOf(s, cfg, t);
            o == Committed(o.s, []) && o.s.presence == map[] && o.s.db == s.db.(rrc := o.s.db.rrc)
  {
  }

  // ---- whole runs ----------------------------------------------------------------------------------

  ghost function Keep(cfg: Config, ts: seq<Step>): Ledger
    decreases |ts|
  {
    if ts == [] then Ledger(Hub.EMPTY_HUB, map[]) else NextLedger(Keep(cfg, ts[..|ts| - 1]), cfg, ts[|ts| - 1])
  }

  /** The ledger is kept beside the hub's own runs. */
  lemma {:induction false} KeepFollowsRun(cfg: Config, ts: seq<Step>)
    ensures Keep(cfg, ts).s == Run(cfg, ts).s
    decreases |ts|
  {
    if ts != [] {
      KeepFollowsRun(cfg, ts[..|ts| - 1]);
      hide Handle, SaveCursors, SinceErased, SinceNext;
    }
  }

  /** Every step was admissible when it came. */
  ghost predicate AllAdmissible(cfg: Config, ts: seq<Step>)
    decreases |ts|
  {
    ts == [] || (AllAdmissible(cfg, ts[..|ts| - 1]) && Admissible(Keep(cfg, ts[..|ts| - 1]).s, cfg, ts[|ts| - 1]))
  }

  lemma {:induction false} KeepOk(cfg: Config, ts: seq<Step>)
    requires AllAdmissible(cfg, ts)
    ensures LedgerOk(Keep(cfg, ts), cfg)
    decreases |ts|
  {
    if ts == [] {
      BookOpens(cfg);
    } else {
      hide LedgerOk, ResultOf, SinceNext, SinceErased, NotesExact, Admissible;
      KeepOk(cfg, ts[..|ts| - 1]);
      AccountedIff(Keep(cfg, ts[..|ts| - 1]), cfg, ts[|ts| - 1]);
    }
  }

  lemma BookOpens(cfg: Config)
    ensures LedgerOk(Ledger(Hub.EMPTY_HUB, map[]), cfg)
  {
  }

  /**
   In every run of admissible steps, and for whatever admissible step comes
   next: a member is told "n messages missed" exactly when its pause ends, with
   n the number of group messages in the log stored since that pause began
   (nothing is said when n is 0).
   */
  lemma ResumeNotesAreRight(cfg: Config, ts: seq<Step>, t: Step, i: Identity, n: nat)
    requires AllAdmissible(cfg, ts) && Admissible(Keep(cfg, ts).s, cfg, t) && ResultOf(Keep(cfg, ts).s, cfg, t).Committed?
    ensures var w, o := Keep(cfg, ts), ResultOf(Keep(cfg, ts).s, cfg, t);
            Resumed(i, n) in o.events <==>
              && PausedMember(w.s, cfg, i) && i in o.s.db.members && !PausedMember(o.s, cfg, i)
              && i in w.since && w.since[i] <= |w.s.db.log| && n == CountRoom(w.s.db.log[w.since[i]..], cfg.group) && n > 0
  {
    KeepOk(cfg, ts);
    AccountedIff(Keep(cfg, ts), cfg, t);
    hide Keep, ResultOf, LedgerOk, PausedMember, CountRoom, NextLedger, Admissible, AllAdmissible;
  }

  /** While a member is paused the ledger knows since when, and nothing stored since is queued for it. */
  lemma PausedGetNothing(cfg: Config, ts: seq<Step>, i: Identity, j: nat)
    requires AllAdmissible(cfg, ts) && PausedMember(Keep(cfg, ts).s, cfg, i)
    ensures var w := Keep(cfg, ts);
            && i in w.since && w.since[i] <= |w.s.db.log|
            && (w.since[i] <= j < |w.s.db.log| ==> Delivery(w.s.db.log[j].id, i) !in w.s.db.deliveries)
  {
    KeepOk(cfg, ts);
    hide Keep, PausedMember;
  }

  // ---- who gets a message, in every run at all ---------------------------------------------------------

  /** Ids grow along the log, and what is queued is in it. */
  ghost predicate Stocked(db: Db) {
    Ascending(db.log) && QueueStored(db)
  }

  lemma PeopleQueue(s: State, cfg: Config, r: Request)
    requires CatchUpRuns.AboutPeople(r)
    ensures var o := Handle(s, cfg, r); o.Committed? ==> o.s.db.deliveries <= s.db.deliveries
  {
    hide ListsOthers, People.Touched, People.Unlinked, People.Released, PeopleLaws.HubLinked, TearApart.UnlinkEach;
  }

  lemma LinkQueue(s: State, cfg: Config, r: Request)
    requires r.JoinRoom? || r.PartRoom?
    ensures var o := Handle(s, cfg, r); o.Committed? ==> o.s.db.deliveries == s.db.deliveries
  {
    hide ListsApps, PauseEach, PersonOn, LastIn, RoomsLeft, AddLink, DropLink, Present;
    if r.JoinRoom? {
      var db := JoinDb(s, r.room, r.now);
      PauseNotes(db.(rrc := SetCursor(db.rrc, Seat(r.room, r.id), LastIn(db.log, r.room))), cfg.group, r.apps, true);
    } else {
      PauseNotes(s.db.(rrc := SetCursor(s.db.rrc, Seat(r.room, r.id), LastIn(s.db.log, r.room))), cfg.group, r.apps, false);
    }
  }

  /** Only a message adds to the queue. */
  lemma QueueShrinks(s: State, cfg: Config, r: Request)
    requires !r.Say?
    ensures var o := Handle(s, cfg, r); o.Committed? ==> o.s.db.deliveries <= s.db.deliveries
  {
    if CatchUpRuns.AboutPeople(r) {
      PeopleQueue(s, cfg, r);
      hide Handle;
    } else if r.JoinRoom? || r.PartRoom? {
      LinkQueue(s, cfg, r);
      hide Handle;
    } else if r.PutOut? {
      BanRuns.WithoutMembersGone(s.db, r.apps);
      hide ListsApps, ListsSeats, ListsOthers, WithoutMembers, TearApart.TornApart, Banned, ForgetSeats;
    } else {
      hide Present, Forget, Seats, SavedCursor, Kept, Paused, LastIn, After, DoIdentify, DoUnlink, DoForget, Join, Part, Post, Remove, ListsApps, ListsSeats, ListsOthers;
    }
  }

  lemma SayStocks(s: State, cfg: Config, id: Identity, room: Room, via: Via, origin: Option<nat>, allowed: bool, now: int)
    requires Stocked(s.db) && Post(s, cfg, id, room, via, origin, allowed, now).Committed?
    ensures Stocked(Post(s, cfg, id, room, via, origin, allowed, now).s.db)
  {
    var o := Post(s, cfg, id, room, via, origin, allowed, now);
    SayPlain(s, cfg, id, room, via, origin, allowed, now);
    hide Post, Duplicate, PausedMember;
    if !Duplicate(s.db.log, via, origin) {
      assert o.s.db.log[|s.db.log|].id == NextId(s.db.log);
      forall d | d in o.s.db.deliveries
        ensures exists j :: 0 <= j < |o.s.db.log| && o.s.db.log[j].id == d.message
      {
        if d in s.db.deliveries {
          var j :| 0 <= j < |s.db.log| && s.db.log[j].id == d.message;
          assert o.s.db.log[j].id == d.message;
        }
      }
    }
  }

  lemma HandleStocks(s: State, cfg: Config, r: Request)
    requires Stocked(s.db) && Handle(s, cfg, r).Committed?
    ensures Stocked(Handle(s, cfg, r).s.db)
  {
    if r.Say? {
      hide Stocked, Post;
      SayStocks(s, cfg, r.id, r.room, r.via, r.origin, r.allowed, r.now);
    } else if r.Delete? {
      KeptAscends(s.db.log, r.messages);
      KeptQueue(s.db, r.messages);
      hide Kept, QueueStored, Ascending;
    } else {
      CatchUpRuns.LogStays(s, cfg, r);
      QueueShrinks(s, cfg, r);
      hide Handle, Ascending;
    }
  }

  lemma {:induction false} RunStocks(cfg: Config, ts: seq<Step>)
    ensures Stocked(Run(cfg, ts).s.db)
    decreases |ts|
  {
    if ts != [] {
      hide Handle, Stocked, SaveCursors;
      var s, t := Run(cfg, ts[..|ts| - 1]).s, ts[|ts| - 1];
      RunStocks(cfg, ts[..|ts| - 1]);
      if t.Ask? {
        if Handle(s, cfg, t.r).Committed? {
          HandleStocks(s, cfg, t.r);
        }
      } else {
        RestartStocks(s, cfg, t);
      }
    }
  }

  lemma RestartStocks(s: State, cfg: Config, t: Step)
    requires !t.Ask? && Stocked(s.db)
    ensures Stocked(ResultOf(s, cfg, t).s.db)
  {
    RestartFacts(s, cfg, t);
    hide ResultOf, Ascending;
  }

  /** In every run whatever, a group message is queued for exactly the members it is for. */
  lemma RecipientsAreRight(cfg: Config, ts: seq<Step>, id: Identity, via: Via, origin: Option<nat>, allowed: bool, now: int, i: Identity)
    requires !Duplicate(Run(cfg, ts).s.db.log, via, origin)
    requires Post(Run(cfg, ts).s, cfg, id, cfg.group, via, origin, allowed, now).Committed?
    ensures var s := Run(cfg, ts).s;
            Delivery(NextId(s.db.log), i) in Post(s, cfg, id, cfg.group, via, origin, allowed, now).s.db.deliveries <==>
              && i in s.db.members && !PausedMember(s, cfg, i)
              && !(i == id && via == LXMF)
              && (i in s.db.mine || !SamePerson(s.db.people, i, id))
              && i !in s.db.bans
  {
    RunStocks(cfg, ts);
    hide Run, Post, PausedMember;
    QueuedIff(Run(cfg, ts).s, cfg, id, via, origin, allowed, now, i);
  }
}
