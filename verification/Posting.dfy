/** What is stored: who may say something where, and that nothing sent twice is stored twice. */
module Posting {
  import opened Common
  import opened Presence
  import opened Hub
  import opened CatchUps
  import opened PresenceRuns
  import opened PauseRuns
  import CatchUpRuns

  /** Two messages: the same one, sent again by the same way in. */
  predicate SameOrigin(a: Msg, b: Msg) {
    a.origin.Some? && a.via == b.via && a.origin == b.origin
  }

  /** Of each way in, each origin id is stored once. */
  ghost predicate OriginsOnce(log: seq<Msg>) {
    forall a, b :: a in log && b in log && SameOrigin(a, b) ==> a == b
  }

  /** The room rules stand behind `allowed`; the rest are the hub's own. */
  lemma PermittedIff(s: State, cfg: Config, id: Identity, room: Room, via: Via, origin: Option<nat>, allowed: bool, now: int)
    ensures Post(s, cfg, id, room, via, origin, allowed, now).Committed? <==>
            && allowed && id !in s.db.bans && room in s.db.rooms
            && (via == RRC || room == cfg.group)
            && (via == LXMF ==> id in s.db.members)
  {
  }

  /**
   From any state, a post the rules allow is stored if and only if it has no
   origin, or nothing stored has that origin and way in; a second one changes
   nothing and is told to nobody.
   */
  lemma StoredIff(s: State, cfg: Config, id: Identity, room: Room, via: Via, origin: Option<nat>, allowed: bool, now: int)
    requires Post(s, cfg, id, room, via, origin, allowed, now).Committed?
    ensures var o, m := Post(s, cfg, id, room, via, origin, allowed, now), Msg(NextId(s.db.log), room, id, via, origin);
            if forall x :: x in s.db.log ==> !SameOrigin(x, m)
            then o.s.db.log == s.db.log + [m] && o.events == [Stored(m)] && s.db.deliveries <= o.s.db.deliveries
            else o == Committed(s, [])
  {
    var m := Msg(NextId(s.db.log), room, id, via, origin);
    if Duplicate(s.db.log, via, origin) {
      var i :| 0 <= i < |s.db.log| && s.db.log[i].via == via && s.db.log[i].origin == origin;
      assert SameOrigin(s.db.log[i], m) && s.db.log[i] in s.db.log;
    } else {
      forall x | x in s.db.log
        ensures !SameOrigin(x, m)
      {
        var i :| 0 <= i < |s.db.log| && s.db.log[i] == x;
      }
    }
    hide Duplicate, Recipients, NextId;
  }

  lemma PostOrigins(s: State, cfg: Config, id: Identity, room: Room, via: Via, origin: Option<nat>, allowed: bool, now: int)
    requires OriginsOnce(s.db.log) && Post(s, cfg, id, room, via, origin, allowed, now).Committed?
    ensures OriginsOnce(Post(s, cfg, id, room, via, origin, allowed, now).s.db.log)
  {
    StoredIff(s, cfg, id, room, via, origin, allowed, now);
    hide Post, NextId;
  }

  lemma HandleOrigins(s: State, cfg: Config, r: Request)
    requires OriginsOnce(s.db.log) && Handle(s, cfg, r).Committed?
    ensures OriginsOnce(Handle(s, cfg, r).s.db.log)
  {
    if r.Say? {
      SayHandled(s, cfg, r);
      hide Handle, Post, OriginsOnce;
      PostOrigins(s, cfg, r.id, r.room, r.via, r.origin, r.allowed, r.now);
    } else if r.Delete? {
      KeptMembers(s.db.log, r.messages);
      hide Kept;
    } else {
      CatchUpRuns.LogStays(s, cfg, r);
      hide Handle, OriginsOnce;
    }
  }

  lemma {:induction false} RunOrigins(cfg: Config, ts: seq<Step>)
    ensures OriginsOnce(Run(cfg, ts).s.db.log)
    decreases |ts|
  {
    if ts != [] {
      hide Handle, OriginsOnce, SaveCursors;
      var s, t := Run(cfg, ts[..|ts| - 1]).s, ts[|ts| - 1];
      RunOrigins(cfg, ts[..|ts| - 1]);
      if t.Ask? {
        if Handle(s, cfg, t.r).Committed? {
          HandleOrigins(s, cfg, t.r);
        }
      } else {
        RestartFacts(s, cfg, t);
      }
    }
  }

  /** In every run no two stored messages have the same origin by the same way in. */
  lemma NothingStoredTwice(cfg: Config, ts: seq<Step>, i: nat, j: nat)
    requires i < j < |Run(cfg, ts).s.db.log| && Run(cfg, ts).s.db.log[i].origin.Some?
    ensures var log := Run(cfg, ts).s.db.log; log[i].via != log[j].via || log[i].origin != log[j].origin
  {
    RunOrigins(cfg, ts);
    RunStocks(cfg, ts);
    hide Run;
    var log := Run(cfg, ts).s.db.log;
    assert log[i] in log && log[j] in log && log[i].id < log[j].id;
    assert !SameOrigin(log[i], log[j]);
  }
}
