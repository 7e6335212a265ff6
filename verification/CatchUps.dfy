/**
 What one identity sees of one room, over all its visits: replays on joining
 and messages said while present, against the plain message log.
 */
module CatchUps {
  import opened Common
  import opened Hub

  /** Ids grow along the log and none is above the greatest ever given. */
  ghost predicate LogOk(log: seq<Msg>, top: nat) {
    && (forall i, j :: 0 <= i < j < |log| ==> log[i].id < log[j].id)
    && (forall i :: 0 <= i < |log| ==> 0 < log[i].id <= top)
  }

  ghost predicate Ascending(ms: seq<Msg>) {
    forall i, j :: 0 <= i < j < |ms| ==> ms[i].id < ms[j].id
  }

  lemma {:induction false} AfterMembers(log: seq<Msg>, room: Room, cursor: nat)
    ensures forall m :: m in After(log, room, cursor) <==> m in log && m.room == room && m.id > cursor
  {
    if log != [] {
      AfterMembers(log[..|log| - 1], room, cursor);
      assert log == log[..|log| - 1] + [log[|log| - 1]];
    }
  }

  lemma {:induction false} AfterAscends(log: seq<Msg>, room: Room, cursor: nat)
    requires Ascending(log)
    ensures Ascending(After(log, room, cursor))
  {
    if log != [] {
      var init, last := log[..|log| - 1], log[|log| - 1];
      AfterAscends(init, room, cursor);
      AfterMembers(init, room, cursor);
      var rest := After(init, room, cursor);
      forall i | 0 <= i < |rest|
        ensures rest[i].id < last.id
      {
        assert rest[i] in init;
      }
    }
  }

  lemma {:induction false} LastInMax(log: seq<Msg>, room: Room)
    requires Ascending(log)
    ensures forall m :: m in log && m.room == room ==> m.id <= LastIn(log, room)
    ensures LastIn(log, room) == 0 || exists m :: m in log && m.room == room && m.id == LastIn(log, room)
  {
    if log != [] {
      var init, last := log[..|log| - 1], log[|log| - 1];
      assert log == init + [last];
      LastInMax(init, room);
      if last.room == room {
        assert last in log;
        forall m | m in log
          ensures m.id <= last.id
        {
          var i :| 0 <= i < |log| && log[i] == m;
        }
      } else if LastIn(init, room) != 0 {
        var m :| m in init && m.room == room && m.id == LastIn(init, room);
        assert m in log;
      }
    }
  }

  /** The last n of an ascending sequence are all from some id on. */
  lemma LastNMembers(ms: seq<Msg>, n: nat)
    requires Ascending(ms)
    ensures Ascending(LastN(ms, n)) && |LastN(ms, n)| <= n
    ensures forall m :: m in LastN(ms, n) ==> m in ms
    ensures LastN(ms, n) != [] ==> forall m :: m in ms && m.id >= LastN(ms, n)[0].id ==> m in LastN(ms, n)
    ensures |ms| <= n ==> LastN(ms, n) == ms
  {
  }

  // ---- one seat -----------------------------------------------------------------------

  /**
   base is the last message before those shown on the first visit; capped says
   that a replay once left some out, rough that a departure was not clean.
   */
  datatype Sitting = Sitting(present: bool, cursor: Option<nat>, seen: seq<nat>, base: nat, capped: bool, rough: bool)

  const NEVER := Sitting(false, None, [], 0, false, false)

  function Ids(ms: seq<Msg>): seq<nat> {
    seq(|ms|, i requires 0 <= i < |ms| => ms[i].id)
  }

  /** Nothing in the log from the first visit on has been missed: all of it while present, else up to the cursor. */
  ghost predicate Gapless(log: seq<Msg>, room: Room, x: Sitting) {
    x.cursor.Some? && !x.capped ==>
      forall m :: m in log && m.room == room && m.id > x.base && (x.present || m.id <= x.cursor.value) ==> m.id in x.seen
  }

  ghost predicate Rising(ids: seq<nat>) {
    forall i, j :: 0 <= i < j < |ids| ==> ids[i] < ids[j]
  }

  /** Without rough departures nothing is seen twice: what a replay could show is later than all that was seen. */
  ghost predicate NoneTwice(log: seq<Msg>, room: Room, x: Sitting) {
    !x.rough ==>
      && Rising(x.seen)
      && (!x.present && x.cursor.Some? ==>
            forall m, y :: m in log && m.room == room && m.id > x.cursor.value && y in x.seen ==> y < m.id)
  }

  ghost predicate Bounds(x: Sitting, top: nat) {
    && (x.present ==> x.cursor.Some?)
    && (x.cursor.None? ==> x.seen == [])
    && (x.cursor.Some? ==> x.base <= x.cursor.value <= top)
    && (forall y :: y in x.seen ==> x.base < y <= top)
  }

  /** Whatever is past the cursor has been seen, by someone in the room or put out of it, or came after all that was seen. */
  ghost predicate PastCursor(log: seq<Msg>, room: Room, x: Sitting) {
    x.cursor.Some? ==>
      forall m :: m in log && m.room == room && m.id > x.cursor.value ==> m.id in x.seen || (!x.present && forall y :: y in x.seen ==> y < m.id)
  }

  ghost predicate SeatOk(log: seq<Msg>, room: Room, x: Sitting, top: nat) {
    Gapless(log, room, x) && NoneTwice(log, room, x) && PastCursor(log, room, x) && Bounds(x, top)
  }

  function Raised(cursor: Option<nat>, at: nat): Option<nat> {
    Some(if cursor.Some? && cursor.value > at then cursor.value else at)
  }

  // ---- leaving, staying, being put out ----------------------------------------------------

  function Leave(log: seq<Msg>, room: Room, x: Sitting): Sitting {
    x.(present := false, cursor := Raised(x.cursor, LastIn(log, room)))
  }

  function Noted(log: seq<Msg>, room: Room, x: Sitting): Sitting {
    if x.present then x.(cursor := Raised(x.cursor, LastIn(log, room))) else x
  }

  function Lost(x: Sitting): Sitting {
    if x.present then x.(present := false, rough := true) else x
  }

  function Hear(x: Sitting, id: nat): Sitting {
    if x.present then x.(seen := x.seen + [id]) else x
  }

  lemma LeaveOk(log: seq<Msg>, room: Room, x: Sitting, top: nat)
    requires SeatOk(log, room, x, top) && LogOk(log, top) && x.present
    ensures SeatOk(log, room, Leave(log, room, x), top)
  {
    LastInMax(log, room);
    hide LastIn;
  }

  lemma NotedOk(log: seq<Msg>, room: Room, x: Sitting, top: nat)
    requires SeatOk(log, room, x, top) && LogOk(log, top)
    ensures SeatOk(log, room, Noted(log, room, x), top)
  {
    LastInMax(log, room);
    hide LastIn;
  }

  lemma LostOk(log: seq<Msg>, room: Room, x: Sitting, top: nat)
    requires SeatOk(log, room, x, top)
    ensures SeatOk(log, room, Lost(x), top)
  {
  }

  // ---- messages -------------------------------------------------------------------------

  /** A new message, with an id above all before; those present in its room hear it. */
  lemma SaidOk(log: seq<Msg>, room: Room, x: Sitting, top: nat, m: Msg)
    requires SeatOk(log, room, x, top) && LogOk(log, top) && m.id > top
    ensures SeatOk(log + [m], room, if m.room == room then Hear(x, m.id) else x, m.id)
  {
    var y := if m.room == room then Hear(x, m.id) else x;
    assert Gapless(log + [m], room, y);
    assert forall i :: 0 <= i < |x.seen| ==> x.seen[i] in x.seen;
    assert NoneTwice(log + [m], room, y);
    assert PastCursor(log + [m], room, y);
  }

  lemma {:induction false} KeptMembers(log: seq<Msg>, ids: set<nat>)
    ensures forall m :: m in Kept(log, ids) <==> m in log && m.id !in ids
  {
    if log != [] {
      KeptMembers(log[..|log| - 1], ids);
      assert log == log[..|log| - 1] + [log[|log| - 1]];
    }
  }

  lemma {:induction false} KeptAscends(log: seq<Msg>, ids: set<nat>)
    requires Ascending(log)
    ensures Ascending(Kept(log, ids))
  {
    if log != [] {
      var init, last := log[..|log| - 1], log[|log| - 1];
      KeptAscends(init, ids);
      KeptMembers(init, ids);
      var rest := Kept(init, ids);
      forall i | 0 <= i < |rest|
        ensures rest[i].id < last.id
      {
        assert rest[i] in init;
      }
    }
  }

  lemma KeptLog(log: seq<Msg>, ids: set<nat>, top: nat)
    requires LogOk(log, top)
    ensures LogOk(Kept(log, ids), top)
  {
    KeptAscends(log, ids);
    KeptMembers(log, ids);
    var out := Kept(log, ids);
    hide Kept;
    forall i | 0 <= i < |out|
      ensures 0 < out[i].id <= top
    {
      assert out[i] in log;
    }
  }

  /** Deleting messages opens no gap and repeats nothing. */
  lemma KeptOk(log: seq<Msg>, ids: set<nat>, room: Room, x: Sitting, top: nat)
    requires SeatOk(log, room, x, top)
    ensures SeatOk(Kept(log, ids), room, x, top)
  {
  }

  // ---- joining --------------------------------------------------------------------------

  function Capped(log: seq<Msg>, room: Room, cursor: Option<nat>, cfg: Config): bool {
    cursor.Some? && |After(log, room, cursor.value)| > cfg.replayMax
  }

  function BaseOf(log: seq<Msg>, room: Room, shown: seq<Msg>): nat {
    if shown == [] || shown[0].id == 0 then LastIn(log, room) else shown[0].id - 1
  }

  /** The first link of an identity enters: it is shown the catch-up, and the cursor moves up. */
  function Enter(log: seq<Msg>, room: Room, x: Sitting, cfg: Config): Sitting {
    var shown := CatchUp(log, room, x.cursor, cfg);
    Sitting(true, Raised(x.cursor, LastIn(log, room)), x.seen + Ids(shown),
            if x.cursor.None? then BaseOf(log, room, shown) else x.base,
            x.capped || Capped(log, room, x.cursor, cfg), x.rough)
  }

  /** What a catch-up shows: messages of the room after the cursor, in order; all of them unless capped. */
  lemma CatchUpShows(log: seq<Msg>, room: Room, cursor: Option<nat>, cfg: Config, top: nat)
    requires LogOk(log, top)
    ensures var shown := CatchUp(log, room, cursor, cfg);
            && Ascending(shown)
            && (forall m :: m in shown ==> m in log && m.room == room && (cursor.Some? ==> m.id > cursor.value))
            && (cursor.Some? && !Capped(log, room, cursor, cfg) ==>
                  forall m :: m in log && m.room == room && m.id > cursor.value ==> m in shown)
            && (cursor.None? ==> forall m :: m in log && m.room == room && m.id > BaseOf(log, room, shown) ==> m in shown)
            && (cursor.None? ==> forall m :: m in shown ==> m.id > BaseOf(log, room, shown))
  {
    LastInMax(log, room);
    AfterAscends(log, room, 0);
    AfterMembers(log, room, 0);
    var all := After(log, room, 0);
    if cursor.None? {
      LastNMembers(all, cfg.firstVisit);
      hide After, LastN, LastIn;
      FirstShown(log, room, LastN(all, cfg.firstVisit), top);
    } else {
      AfterAscends(log, room, cursor.value);
      AfterMembers(log, room, cursor.value);
      LastNMembers(all, cfg.replayMax);
      if Capped(log, room, cursor, cfg) {
        CappedAfter(log, room, cursor.value, cfg, top);
      }
      hide After, LastN, LastIn;
    }
  }

  lemma FirstShown(log: seq<Msg>, room: Room, shown: seq<Msg>, top: nat)
    requires LogOk(log, top) && Ascending(shown)
    requires forall m :: m in log && m.room == room ==> m.id <= LastIn(log, room)
    requires forall m :: m in shown ==> m in log && m.room == room
    requires shown != [] ==> forall m :: m in log && m.room == room && m.id >= shown[0].id ==> m in shown
    ensures forall m :: m in log && m.room == room && m.id > BaseOf(log, room, shown) ==> m in shown
    ensures forall m :: m in shown ==> m.id > BaseOf(log, room, shown)
  {
  }

  /** A capped replay shows only messages after the cursor: there are more of those than it shows. */
  lemma CappedAfter(log: seq<Msg>, room: Room, cursor: nat, cfg: Config, top: nat)
    requires LogOk(log, top) && |After(log, room, cursor)| > cfg.replayMax
    ensures forall m :: m in Latest(log, room, cfg.replayMax) ==> m.id > cursor
  {
    AfterIsSuffix(log, room, cursor);
  }

  predicate Suffix(few: seq<Msg>, all: seq<Msg>) {
    |few| <= |all| && few == all[|all| - |few|..]
  }

  lemma AfterIsSuffix(log: seq<Msg>, room: Room, cursor: nat)
    requires Ascending(log) && forall i :: 0 <= i < |log| ==> log[i].id > 0
    ensures |After(log, room, cursor)| <= |After(log, room, 0)|
    ensures After(log, room, cursor) == After(log, room, 0)[|After(log, room, 0)| - |After(log, room, cursor)|..]
    ensures forall i :: 0 <= i < |After(log, room, cursor)| ==> After(log, room, cursor)[i].id > cursor
  {
    hide After, Ascending;
    SuffixOfAll(log, room, cursor);
    AfterMembers(log, room, cursor);
    assert forall i :: 0 <= i < |After(log, room, cursor)| ==> After(log, room, cursor)[i] in After(log, room, cursor);
  }

  lemma {:induction false} SuffixOfAll(log: seq<Msg>, room: Room, cursor: nat)
    requires Ascending(log) && forall i :: 0 <= i < |log| ==> log[i].id > 0
    ensures Suffix(After(log, room, cursor), After(log, room, 0))
  {
    if log != [] {
      var init, last := log[..|log| - 1], log[|log| - 1];
      SuffixOfAll(init, room, cursor);
      if last.room == room && last.id <= cursor {
        NoneAfter(log, room, cursor);
        hide After;
      } else {
        hide Suffix;
        SuffixMore(After(init, room, 0), After(init, room, cursor), if last.room == room then [last] else []);
      }
    }
  }

  lemma SuffixMore(all: seq<Msg>, few: seq<Msg>, more: seq<Msg>)
    requires Suffix(few, all)
    ensures Suffix(few + more, all + more)
  {
  }

  lemma {:induction false} NoneAfter(log: seq<Msg>, room: Room, cursor: nat)
    requires forall i :: 0 <= i < |log| ==> log[i].id <= cursor
    ensures After(log, room, cursor) == []
  {
    if log != [] {
      NoneAfter(log[..|log| - 1], room, cursor);
    }
  }

  lemma EnterOk(log: seq<Msg>, room: Room, x: Sitting, cfg: Config, top: nat)
    requires SeatOk(log, room, x, top) && LogOk(log, top) && !x.present
    ensures SeatOk(log, room, Enter(log, room, x, cfg), top)
  {
    hide Enter, Gapless, NoneTwice, PastCursor, Bounds;
    EnterPast(log, room, x, cfg);
    EnterGapless(log, room, x, cfg, top);
    EnterRising(log, room, x, cfg, top);
    EnterBounds(log, room, x, cfg, top);
  }

  lemma EnterPast(log: seq<Msg>, room: Room, x: Sitting, cfg: Config)
    requires Ascending(log)
    ensures PastCursor(log, room, Enter(log, room, x, cfg))
  {
    LastInMax(log, room);
    hide LastIn, CatchUp, After, Ids, BaseOf, Capped;
  }

  lemma IdsMembers(ms: seq<Msg>)
    ensures forall m :: m in ms ==> m.id in Ids(ms)
    ensures forall y :: y in Ids(ms) ==> exists m :: m in ms && m.id == y
  {
    forall m | m in ms
      ensures m.id in Ids(ms)
    {
      var i :| 0 <= i < |ms| && ms[i] == m;
      assert Ids(ms)[i] == m.id;
    }
    forall y | y in Ids(ms)
      ensures exists m :: m in ms && m.id == y
    {
      var i :| 0 <= i < |ms| && Ids(ms)[i] == y;
      assert ms[i] in ms;
    }
  }

  lemma EnterGapless(log: seq<Msg>, room: Room, x: Sitting, cfg: Config, top: nat)
    requires SeatOk(log, room, x, top) && LogOk(log, top) && !x.present
    ensures Gapless(log, room, Enter(log, room, x, cfg))
  {
    var shown := CatchUp(log, room, x.cursor, cfg);
    CatchUpShows(log, room, x.cursor, cfg, top);
    IdsMembers(shown);
    hide CatchUp, LastIn, After, Ids, BaseOf, NoneTwice, PastCursor;
    var y := Enter(log, room, x, cfg);
    if !y.capped {
      forall m | m in log && m.room == room && m.id > y.base
        ensures m.id in y.seen
      {
        if x.cursor.Some? && m.id <= x.cursor.value {
          assert m.id in x.seen;
        } else {
          assert m in shown;
        }
      }
    }
  }

  lemma EnterRising(log: seq<Msg>, room: Room, x: Sitting, cfg: Config, top: nat)
    requires SeatOk(log, room, x, top) && LogOk(log, top) && !x.present
    ensures NoneTwice(log, room, Enter(log, room, x, cfg))
  {
    var shown := CatchUp(log, room, x.cursor, cfg);
    CatchUpShows(log, room, x.cursor, cfg, top);
    hide CatchUp, LastIn, After, BaseOf, Gapless, PastCursor;
    if !x.rough {
      forall i, j | 0 <= i < |x.seen| && 0 <= j < |shown|
        ensures x.seen[i] < shown[j].id
      {
        assert shown[j] in shown && x.seen[i] in x.seen;
      }
    }
  }

  lemma BaseBelow(log: seq<Msg>, room: Room, shown: seq<Msg>, top: nat)
    requires LogOk(log, top) && forall m :: m in shown ==> m in log && m.room == room
    ensures BaseOf(log, room, shown) <= LastIn(log, room) <= top
  {
  }

  lemma EnterBounds(log: seq<Msg>, room: Room, x: Sitting, cfg: Config, top: nat)
    requires SeatOk(log, room, x, top) && LogOk(log, top) && !x.present
    ensures Bounds(Enter(log, room, x, cfg), top)
  {
    hide CatchUp, LastIn, After, Ids, BaseOf, Gapless, NoneTwice, PastCursor, Capped, Ascending;
    var shown := CatchUp(log, room, x.cursor, cfg);
    CatchUpShows(log, room, x.cursor, cfg, top);
    BaseBelow(log, room, shown, top);
    ShownBelow(log, shown, top);
  }

  lemma ShownBelow(log: seq<Msg>, shown: seq<Msg>, top: nat)
    requires LogOk(log, top) && forall m :: m in shown ==> m in log
    ensures forall y :: y in Ids(shown) ==> y <= top && exists m :: m in shown && m.id == y
  {
    IdsMembers(shown);
    hide Ids;
    forall m | m in shown
      ensures m.id <= top
    {
      assert m in log;
    }
  }
}
