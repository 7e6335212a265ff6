/** Exactly what someone who joins a room is shown. */
module Replays {
  import opened Common
  import opened Hub
  import opened CatchUps

  /** shown are the newest n messages of the room, or all of them if there are fewer, oldest first. */
  ghost predicate Newest(shown: seq<Msg>, log: seq<Msg>, room: Room, n: nat) {
    && Ascending(shown) && |shown| <= n
    && (forall m :: m in shown ==> m in log && m.room == room)
    && (forall m :: m in log && m.room == room && m !in shown ==> |shown| == n && forall x :: x in shown ==> m.id < x.id)
  }

  /** shown are all messages of the room after the cursor, oldest first. */
  ghost predicate AllSince(shown: seq<Msg>, log: seq<Msg>, room: Room, cursor: nat) {
    Ascending(shown) && forall m :: m in shown <==> m in log && m.room == room && m.id > cursor
  }

  lemma LastNIsNewest(ms: seq<Msg>, n: nat)
    requires Ascending(ms)
    ensures var shown := LastN(ms, n);
            && Ascending(shown) && |shown| <= n && (forall m :: m in shown ==> m in ms)
            && (forall m :: m in ms && m !in shown ==> |shown| == n && forall x :: x in shown ==> m.id < x.id)
  {
    var shown := LastN(ms, n);
    if |ms| > n {
      var cut := |ms| - n;
      forall i | cut <= i < |ms|
        ensures ms[i] in shown
      {
        assert shown[i - cut] == ms[i];
      }
      forall m, x | m in ms && m !in shown && x in shown
        ensures m.id < x.id
      {
        var i :| 0 <= i < |ms| && ms[i] == m;
        var j :| 0 <= j < |shown| && shown[j] == x;
        assert ms[cut + j] == x;
      }
    }
  }

  lemma LatestIsNewest(log: seq<Msg>, room: Room, n: nat, top: nat)
    requires LogOk(log, top)
    ensures Newest(Latest(log, room, n), log, room, n)
  {
    var all := After(log, room, 0);
    AfterAscends(log, room, 0);
    AfterMembers(log, room, 0);
    LastNIsNewest(all, n);
    hide After, LastN, Ascending;
    forall m | m in log
      ensures m.id > 0
    {
      var i :| 0 <= i < |log| && log[i] == m;
    }
  }

  /**
   On a first visit the newest few; afterwards all that was missed, or, if that
   is more than the cap, the newest of the room up to the cap.
   */
  lemma ReplayIs(log: seq<Msg>, room: Room, cursor: Option<nat>, cfg: Config, top: nat, missed: seq<Msg>)
    requires LogOk(log, top) && (cursor.Some? ==> AllSince(missed, log, room, cursor.value))
    ensures var shown := CatchUp(log, room, cursor, cfg);
            && (cursor.None? ==> Newest(shown, log, room, cfg.firstVisit))
            && (cursor.Some? && |missed| > cfg.replayMax ==> Newest(shown, log, room, cfg.replayMax) && |shown| == cfg.replayMax)
            && (cursor.Some? && |missed| <= cfg.replayMax ==> shown == missed)
  {
    LatestIsNewest(log, room, cfg.firstVisit, top);
    LatestIsNewest(log, room, cfg.replayMax, top);
    if cursor.Some? {
      var after := After(log, room, cursor.value);
      AfterAscends(log, room, cursor.value);
      AfterMembers(log, room, cursor.value);
      SameAscending(missed, after);
      AfterIsSuffix(log, room, cursor.value);
      LatestLength(log, room, cfg.replayMax);
    }
    hide After, Latest, Newest;
  }

  lemma LatestLength(log: seq<Msg>, room: Room, n: nat)
    ensures |Latest(log, room, n)| == Min(n, |After(log, room, 0)|)
  {
  }

  lemma SomeIn(a: seq<Msg>)
    ensures a != [] ==> exists m :: m in a
  {
    if a != [] {
      assert a[0] in a;
    }
  }

  lemma NoneOrSome(a: seq<Msg>, b: seq<Msg>)
    requires forall m :: m in a <==> m in b
    ensures a == [] <==> b == []
  {
    SomeIn(a);
    SomeIn(b);
  }

  /** The last of an ascending sequence is the greatest in it. */
  lemma LastGreatest(a: seq<Msg>, m: Msg)
    requires Ascending(a) && m in a
    ensures m.id <= a[|a| - 1].id && (m.id == a[|a| - 1].id ==> m == a[|a| - 1])
  {
    var i :| 0 <= i < |a| && a[i] == m;
  }

  lemma WithoutLast(c: seq<Msg>, x: Msg)
    requires Ascending(c + [x])
    ensures Ascending(c) && forall m :: m in c <==> m in c + [x] && m != x
  {
    var a := c + [x];
    assert a[|c|] == x && forall i :: 0 <= i < |c| ==> a[i] == c[i];
  }

  /** Two ascending sequences of the same messages are the same. */
  lemma {:induction false} SameAscending(a: seq<Msg>, b: seq<Msg>)
    requires Ascending(a) && Ascending(b) && forall m :: m in a <==> m in b
    ensures a == b
    decreases |a|
  {
    NoneOrSome(a, b);
    if a != [] {
      hide Ascending;
      var x, y := a[|a| - 1], b[|b| - 1];
      var c, d := a[..|a| - 1], b[..|b| - 1];
      assert a == c + [x] && b == d + [y];
      assert x in a && y in b;
      assert y in a && x in b;
      LastGreatest(a, y);
      LastGreatest(b, x);
      WithoutLast(c, x);
      WithoutLast(d, y);
      SameAscending(c, d);
    }
  }

  /** There is always such a list, so what was missed is no matter of choice. */
  lemma MissedExists(log: seq<Msg>, room: Room, cursor: nat, top: nat)
    requires LogOk(log, top)
    ensures exists missed: seq<Msg> :: AllSince(missed, log, room, cursor)
  {
    AfterAscends(log, room, cursor);
    AfterMembers(log, room, cursor);
    assert AllSince(After(log, room, cursor), log, room, cursor);
  }
}
