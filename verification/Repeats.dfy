/** When someone sees a message of a room twice: exactly when a return shows what was seen already. */
module Repeats {
  import opened Presence
  import opened Hub
  import opened CatchUps
  import opened PresenceRuns
  import opened CatchUpRuns

  function ShownTo(w: Track, cfg: Config, k: Seat): seq<Msg> {
    CatchUp(w.s.db.log, k.room, Cursor(w.s.db.rrc, k), cfg)
  }

  /** What a return would show holds something seen already. */
  predicate Again(w: Track, cfg: Config, k: Seat) {
    exists m :: m in ShownTo(w, cfg, k) && m.id in Seen(w, k)
  }

  /** The step is the identity's first link entering the room. */
  ghost predicate Enters(w: Track, cfg: Config, t: Step, k: Seat) {
    t.Ask? && t.r.JoinRoom? && Seat(t.r.room, t.r.id) == k && !Present(w.s.presence, k.room, k.id) && Handle(w.s, cfg, t.r).Committed?
  }

  /** y goes on from x with one new id. */
  ghost predicate OneMore(x: seq<nat>, y: seq<nat>, top: nat) {
    |y| == |x| + 1 && y[..|x|] == x && y[|x|] > top
  }

  // ---- what a step adds to what has been seen ---------------------------------------------------------

  lemma JoinSeen(w: Track, cfg: Config, k: Seat, s2: State, j: Seat)
    ensures Seen(Shown(w, cfg, k, s2), j) ==
            if j == k && !Present(w.s.presence, k.room, k.id) then Seen(w, k) + Ids(ShownTo(w, cfg, k)) else Seen(w, j)
  {
    hide CatchUp, LastIn, BaseOf, Capped, Ids, Present;
  }

  lemma SaidSeen(w: Track, s2: State, k: Seat)
    requires !Said(w, s2).reused
    ensures Seen(Said(w, s2), k) == Seen(w, k) || OneMore(Seen(w, k), Seen(Said(w, s2), k), w.top)
  {
    hide Seats;
  }

  lemma OthersSeen(w: Track, cfg: Config, r: Request, s2: State, k: Seat)
    requires !r.JoinRoom? && !r.Say?
    ensures Seen(Recorded(w, cfg, r, s2), k) == Seen(w, k)
  {
    hide Seats;
  }

  lemma StepSeen(w: Track, cfg: Config, t: Step, k: Seat)
    requires !NextTrack(w, cfg, t).reused
    ensures var x, y := Seen(w, k), Seen(NextTrack(w, cfg, t), k);
            if Enters(w, cfg, t, k) then y == x + Ids(ShownTo(w, cfg, k)) else y == x || OneMore(x, y, w.top)
  {
    hide Handle, Shown, Said, ShownTo, Seen, OneMore, Stop, Gone;
    match t
    case Ask(r) =>
      var o := Handle(w.s, cfg, r);
      if o.Committed? {
        if r.JoinRoom? {
          JoinSeen(w, cfg, Seat(r.room, r.id), o.s, k);
        } else if r.Say? {
          SaidSeen(w, o.s, k);
        } else {
          hide Recorded;
          OthersSeen(w, cfg, r, o.s, k);
        }
      }
    case Stopped => SameSeen(w, NextTrack(w, cfg, t), k);
    case Crashed => SameSeen(w, NextTrack(w, cfg, t), k);
  }

  lemma SameSeen(w: Track, w2: Track, k: Seat)
    requires w2.seen == w.seen
    ensures Seen(w2, k) == Seen(w, k)
  {
  }

  // ---- when that keeps ids rising --------------------------------------------------------------------

  lemma RiseOne(x: seq<nat>, y: seq<nat>, top: nat)
    requires OneMore(x, y, top) && forall v :: v in x ==> v <= top
    ensures Rising(y) <==> Rising(x)
  {
    assert y == x + [y[|x|]];
    if Rising(y) {
      forall i, j | 0 <= i < j < |x|
        ensures x[i] < x[j]
      {
        assert y[i] < y[j];
      }
    }
    assert forall i :: 0 <= i < |x| ==> x[i] in x;
  }

  /** A replay keeps ids rising exactly when it shows nothing seen before. */
  lemma RiseReplay(seen: seq<nat>, shown: seq<Msg>)
    requires Ascending(shown)
    requires forall m :: m in shown ==> m.id in seen || forall y :: y in seen ==> y < m.id
    ensures Rising(seen + Ids(shown)) <==> Rising(seen) && forall m :: m in shown ==> m.id !in seen
  {
    var all := seen + Ids(shown);
    if Rising(all) {
      forall i, j | 0 <= i < j < |seen|
        ensures seen[i] < seen[j]
      {
        assert all[i] < all[j];
      }
      forall i, j | 0 <= i < |seen| && 0 <= j < |shown|
        ensures seen[i] < shown[j].id
      {
        assert all[i] < all[|seen| + j];
      }
    }
    if Rising(seen) && forall m :: m in shown ==> m.id !in seen {
      forall i, j | 0 <= i < |seen| && 0 <= j < |shown|
        ensures seen[i] < shown[j].id
      {
        assert shown[j] in shown && seen[i] in seen;
      }
    }
  }

  /** What a return shows has been seen before or is later than all that was. */
  lemma ShownOrNewer(w: Track, cfg: Config, k: Seat)
    requires TrackOk(w) && !w.reused && !Present(w.s.presence, k.room, k.id)
    ensures Ascending(ShownTo(w, cfg, k))
    ensures forall m :: m in ShownTo(w, cfg, k) ==> m.id in Seen(w, k) || forall y :: y in Seen(w, k) ==> y < m.id
  {
    assert SeatOk(w.s.db.log, k.room, SittingOf(w, k), w.top);
    CatchUpShows(w.s.db.log, k.room, Cursor(w.s.db.rrc, k), cfg, w.top);
    hide CatchUp, Gapless, NoneTwice, SeatsOk, LogOk, BaseOf, Capped, Ascending;
  }

  lemma SeenBelow(w: Track, k: Seat)
    requires TrackOk(w) && !w.reused
    ensures forall v :: v in Seen(w, k) ==> v <= w.top
  {
    assert SeatOk(w.s.db.log, k.room, SittingOf(w, k), w.top);
    hide Gapless, NoneTwice, PastCursor;
  }

  lemma ReusedStays(w: Track, cfg: Config, t: Step)
    requires w.reused
    ensures NextTrack(w, cfg, t).reused
  {
    hide Handle, Seats, Enter, Stop, Gone;
  }

  lemma RiseStep(w: Track, cfg: Config, t: Step, k: Seat)
    requires TrackOk(w) && !NextTrack(w, cfg, t).reused
    ensures Rising(Seen(NextTrack(w, cfg, t), k)) <==> Rising(Seen(w, k)) && !(Enters(w, cfg, t, k) && Again(w, cfg, k))
  {
    if w.reused {
      ReusedStays(w, cfg, t);
    }
    hide TrackOk, NextTrack, Seen, ShownTo, Rising, OneMore, Ids, Ascending, Handle;
    StepSeen(w, cfg, t, k);
    SeenBelow(w, k);
    if Enters(w, cfg, t, k) {
      ShownOrNewer(w, cfg, k);
      RiseReplay(Seen(w, k), ShownTo(w, cfg, k));
    } else if Seen(NextTrack(w, cfg, t), k) != Seen(w, k) {
      RiseOne(Seen(w, k), Seen(NextTrack(w, cfg, t), k), w.top);
    }
  }

  // ---- whole runs -------------------------------------------------------------------------------------

  /** No return of the run showed what had been seen. */
  ghost predicate ReturnsFresh(cfg: Config, ts: seq<Step>, k: Seat)
    decreases |ts|
  {
    || ts == []
    || (ReturnsFresh(cfg, ts[..|ts| - 1], k) &&
        !(Enters(Follow(cfg, ts[..|ts| - 1]), cfg, ts[|ts| - 1], k) && Again(Follow(cfg, ts[..|ts| - 1]), cfg, k)))
  }

  /** In every run in which no id came up twice: a seat sees each message once, in order, if and only if no return showed something again. */
  lemma {:induction false} SeenOnceIff(cfg: Config, ts: seq<Step>, k: Seat)
    requires !Follow(cfg, ts).reused
    ensures Rising(Seen(Follow(cfg, ts), k)) <==> ReturnsFresh(cfg, ts, k)
    decreases |ts|
  {
    if ts != [] {
      var w := Follow(cfg, ts[..|ts| - 1]);
      hide NextTrack, TrackOk, Rising, Seen, Enters, Again;
      if w.reused {
        ReusedStays(w, cfg, ts[|ts| - 1]);
      }
      FollowKeeps(cfg, ts[..|ts| - 1]);
      SeenOnceIff(cfg, ts[..|ts| - 1], k);
      RiseStep(w, cfg, ts[|ts| - 1], k);
    }
  }

  /**
   In every run, someone coming back to a room they were put out of, or left,
   is shown a message on entering (again, if they had seen it) exactly when its
   id is above the stored cursor, unless the replay is capped.
   */
  lemma ShownAgainIffAbove(cfg: Config, ts: seq<Step>, k: Seat, m: Msg)
    requires k in Follow(cfg, ts).s.db.rrc && !Capped(Follow(cfg, ts).s.db.log, k.room, Cursor(Follow(cfg, ts).s.db.rrc, k), cfg)
    requires m in Follow(cfg, ts).s.db.log && m.room == k.room
    ensures m in ShownTo(Follow(cfg, ts), cfg, k) <==> m.id > Follow(cfg, ts).s.db.rrc[k]
  {
    FollowKeeps(cfg, ts);
    hide Follow, SeatsOk, Tidy;
    var w := Follow(cfg, ts);
    CatchUpShows(w.s.db.log, k.room, Cursor(w.s.db.rrc, k), cfg, w.top);
    hide CatchUp, Capped, LogOk, Ascending, BaseOf;
  }

  /** So a return repeats something exactly when something seen is still in the log above the stored cursor. */
  lemma AgainIffAbove(cfg: Config, ts: seq<Step>, k: Seat)
    requires k in Follow(cfg, ts).s.db.rrc && !Capped(Follow(cfg, ts).s.db.log, k.room, Cursor(Follow(cfg, ts).s.db.rrc, k), cfg)
    ensures var w := Follow(cfg, ts);
            Again(w, cfg, k) <==> exists m :: m in w.s.db.log && m.room == k.room && m.id > w.s.db.rrc[k] && m.id in Seen(w, k)
  {
    FollowKeeps(cfg, ts);
    hide Follow, SeatsOk, Tidy, Seen;
    var w := Follow(cfg, ts);
    CatchUpShows(w.s.db.log, k.room, Cursor(w.s.db.rrc, k), cfg, w.top);
    hide CatchUp, Capped, LogOk, Ascending, BaseOf;
    if exists m :: m in w.s.db.log && m.room == k.room && m.id > w.s.db.rrc[k] && m.id in Seen(w, k) {
      var m :| m in w.s.db.log && m.room == k.room && m.id > w.s.db.rrc[k] && m.id in Seen(w, k);
      assert m in ShownTo(w, cfg, k);
    }
  }
}
