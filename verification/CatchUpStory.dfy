/**
 Two runs about one visitor of one room: put out and back, a message is shown
 twice; and with the newest message deleted while away, the next is never shown.
 */
module CatchUpStory {
  import opened Common
  import opened Presence
  import opened Hub
  import opened CatchUps
  import opened PresenceRuns
  import opened CatchUpRuns
  import People

  const BOB := Identity(1)
  const CAROL := Identity(2)
  const ROOM := Room(1)
  const K := Seat(ROOM, BOB)
  const CFG := Config(Room(0), {ROOM}, 10, 50)

  const COME := Ask(JoinRoom(BOB, ROOM, true, [BOB], 0))
  const LEAVE := Ask(PartRoom(BOB, ROOM, [BOB], 0))
  const PUT_OUT := Ask(PutOutOfRoom(BOB, ROOM))
  const ERASE_FIRST := Ask(Delete({1}))

  function Speak(who: Identity): Step {
    Ask(Say(who, ROOM, RRC, None, true, 0))
  }

  const PUT_OUT_AND_BACK: seq<Step> := [COME, Speak(BOB), PUT_OUT, COME]
  const ID_GIVEN_AGAIN: seq<Step> := [COME, Speak(BOB), LEAVE, ERASE_FIRST, Speak(CAROL), COME]

  // ---- the states on the way ------------------------------------------------------------------------

  function First(author: Identity): Msg {
    Msg(1, ROOM, author, RRC, None)
  }

  function Hall(log: seq<Msg>, cursor: nat, there: bool): State {
    State(Db(People.NOBODY, map[], {}, {}, map[], map[ROOM := RoomRow(false, 0)], log, map[K := cursor], map[], {}),
          if there then map[ROOM := map[BOB := 1]] else map[])
  }

  function With(s: State, seen: seq<nat>, rough: set<Seat>, top: nat, reused: bool): Track {
    Track(s, map[K := seen], map[K := 0], {}, rough, top, reused)
  }

  lemma AloneListed(t: People.Tables)
    requires t == People.NOBODY
    ensures ListsApps(t, BOB, [BOB])
  {
  }

  // ---- coming in --------------------------------------------------------------------------------------

  lemma Comes(s: State)
    requires s.db.people == People.NOBODY && s.db.bans == map[] && s.presence == map[]
    ensures var o := Handle(s, CFG, COME.r);
            && o.Committed? && o.s.presence == map[ROOM := map[BOB := 1]]
            && o.s.db == s.db.(rooms := o.s.db.rooms, rrc := SetCursor(s.db.rrc, K, LastIn(s.db.log, ROOM)))
            && o.s.db.rooms == s.db.rooms[ROOM := RoomRow(ROOM in s.db.rooms && s.db.rooms[ROOM].registered, 0)]
  {
    AloneListed(s.db.people);
    hide ListsApps, LastIn, PersonOn, PauseEach;
    assert AddLink(s.presence, ROOM, BOB) == map[ROOM := map[BOB := 1]];
  }

  lemma FirstVisit()
    ensures NextTrack(START, CFG, COME) == With(Hall([], 0, true), [], {}, 0, false)
  {
    Comes(START.s);
    hide Handle;
    var o := Handle(START.s, CFG, COME.r);
    assert o.s == Hall([], 0, true);
    EnterNothing([], SittingOf(START, K));
    hide Enter;
  }

  /** Nothing to show. */
  lemma EnterNothing(log: seq<Msg>, x: Sitting)
    requires CatchUp(log, ROOM, x.cursor, CFG) == [] && !Capped(log, ROOM, x.cursor, CFG) && (x.cursor.None? ==> LastIn(log, ROOM) == 0)
    ensures var y := Enter(log, ROOM, x, CFG);
            y.seen == x.seen && y.base == (if x.cursor.None? then 0 else x.base) && y.capped == x.capped
  {
    hide CatchUp, Capped, LastIn;
    assert Ids([]) == [];
    assert x.seen + [] == x.seen;
  }

  // ---- speaking ---------------------------------------------------------------------------------------

  lemma Speaks(s: State, who: Identity)
    requires s.db.log == [] && s.db.bans == map[] && s.db.rooms == map[ROOM := RoomRow(false, 0)] && s.db.deliveries == {}
    ensures var o := Handle(s, CFG, Speak(who).r);
            o.Committed? && o.s == s.(db := s.db.(log := [First(who)]))
  {
    assert s.db.rooms[ROOM := RoomRow(false, 0)] == s.db.rooms;
    var nobody: set<Identity> := {};
    assert s.db.deliveries + (set i | i in nobody :: Delivery(1, i)) == s.db.deliveries;
    assert [] + [First(who)] == [First(who)];
    hide Recipients;
  }

  lemma BobSpeaks()
    ensures NextTrack(With(Hall([], 0, true), [], {}, 0, false), CFG, Speak(BOB)) == With(Hall([First(BOB)], 0, true), [1], {}, 1, false)
  {
    var w := With(Hall([], 0, true), [], {}, 0, false);
    Speaks(w.s, BOB);
    hide Handle;
    assert Seats(w.s.presence) == {K};
    assert [] + [1] == [1];
    assert Said(w, Hall([First(BOB)], 0, true)).seen == map[K := [1]];
  }

  lemma CarolSpeaks()
    ensures NextTrack(With(Hall([], 1, false), [1], {}, 1, false), CFG, Speak(CAROL)) == With(Hall([First(CAROL)], 1, false), [1], {}, 1, true)
  {
    var w := With(Hall([], 1, false), [1], {}, 1, false);
    Speaks(w.s, CAROL);
    hide Handle;
    assert Seats(w.s.presence) == {};
    assert Said(w, Hall([First(CAROL)], 1, false)).seen == map[K := [1]];
  }

  // ---- put out and back ----------------------------------------------------------------------------------

  lemma GoneFrom(p: Presence.Map)
    requires p == map[ROOM := map[BOB := 1]]
    ensures Forget(p, ROOM, BOB) == map[] && DropLink(p, ROOM, BOB) == map[] && Seats(p) == {K} && Present(p, ROOM, BOB)
  {
    assert map[BOB := 1] - {BOB} == map[];
  }

  lemma PutOutNow()
    ensures NextTrack(With(Hall([First(BOB)], 0, true), [1], {}, 1, false), CFG, PUT_OUT) == With(Hall([First(BOB)], 0, false), [1], {K}, 1, false)
  {
    var w := With(Hall([First(BOB)], 0, true), [1], {}, 1, false);
    GoneFrom(w.s.presence);
    assert Handle(w.s, CFG, PUT_OUT.r) == Committed(Hall([First(BOB)], 0, false), [Parted(K)]) by {
      hide Forget, Present;
    }
    hide Handle;
    assert Seats(map[]) == {};
    hide Seats;
    assert {} + ({K} - {}) == {K};
  }

  lemma BackAgain()
    ensures Seen(NextTrack(With(Hall([First(BOB)], 0, false), [1], {K}, 1, false), CFG, COME), K) == [1, 1]
  {
    var w := With(Hall([First(BOB)], 0, false), [1], {K}, 1, false);
    Comes(w.s);
    hide Handle;
    var log := w.s.db.log;
    assert After(log, ROOM, 0) == [First(BOB)] by {
      assert log[..0] == [];
      assert After([], ROOM, 0) == [];
    }
    assert CatchUp(log, ROOM, Some(0), CFG) == [First(BOB)] by { hide After; }
    assert Ids([First(BOB)]) == [1];
    hide CatchUp, BaseOf, LastIn, Capped;
    assert [1] + [1] == [1, 1];
  }

  // ---- an id given again -------------------------------------------------------------------------------------

  lemma Leaves()
    ensures NextTrack(With(Hall([First(BOB)], 0, true), [1], {}, 1, false), CFG, LEAVE) == With(Hall([First(BOB)], 1, false), [1], {}, 1, false)
  {
    var w := With(Hall([First(BOB)], 0, true), [1], {}, 1, false);
    GoneFrom(w.s.presence);
    AloneListed(w.s.db.people);
    assert Handle(w.s, CFG, LEAVE.r).s == Hall([First(BOB)], 1, false) by {
      hide DropLink, ListsApps, PersonOn, PauseEach;
      assert map[K := 0][K := 1] == map[K := 1];
      assert map[ROOM := RoomRow(false, 0)][ROOM := RoomRow(false, 0)] == map[ROOM := RoomRow(false, 0)];
      assert LastIn([First(BOB)], ROOM) == 1;
    }
    hide Handle;
  }

  lemma Erases()
    ensures NextTrack(With(Hall([First(BOB)], 1, false), [1], {}, 1, false), CFG, ERASE_FIRST) == With(Hall([], 1, false), [1], {}, 1, false)
  {
    var w := With(Hall([First(BOB)], 1, false), [1], {}, 1, false);
    assert w.s.db.log[..0] == [];
    assert Kept(w.s.db.log, {1}) == [] by { assert Kept([], {1}) == []; }
    hide Kept;
  }

  lemma MissesIt()
    ensures var w2 := NextTrack(With(Hall([First(CAROL)], 1, false), [1], {}, 1, true), CFG, COME);
            Seen(w2, K) == [1] && Present(w2.s.presence, ROOM, BOB) && w2.s.db.log == [First(CAROL)]
  {
    var w := With(Hall([First(CAROL)], 1, false), [1], {}, 1, true);
    Comes(w.s);
    hide Handle;
    var log := w.s.db.log;
    assert After(log, ROOM, 1) == [] by {
      assert log[..0] == [];
      assert After([], ROOM, 1) == [];
    }
    assert CatchUp(log, ROOM, Some(1), CFG) == [] && !Capped(log, ROOM, Some(1), CFG) by { hide After; }
    EnterNothing(log, SittingOf(w, K));
    hide CatchUp, BaseOf, LastIn, Capped, Enter;
  }

  // ---- the runs ------------------------------------------------------------------------------------------------

  lemma FollowOne(ts: seq<Step>, t: Step)
    ensures Follow(CFG, ts + [t]) == NextTrack(Follow(CFG, ts), CFG, t)
  {
    assert (ts + [t])[..|ts|] == ts;
    hide NextTrack;
  }

  lemma Begins()
    ensures Follow(CFG, [COME, Speak(BOB)]) == With(Hall([First(BOB)], 0, true), [1], {}, 1, false)
  {
    FollowOne([], COME);
    FollowOne([COME], Speak(BOB));
    assert [] + [COME] == [COME] && [COME] + [Speak(BOB)] == [COME, Speak(BOB)];
    assert Follow(CFG, []) == START;
    hide NextTrack, Follow;
    FirstVisit();
    BobSpeaks();
  }

  /** Someone put out of a room and let in again is shown what they had seen: the ids do not rise. */
  lemma PutOutSeesTwice()
    ensures Seen(Follow(CFG, PUT_OUT_AND_BACK), K) == [1, 1] && !Rising(Seen(Follow(CFG, PUT_OUT_AND_BACK), K))
  {
    hide NextTrack, Follow;
    Begins();
    PutOutNow();
    FollowOne([COME, Speak(BOB)], PUT_OUT);
    assert [COME, Speak(BOB)] + [PUT_OUT] == [COME, Speak(BOB), PUT_OUT];
    FollowOne([COME, Speak(BOB), PUT_OUT], COME);
    assert [COME, Speak(BOB), PUT_OUT] + [COME] == PUT_OUT_AND_BACK;
    BackAgain();
    var seen := Seen(Follow(CFG, PUT_OUT_AND_BACK), K);
    assert !(seen[0] < seen[1]);
  }

  /**
   The newest message is deleted while its reader is away and the next gets its
   id: back in the room, with that message in the log, the reader is shown nothing.
   */
  lemma ReuseSkips()
    ensures var before, after := Follow(CFG, [COME, Speak(BOB), LEAVE]), Follow(CFG, ID_GIVEN_AGAIN);
            && before.s.db.log == [First(BOB)] && !Present(before.s.presence, ROOM, BOB) && Seen(before, K) == [1]
            && after.s.db.log == [First(CAROL)] && Present(after.s.presence, ROOM, BOB) && Seen(after, K) == [1]
  {
    hide NextTrack, Follow;
    Begins();
    Leaves();
    FollowOne([COME, Speak(BOB)], LEAVE);
    assert [COME, Speak(BOB)] + [LEAVE] == [COME, Speak(BOB), LEAVE];
    Erases();
    FollowOne([COME, Speak(BOB), LEAVE], ERASE_FIRST);
    assert [COME, Speak(BOB), LEAVE] + [ERASE_FIRST] == [COME, Speak(BOB), LEAVE, ERASE_FIRST];
    CarolSpeaks();
    FollowOne([COME, Speak(BOB), LEAVE, ERASE_FIRST], Speak(CAROL));
    assert [COME, Speak(BOB), LEAVE, ERASE_FIRST] + [Speak(CAROL)] == [COME, Speak(BOB), LEAVE, ERASE_FIRST, Speak(CAROL)];
    FollowOne([COME, Speak(BOB), LEAVE, ERASE_FIRST, Speak(CAROL)], COME);
    assert [COME, Speak(BOB), LEAVE, ERASE_FIRST, Speak(CAROL)] + [COME] == ID_GIVEN_AGAIN;
    MissesIt();
  }
}
