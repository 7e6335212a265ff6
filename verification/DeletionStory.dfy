/**
 A run, with any number n of messages in it: a member pauses, the messages
 before its pause are deleted, n more get their ids again, and when it resumes
 it is told nothing, though n were stored in its pause.
 */
module DeletionStory {
  import opened Common
  import opened Presence
  import opened Hub
  import opened PresenceRuns
  import opened Pausing
  import opened PauseStory

  const BOTH_THERE: seq<Step> := [
    Ask(Identify(BOB, P1, 0)), Ask(Identify(ALICE, P2, 0)), Ask(EnterGroup(ALICE, true)), Ask(JoinRoom(BOB, GROUP, true, [BOB], 0))]

  /** The ids 1 to n. */
  function Firsts(n: nat): set<nat> {
    if n == 0 then {} else Firsts(n - 1) + {n}
  }

  /** The pause begins, and all messages so far are deleted. */
  function Emptied(n: nat): seq<Step> {
    BOTH_THERE + Talk(n) + [Ask(ChooseMode(ALICE, Off))] + [Ask(Delete(Firsts(n)))]
  }

  const RESUME := Ask(ChooseMode(ALICE, On))

  // ---- the states on the way ---------------------------------------------------------------------------

  /** Bob is in the group room; Alice is a member of her own. */
  function Hall(mode: Mode, n: nat, lxmf: map<Identity, nat>, queue: set<Delivery>): State {
    State(Db(TWO, map[ALICE := mode], {ALICE}, {ALICE}, map[], map[GROUP := RoomRow(false, 0)], Said(n), map[Seat(GROUP, BOB) := 0], lxmf, queue),
          map[GROUP := map[BOB := 1]])
  }

  function ForAlice(n: nat): set<Delivery> {
    set j | j in Firsts(n) :: Delivery(j, ALICE)
  }

  lemma BobComes()
    ensures Handle(Quiet(TWO, map[ALICE := On]), CFG, JoinRoom(BOB, GROUP, true, [BOB], 0)) == Committed(Hall(On, 0, map[], {}), [Joined(Seat(GROUP, BOB))])
  {
    var s := Quiet(TWO, map[ALICE := On]);
    Apps();
    JoinHandled(s, [BOB]);
    hide Handle;
    NobodyOn(s, BOB);
    var db := JoinDb(s, GROUP, 0);
    var db1 := db.(rrc := SetCursor(db.rrc, Seat(GROUP, BOB), 0));
    var o := PauseEach(db1, GROUP, [BOB], true);
    PauseNotes(db1, GROUP, [BOB], true);
    PauseEachPauses(db1, GROUP, [BOB]);
    assert o.0.lxmf == map[];
    hide PauseEach, PersonOn, ListsApps;
    assert AddLink(s.presence, GROUP, BOB) == map[GROUP := map[BOB := 1]];
    assert Said(0) == [];
  }

  lemma AliceApart(mode: Mode, n: nat, lxmf: map<Identity, nat>, queue: set<Delivery>)
    requires mode != Auto
    ensures PausedMember(Hall(mode, n, lxmf, queue), CFG, ALICE) <==> mode == Off
  {
  }

  /** On, she gets each message; off, she gets none. */
  lemma WhoGetsIt(mode: Mode, n: nat, lxmf: map<Identity, nat>, queue: set<Delivery>)
    requires mode != Auto
    ensures Recipients(Hall(mode, n, lxmf, queue), CFG, BOB, RRC) == if mode == On then {ALICE} else {}
  {
    assert !SamePerson(TWO, ALICE, BOB);
  }

  lemma BobSays(mode: Mode, n: nat, lxmf: map<Identity, nat>, queue: set<Delivery>)
    requires mode != Auto
    ensures var more := if mode == On then queue + {Delivery(n + 1, ALICE)} else queue;
            Handle(Hall(mode, n, lxmf, queue), CFG, Say(BOB, GROUP, RRC, None, true, 0))
            == Committed(Hall(mode, n + 1, lxmf, more), [Stored(Msg(n + 1, GROUP, BOB, RRC, None))])
  {
    var s := Hall(mode, n, lxmf, queue);
    WhoGetsIt(mode, n, lxmf, queue);
    var to := Recipients(s, CFG, BOB, RRC);
    hide Recipients, Paused;
    OneQueued(to, n + 1);
    assert Said(n) + [Msg(n + 1, GROUP, BOB, RRC, None)] == Said(n + 1);
    assert NextId(Said(n)) == n + 1;
  }

  lemma OneQueued(to: set<Identity>, m: nat)
    ensures to == {ALICE} ==> (set i | i in to :: Delivery(m, i)) == {Delivery(m, ALICE)}
    ensures to == {} ==> (set i | i in to :: Delivery(m, i)) == {}
  {
  }

  lemma {:induction false} TalkOn(ts: seq<Step>, n: nat)
    requires Reached(ts, Hall(On, 0, map[], {}))
    ensures Reached(ts + Talk(n), Hall(On, n, map[], ForAlice(n)))
  {
    hide Reached, Handle;
    if n == 0 {
      assert ts + Talk(0) == ts && ForAlice(0) == {};
    } else {
      TalkOn(ts, n - 1);
      BobSays(On, n - 1, map[], ForAlice(n - 1));
      assert ForAlice(n) == ForAlice(n - 1) + {Delivery(n, ALICE)};
      Go(ts + Talk(n - 1), Say(BOB, GROUP, RRC, None, true, 0), Hall(On, n - 1, map[], ForAlice(n - 1)));
      assert ts + Talk(n) == ts + Talk(n - 1) + [Ask(Say(BOB, GROUP, RRC, None, true, 0))];
    }
  }

  lemma {:induction false} TalkOff(ts: seq<Step>, lxmf: map<Identity, nat>, n: nat)
    requires Reached(ts, Hall(Off, 0, lxmf, {}))
    ensures Reached(ts + Talk(n), Hall(Off, n, lxmf, {}))
  {
    hide Reached, Handle;
    if n == 0 {
      assert ts + Talk(0) == ts;
    } else {
      TalkOff(ts, lxmf, n - 1);
      BobSays(Off, n - 1, lxmf, {});
      Go(ts + Talk(n - 1), Say(BOB, GROUP, RRC, None, true, 0), Hall(Off, n - 1, lxmf, {}));
      assert ts + Talk(n) == ts + Talk(n - 1) + [Ask(Say(BOB, GROUP, RRC, None, true, 0))];
    }
  }

  // ---- pause, deletion, resumption -----------------------------------------------------------------------

  lemma LastSaid(n: nat)
    ensures LastIn(Said(n), GROUP) == n
  {
  }

  lemma Pauses(n: nat)
    ensures Handle(Hall(On, n, map[], ForAlice(n)), CFG, ChooseMode(ALICE, Off)) == Committed(Hall(Off, n, map[ALICE := n], ForAlice(n)), [])
  {
    hide LastIn, ForAlice, Said;
    LastSaid(n);
    assert map[ALICE := On][ALICE := Off] == map[ALICE := Off];
    assert map[][ALICE := n] == map[ALICE := n];
  }

  lemma {:induction false} AllErased(n: nat, ids: set<nat>)
    requires Firsts(n) <= ids
    ensures Kept(Said(n), ids) == []
  {
    if n > 0 {
      assert Said(n)[..n - 1] == Said(n - 1);
      assert n in Firsts(n) && forall j :: j in Firsts(n - 1) ==> j in Firsts(n);
      AllErased(n - 1, ids);
    }
  }

  lemma Erases(n: nat)
    ensures Handle(Hall(Off, n, map[ALICE := n], ForAlice(n)), CFG, Delete(Firsts(n))) == Committed(Hall(Off, 0, map[ALICE := n], {}), [])
  {
    AllErased(n, Firsts(n));
    assert Said(0) == [];
    hide Kept, Firsts;
    assert forall d :: d in ForAlice(n) ==> d.message in Firsts(n);
    hide ForAlice;
    NoneLeft(ForAlice(n), Firsts(n));
  }

  lemma NoneLeft(queue: set<Delivery>, ids: set<nat>)
    requires forall d :: d in queue ==> d.message in ids
    ensures (set d | d in queue && d.message !in ids) == {}
  {
  }

  lemma Resumes(n: nat)
    ensures Handle(Hall(Off, n, map[ALICE := n], {}), CFG, ChooseMode(ALICE, On)) == Committed(Hall(On, n, map[ALICE := n], {}), [])
  {
    LastSaid(n);
    NoneAfterIn(Said(n), GROUP, n);
    hide LastIn, After, Said;
    assert map[ALICE := Off][ALICE := On] == map[ALICE := On];
    assert map[ALICE := n][ALICE := n] == map[ALICE := n];
  }

  // ---- the run -------------------------------------------------------------------------------------------

  lemma ThereReached()
    ensures Reached(BOTH_THERE, Hall(On, 0, map[], {}))
  {
    hide Reached, Handle;
    var ts := BOTH_THERE;
    BothKnown(ts[..2]);
    Entered(TWO);
    Go(ts[..2], EnterGroup(ALICE, true), Quiet(TWO, map[]));
    assert ts[..3] == ts[..2] + [ts[2]];
    BobComes();
    Go(ts[..3], JoinRoom(BOB, GROUP, true, [BOB], 0), Quiet(TWO, map[ALICE := On]));
    assert ts == ts[..3] + [ts[3]];
  }

  lemma EmptiedReached(n: nat)
    ensures Reached(Emptied(n), Hall(Off, 0, map[ALICE := n], {}))
  {
    hide Reached, Handle;
    ThereReached();
    TalkOn(BOTH_THERE, n);
    Pauses(n);
    var ts := BOTH_THERE + Talk(n);
    Go(ts, ChooseMode(ALICE, Off), Hall(On, n, map[], ForAlice(n)));
    Erases(n);
    Go(ts + [Ask(ChooseMode(ALICE, Off))], Delete(Firsts(n)), Hall(Off, n, map[ALICE := n], ForAlice(n)));
  }

  /** Paused, and nothing stored. */
  ghost predicate PausedEmpty(w: World) {
    PausedMember(w.s, CFG, ALICE) && w.s.db.log == []
  }

  lemma PausedThen(n: nat)
    ensures PausedEmpty(Run(CFG, Emptied(n)))
  {
    EmptiedReached(n);
    hide Run, Emptied, PausedMember;
    AliceApart(Off, 0, map[ALICE := n], {});
    assert Said(0) == [];
  }

  /**
   For every n: from a pause with an empty log, n messages are stored in it,
   under ids given before, and at its end nothing is said about them.
   */
  lemma DeletionLosesTheNote(n: nat)
    ensures PausedEmpty(Run(CFG, Emptied(n)))
    ensures MissedUntold(Run(CFG, Emptied(n) + Talk(n)), Run(CFG, Emptied(n) + Talk(n) + [RESUME]), n)
  {
    hide Reached, Handle, MissedUntold, PausedEmpty, PausedMember, Emptied, Said;
    PausedThen(n);
    EmptiedReached(n);
    TalkOff(Emptied(n), map[ALICE := n], n);
    var ts := Emptied(n) + Talk(n);
    Resumes(n);
    Go(ts, ChooseMode(ALICE, On), Hall(Off, n, map[ALICE := n], {}));
    AliceApart(Off, n, map[ALICE := n], {});
    AliceApart(On, n, map[ALICE := n], {});
    EndsUntold(ts, Hall(Off, n, map[ALICE := n], {}), ts + [RESUME], Hall(On, n, map[ALICE := n], {}), n);
  }
}
