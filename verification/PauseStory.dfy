/**
 Runs, each with any number of messages in it, after which a member of the
 group has been paused, missed them all and is told nothing: its app is linked
 to someone who is in the group room; or the person's other app is put out of
 the group room by an operator, or sends /forget; or the process stops.
 */
module PauseStory {
  import opened Common
  import opened Presence
  import opened Hub
  import opened PresenceRuns
  import opened Pausing
  import opened SilentSteps
  import opened PauseRuns
  import People
  import PeopleLaws
  import TearApart

  const ALICE := Identity(1)
  const BOB := Identity(2)
  const P1 := PersonId(1)
  const P2 := PersonId(2)
  const GROUP := Room(1)
  const CFG := Config(GROUP, {GROUP}, 10, 50)

  const LINKED_WHILE_ON: seq<Step> := [
    Ask(Identify(BOB, P1, 0)), Ask(Identify(ALICE, P2, 0)), Ask(EnterGroup(ALICE, true)), Ask(ChooseMode(ALICE, Auto)),
    Ask(JoinRoom(BOB, GROUP, true, [BOB], 0)), Ask(LinkApp(ALICE, P1, 0))]

  const PAUSED_PROPERLY: seq<Step> := [
    Ask(Identify(BOB, P1, 0)), Ask(Identify(ALICE, P2, 0)), Ask(LinkApp(ALICE, P1, 0)), Ask(EnterGroup(ALICE, true)),
    Ask(ChooseMode(ALICE, Auto)), Ask(JoinRoom(BOB, GROUP, true, [ALICE, BOB], 0))]

  function Talk(n: nat): seq<Step> {
    seq(n, _ => Ask(Say(BOB, GROUP, RRC, None, true, 0)))
  }

  // ---- the states on the way ---------------------------------------------------------------------------

  const PLAIN := People.Person(People.Member, People.DEFAULT_PREFS)
  const HOME1 := People.Home(P1, 0)
  const HOME2 := People.Home(P2, 0)
  const ONE := People.NOBODY.(identities := map[BOB := HOME1], people := map[P1 := PLAIN])
  const TWO := People.NOBODY.(identities := map[BOB := HOME1, ALICE := HOME2], people := map[P1 := PLAIN, P2 := PLAIN])
  const TOGETHER := People.NOBODY.(identities := map[BOB := HOME1, ALICE := HOME1], people := map[P1 := PLAIN])

  /** Nobody is in a room and nothing has been said. */
  function Quiet(t: People.Tables, modes: map<Identity, Mode>): State {
    State(Db(t, modes, modes.Keys, modes.Keys, map[], map[], [], map[], map[], {}), map[])
  }

  function Said(n: nat): seq<Msg> {
    seq(n, j requires 0 <= j < n => Msg(j + 1, GROUP, BOB, RRC, None))
  }

  /** Bob is in the group room and has said n things. */
  function Talking(t: People.Tables, lxmf: map<Identity, nat>, n: nat): State {
    State(Db(t, map[ALICE := Auto], {ALICE}, {ALICE}, map[], map[GROUP := RoomRow(false, 0)], Said(n), map[Seat(GROUP, BOB) := 0], lxmf, {}),
          map[GROUP := map[BOB := 1]])
  }

  // ---- steps --------------------------------------------------------------------------------------------

  lemma Identified()
    ensures Handle(Hub.EMPTY_HUB, CFG, Identify(BOB, P1, 0)) == Committed(Quiet(ONE, map[]), [])
    ensures Handle(Quiet(ONE, map[]), CFG, Identify(ALICE, P2, 0)) == Committed(Quiet(TWO, map[]), [])
  {
    assert map[][P1 := PLAIN] == ONE.people && map[][BOB := HOME1] == ONE.identities;
    assert ONE.people[P2 := PLAIN] == TWO.people && ONE.identities[ALICE := HOME2] == TWO.identities;
  }

  lemma Entered(t: People.Tables)
    ensures Handle(Quiet(t, map[]), CFG, EnterGroup(ALICE, true)) == Committed(Quiet(t, map[ALICE := On]), [])
  {
    var none: set<Identity> := {};
    assert none + {ALICE} == map[ALICE := On].Keys;
    assert map[][ALICE := On] == map[ALICE := On];
  }

  lemma NobodyOn(s: State, i: Identity)
    requires s.presence == map[]
    ensures !PersonOn(s, i, GROUP, None)
  {
  }

  lemma Chosen(t: People.Tables)
    ensures Handle(Quiet(t, map[ALICE := On]), CFG, ChooseMode(ALICE, Auto)) == Committed(Quiet(t, map[ALICE := Auto]), [])
  {
    NobodyOn(Quiet(t, map[ALICE := On]), ALICE);
    hide PersonOn;
    assert map[ALICE := On][ALICE := Auto] == map[ALICE := Auto];
  }

  lemma Together()
    ensures PeopleLaws.HubLinked(TWO, ALICE, P1, 0) == People.Ok(TOGETHER)
  {
    assert People.Alone(TWO, ALICE);
    assert PeopleLaws.HubLinked(TWO, ALICE, P1, 0) == People.Ok(People.Merged(People.Moved(TWO, ALICE, P1, 0), P2, P1)) by {
      hide People.Merged, People.Moved, People.Alone;
    }
    hide People.Alone, PeopleLaws.HubLinked;
    Merging();
  }

  lemma Merging()
    ensures People.Merged(People.Moved(TWO, ALICE, P1, 0), P2, P1) == TOGETHER
  {
    var m := People.Moved(TWO, ALICE, P1, 0);
    assert People.MergedIgnores(map[], P2, P1) == map[];
    assert People.MergedWhispers(map[], P2, P1) == map[];
    assert People.OthersCodes(map[], P2) == map[];
    assert m.identities == TOGETHER.identities && m.people - {P2} == TOGETHER.people;
    hide People.MergedIgnores, People.MergedWhispers, People.OthersCodes;
  }

  lemma LinkedApp(s: State)
    requires s.db.people == TWO
    ensures Handle(s, CFG, LinkApp(ALICE, P1, 0)) == Committed(Regroup(s, TOGETHER), [])
  {
    Together();
    hide PeopleLaws.HubLinked;
  }

  lemma Apps()
    ensures Fellows(TWO, BOB) == {BOB}
    ensures Fellows(TOGETHER, BOB) == {ALICE, BOB} && Fellows(TOGETHER, ALICE) == {ALICE, BOB}
  {
  }

  lemma BobJoins(t: People.Tables, apps: seq<Identity>, lxmf: map<Identity, nat>)
    requires NoRepeats(apps) && ListsApps(t, BOB, apps)
    requires lxmf == if ALICE in apps then map[ALICE := 0] else map[]
    ensures Join(Quiet(t, map[ALICE := Auto]), CFG, BOB, GROUP, true, apps, 0)
            == Committed(Talking(t, lxmf, 0), [Joined(Seat(GROUP, BOB))])
  {
    var s := Quiet(t, map[ALICE := Auto]);
    NobodyOn(s, BOB);
    var db := JoinDb(s, GROUP, 0);
    var db1 := db.(rrc := SetCursor(db.rrc, Seat(GROUP, BOB), 0));
    var o := PauseEach(db1, GROUP, apps, true);
    PauseNotes(db1, GROUP, apps, true);
    PauseEachPauses(db1, GROUP, apps);
    assert o.0.lxmf == lxmf;
    hide PauseEach, PersonOn, ListsApps;
    assert AddLink(s.presence, GROUP, BOB) == map[GROUP := map[BOB := 1]];
    assert Said(0) == [];
  }

  lemma JoinHandled(s: State, apps: seq<Identity>)
    requires ListsApps(s.db.people, BOB, apps)
    ensures Handle(s, CFG, JoinRoom(BOB, GROUP, true, apps, 0)) == Join(s, CFG, BOB, GROUP, true, apps, 0)
  {
    hide Join, ListsApps;
  }

  // ---- while Bob talks ---------------------------------------------------------------------------------

  lemma AliceIsPaused(lxmf: map<Identity, nat>, n: nat)
    ensures PausedMember(Talking(TOGETHER, lxmf, n), CFG, ALICE)
  {
    Apps();
    hide Fellows;
    assert Present(Talking(TOGETHER, lxmf, n).presence, GROUP, BOB);
  }

  lemma NobodyQueued(to: set<Identity>, m: nat)
    requires to == {}
    ensures (set i | i in to :: Delivery(m, i)) == {}
  {
  }

  lemma BobTalks(lxmf: map<Identity, nat>, n: nat)
    ensures var m := Msg(n + 1, GROUP, BOB, RRC, None);
            Handle(Talking(TOGETHER, lxmf, n), CFG, Say(BOB, GROUP, RRC, None, true, 0)) == Committed(Talking(TOGETHER, lxmf, n + 1), [Stored(m)])
  {
    var s := Talking(TOGETHER, lxmf, n);
    AliceIsPaused(lxmf, n);
    assert Recipients(s, CFG, BOB, RRC) == {};
    NobodyQueued(Recipients(s, CFG, BOB, RRC), n + 1);
    assert Said(n) + [Msg(n + 1, GROUP, BOB, RRC, None)] == Said(n + 1);
    assert NextId(Said(n)) == n + 1;
    hide Recipients, Paused, PausedMember;
  }

  // ---- runs ---------------------------------------------------------------------------------------------

  /** The run is in state s and has told nobody that they resume. */
  ghost predicate Reached(ts: seq<Step>, s: State) {
    Run(CFG, ts).s == s && NoteFree(Run(CFG, ts).heard)
  }

  lemma Go(ts: seq<Step>, r: Request, s: State)
    requires Reached(ts, s) && Handle(s, CFG, r).Committed? && NoteFree(Handle(s, CFG, r).events)
    ensures Reached(ts + [Ask(r)], Handle(s, CFG, r).s)
  {
    assert (ts + [Ask(r)])[..|ts|] == ts;
    hide Handle;
  }

  lemma Begin()
    ensures Reached([], Hub.EMPTY_HUB)
  {
  }

  lemma BothKnown(ts: seq<Step>)
    requires ts == [Ask(Identify(BOB, P1, 0)), Ask(Identify(ALICE, P2, 0))]
    ensures Reached(ts, Quiet(TWO, map[]))
  {
    hide Reached, Handle;
    Begin();
    Identified();
    Go([], Identify(BOB, P1, 0), Hub.EMPTY_HUB);
    assert [] + [Ask(Identify(BOB, P1, 0))] == [Ask(Identify(BOB, P1, 0))];
    Go([Ask(Identify(BOB, P1, 0))], Identify(ALICE, P2, 0), Quiet(ONE, map[]));
    assert ts == [Ask(Identify(BOB, P1, 0))] + [Ask(Identify(ALICE, P2, 0))];
  }

  lemma OnAutoNow(ts: seq<Step>, t: People.Tables, ts2: seq<Step>)
    requires Reached(ts, Quiet(t, map[])) && ts2 == ts + [Ask(EnterGroup(ALICE, true)), Ask(ChooseMode(ALICE, Auto))]
    ensures Reached(ts2, Quiet(t, map[ALICE := Auto]))
  {
    hide Reached, Handle;
    Entered(t);
    Go(ts, EnterGroup(ALICE, true), Quiet(t, map[]));
    Chosen(t);
    Go(ts + [Ask(EnterGroup(ALICE, true))], ChooseMode(ALICE, Auto), Quiet(t, map[ALICE := On]));
    assert ts2 == ts + [Ask(EnterGroup(ALICE, true))] + [Ask(ChooseMode(ALICE, Auto))];
  }

  lemma LinkedReached()
    ensures Reached(LINKED_WHILE_ON, Talking(TOGETHER, map[], 0))
  {
    hide Reached, Handle, Join;
    var ts := LINKED_WHILE_ON;
    BothKnown(ts[..2]);
    assert ts[..4] == ts[..2] + [ts[2], ts[3]];
    OnAutoNow(ts[..2], TWO, ts[..4]);
    Apps();
    BobJoins(TWO, [BOB], map[]);
    JoinHandled(Quiet(TWO, map[ALICE := Auto]), [BOB]);
    Go(ts[..4], JoinRoom(BOB, GROUP, true, [BOB], 0), Quiet(TWO, map[ALICE := Auto]));
    assert ts[..5] == ts[..4] + [ts[4]];
    LinkedApp(Talking(TWO, map[], 0));
    Go(ts[..5], LinkApp(ALICE, P1, 0), Talking(TWO, map[], 0));
    assert ts == ts[..5] + [ts[5]];
  }

  lemma PausedReached()
    ensures Reached(PAUSED_PROPERLY, Talking(TOGETHER, map[ALICE := 0], 0))
  {
    hide Reached, Handle, Join;
    var ts := PAUSED_PROPERLY;
    BothKnown(ts[..2]);
    LinkedApp(Quiet(TWO, map[]));
    Go(ts[..2], LinkApp(ALICE, P1, 0), Quiet(TWO, map[]));
    assert ts[..3] == ts[..2] + [ts[2]];
    assert ts[..5] == ts[..3] + [ts[3], ts[4]];
    OnAutoNow(ts[..3], TOGETHER, ts[..5]);
    Apps();
    BobJoins(TOGETHER, [ALICE, BOB], map[ALICE := 0]);
    JoinHandled(Quiet(TOGETHER, map[ALICE := Auto]), [ALICE, BOB]);
    Go(ts[..5], JoinRoom(BOB, GROUP, true, [ALICE, BOB], 0), Quiet(TOGETHER, map[ALICE := Auto]));
    assert ts == ts[..5] + [ts[5]];
  }

  lemma {:induction false} TalkReached(ts: seq<Step>, lxmf: map<Identity, nat>, n: nat)
    requires Reached(ts, Talking(TOGETHER, lxmf, 0))
    ensures Reached(ts + Talk(n), Talking(TOGETHER, lxmf, n))
  {
    hide Reached, Handle;
    if n == 0 {
      assert ts + Talk(0) == ts;
    } else {
      TalkReached(ts, lxmf, n - 1);
      BobTalks(lxmf, n - 1);
      Go(ts + Talk(n - 1), Say(BOB, GROUP, RRC, None, true, 0), Talking(TOGETHER, lxmf, n - 1));
      assert ts + Talk(n) == ts + Talk(n - 1) + [Ask(Say(BOB, GROUP, RRC, None, true, 0))];
    }
  }

  // ---- the ends -------------------------------------------------------------------------------------------

  /** Alice was paused, is a member still and paused no longer; n group messages were stored, none for her, and she is told nothing. */
  ghost predicate MissedUntold(before: World, after: World, n: nat) {
    && PausedMember(before.s, CFG, ALICE) && !PausedMember(after.s, CFG, ALICE) && ALICE in after.s.db.members
    && |after.s.db.log| == n && CountRoom(after.s.db.log, GROUP) == n
    && after.s.db.deliveries == {} && NoteFree(after.heard)
  }

  lemma {:induction false} SaidCount(n: nat)
    ensures CountRoom(Said(n), GROUP) == n
  {
    if n > 0 {
      assert Said(n)[..n - 1] == Said(n - 1);
      SaidCount(n - 1);
    }
  }

  lemma EndsUntold(ts: seq<Step>, s: State, ts2: seq<Step>, s2: State, n: nat)
    requires Reached(ts, s) && PausedMember(s, CFG, ALICE)
    requires Reached(ts2, s2) && !PausedMember(s2, CFG, ALICE) && ALICE in s2.db.members
    requires s2.db.log == Said(n) && s2.db.deliveries == {}
    ensures MissedUntold(Run(CFG, ts), Run(CFG, ts2), n)
  {
    hide Run, PausedMember, CountRoom;
    SaidCount(n);
  }

  /** With nobody in any room an auto member is not paused. */
  lemma AliceIsFree(s: State)
    requires s.presence == map[] && s.db.modes == map[ALICE := Auto]
    ensures !PausedMember(s, CFG, ALICE)
  {
    NobodyOn(s, ALICE);
    hide PersonOn;
  }

  /** Without a cursor there is nothing to count from. */
  lemma {:induction false} NothingToTell(db: Db, apps: seq<Identity>)
    requires db.lxmf == map[]
    ensures PauseEach(db, GROUP, apps, false).1 == []
    decreases |apps|
  {
    if apps != [] {
      NothingToTell(db, apps[1..]);
    }
  }

  lemma BobLeaves(n: nat)
    ensures var o := Part(Talking(TOGETHER, map[], n), CFG, BOB, GROUP, [ALICE, BOB], 0);
            && o == Committed(State(o.s.db, map[]), [Parted(Seat(GROUP, BOB))])
            && o.s.db.members == {ALICE} && o.s.db.modes == map[ALICE := Auto] && o.s.db.log == Said(n) && o.s.db.deliveries == {}
  {
    var s := Talking(TOGETHER, map[], n);
    var db1 := s.db.(rrc := SetCursor(s.db.rrc, Seat(GROUP, BOB), LastIn(s.db.log, GROUP)));
    PauseNotes(db1, GROUP, [ALICE, BOB], false);
    NothingToTell(db1, [ALICE, BOB]);
    hide LastIn, After, RoomsLeft, PersonOn, PauseEach;
    assert map[BOB := 1] - {BOB} == map[];
    assert DropLink(s.presence, GROUP, BOB) == map[];
  }

  lemma PartHandled(s: State, apps: seq<Identity>)
    requires ListsApps(s.db.people, BOB, apps)
    ensures Handle(s, CFG, PartRoom(BOB, GROUP, apps, 0)) == Part(s, CFG, BOB, GROUP, apps, 0)
  {
    hide Part, ListsApps;
  }

  /** For every n: linked while the person is on RRC, n messages, the person leaves. */
  lemma LinkingLosesTheNote(n: nat)
    ensures MissedUntold(Run(CFG, LINKED_WHILE_ON + Talk(n)),
                         Run(CFG, LINKED_WHILE_ON + Talk(n) + [Ask(PartRoom(BOB, GROUP, [ALICE, BOB], 0))]), n)
  {
    hide Reached, Handle, Part, MissedUntold, PausedMember;
    var s := Talking(TOGETHER, map[], n);
    LinkedReached();
    TalkReached(LINKED_WHILE_ON, map[], n);
    Apps();
    BobLeaves(n);
    PartHandled(s, [ALICE, BOB]);
    var r := PartRoom(BOB, GROUP, [ALICE, BOB], 0);
    Go(LINKED_WHILE_ON + Talk(n), r, s);
    AliceIsPaused(map[], n);
    AliceIsFree(Handle(s, CFG, r).s);
    EndsUntold(LINKED_WHILE_ON + Talk(n), s, LINKED_WHILE_ON + Talk(n) + [Ask(r)], Handle(s, CFG, r).s, n);
  }

  lemma BobPutOut(n: nat)
    ensures var o := Handle(Talking(TOGETHER, map[ALICE := 0], n), CFG, PutOutOfRoom(BOB, GROUP));
            && o == Committed(State(o.s.db, map[]), [Parted(Seat(GROUP, BOB))])
            && o.s.db.members == {ALICE} && o.s.db.modes == map[ALICE := Auto] && o.s.db.log == Said(n) && o.s.db.deliveries == {}
  {
    var s := Talking(TOGETHER, map[ALICE := 0], n);
    RoomRemoveHandled(s, CFG, BOB, GROUP);
    hide Handle;
    assert map[BOB := 1] - {BOB} == map[];
    assert Forget(s.presence, GROUP, BOB) == map[];
    assert s.db.members - {BOB} == {ALICE};
  }

  /** For every n: paused as it should be, n messages, the other app is put out of the group room. */
  lemma RemovalLosesTheNote(n: nat)
    ensures MissedUntold(Run(CFG, PAUSED_PROPERLY + Talk(n)),
                         Run(CFG, PAUSED_PROPERLY + Talk(n) + [Ask(PutOutOfRoom(BOB, GROUP))]), n)
  {
    hide Reached, Handle, MissedUntold, PausedMember;
    var s := Talking(TOGETHER, map[ALICE := 0], n);
    PausedReached();
    TalkReached(PAUSED_PROPERLY, map[ALICE := 0], n);
    BobPutOut(n);
    var r := PutOutOfRoom(BOB, GROUP);
    Go(PAUSED_PROPERLY + Talk(n), r, s);
    AliceIsPaused(map[ALICE := 0], n);
    AliceIsFree(Handle(s, CFG, r).s);
    EndsUntold(PAUSED_PROPERLY + Talk(n), s, PAUSED_PROPERLY + Talk(n) + [Ask(r)], Handle(s, CFG, r).s, n);
  }

  // ---- the process ends --------------------------------------------------------------------------------

  lemma GoOut(ts: seq<Step>, t: Step, s: State)
    requires Reached(ts, s) && !t.Ask?
    ensures Reached(ts + [t], ResultOf(s, CFG, t).s)
  {
    assert (ts + [t])[..|ts|] == ts;
    hide SaveCursors;
  }

  /** For every n: paused as it should be, n messages, the process stops or crashes. */
  lemma RestartLosesTheNote(n: nat, t: Step)
    requires !t.Ask?
    ensures MissedUntold(Run(CFG, PAUSED_PROPERLY + Talk(n)), Run(CFG, PAUSED_PROPERLY + Talk(n) + [t]), n)
  {
    hide Reached, MissedUntold, PausedMember, ResultOf;
    var s := Talking(TOGETHER, map[ALICE := 0], n);
    PausedReached();
    TalkReached(PAUSED_PROPERLY, map[ALICE := 0], n);
    GoOut(PAUSED_PROPERLY + Talk(n), t, s);
    RestartFacts(s, CFG, t);
    AliceIsPaused(map[ALICE := 0], n);
    AliceIsFree(ResultOf(s, CFG, t).s);
    EndsUntold(PAUSED_PROPERLY + Talk(n), s, PAUSED_PROPERLY + Talk(n) + [t], ResultOf(s, CFG, t).s, n);
  }

  // ---- /forget -------------------------------------------------------------------------------------------

  const P3 := PersonId(3)
  const APART := People.NOBODY.(identities := map[BOB := HOME1, ALICE := People.Home(P3, 0)], people := map[P1 := PLAIN, P3 := PLAIN])
  const FORGET := ForgetMe(BOB, [ALICE], [P3], 0)

  lemma Unlinking()
    ensures People.Unlinked(TOGETHER, ALICE, P3, 0) == People.Ok(APART)
  {
    assert !People.Alone(TOGETHER, ALICE) by { assert BOB in TOGETHER.identities; }
    assert TOGETHER.people[P3 := PLAIN] == APART.people;
    assert TOGETHER.identities[ALICE := People.Home(P3, 0)] == APART.identities;
    hide People.Alone;
  }

  lemma Forgetting()
    ensures Forgotten(TOGETHER, BOB, [ALICE], [P3], 0) == APART
  {
    Unlinking();
    hide People.Unlinked;
    assert [ALICE][1..] == [] && [P3][1..] == [];
    assert TearApart.UnlinkEach(APART, [], [], 0) == APART;
    assert TearApart.UnlinkEach(TOGETHER, [ALICE], [P3], 0) == APART;
    assert People.Released(APART, BOB) == APART;
  }

  lemma OnlyAlice()
    ensures ListsOthers(TOGETHER, BOB, [ALICE], [P3])
  {
  }

  lemma BobForgets(s: State)
    requires s.db.people == TOGETHER && s.db.members == {ALICE}
    ensures Handle(s, CFG, FORGET) == Committed(Regroup(s, APART), [])
  {
    OnlyAlice();
    Forgetting();
    hide ListsOthers, TearApart.UnlinkEach, People.Released;
  }

  lemma AliceIsApart(s: State)
    requires s.db.people == APART && s.presence == map[GROUP := map[BOB := 1]] && s.db.modes == map[ALICE := Auto]
    ensures !PausedMember(s, CFG, ALICE)
  {
    assert Fellows(APART, ALICE) == {ALICE};
    hide Fellows;
    assert !PersonOn(s, ALICE, GROUP, None);
  }

  /** For every n: paused as it should be, n messages, the other app sends /forget and so leaves it on its own. */
  lemma ForgettingLosesTheNote(n: nat)
    ensures MissedUntold(Run(CFG, PAUSED_PROPERLY + Talk(n)), Run(CFG, PAUSED_PROPERLY + Talk(n) + [Ask(FORGET)]), n)
  {
    hide Reached, Handle, MissedUntold, PausedMember;
    var s := Talking(TOGETHER, map[ALICE := 0], n);
    PausedReached();
    TalkReached(PAUSED_PROPERLY, map[ALICE := 0], n);
    BobForgets(s);
    Go(PAUSED_PROPERLY + Talk(n), FORGET, s);
    AliceIsPaused(map[ALICE := 0], n);
    AliceIsApart(Handle(s, CFG, FORGET).s);
    EndsUntold(PAUSED_PROPERLY + Talk(n), s, PAUSED_PROPERLY + Talk(n) + [Ask(FORGET)], Handle(s, CFG, FORGET).s, n);
  }
}
