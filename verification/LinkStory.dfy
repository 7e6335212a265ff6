/**
 One run, step by step: a ranked person's code is redeemed and waits; the rank
 goes, the same app links by a second code, the first app unlinks itself, and
 the app that is now alone approves its own waiting link. The name is freed.
 */
module LinkStory {
  import opened Common
  import opened People
  import opened PeopleLaws
  import opened Ranks
  import opened Links
  import opened LinkRuns
  import Limits
  import Names

  const OWNER_ID := Identity(0)
  const FIRST := Identity(1)
  const SECOND := Identity(2)
  const P0 := PersonId(0)
  const P1 := PersonId(1)
  const P2 := PersonId(2)
  const P3 := PersonId(3)
  const SPARE := PersonId(9)
  const H1 := Hash(1)
  const H2 := Hash(2)

  const OWNERS := {OWNER_ID}

  const STEPS: seq<Step> := [
    Do(0, FIRST, P1, Nick("zz")),
    Do(0, OWNER_ID, P0, SetRankOf(FIRST, Mod)),
    Do(0, FIRST, SPARE, AskCode(H1)),
    Do(0, SECOND, P2, UseLinkCode(H1, true)),
    Do(0, OWNER_ID, SPARE, SetRankOf(FIRST, Member)),
    Do(0, FIRST, SPARE, AskCode(H2)),
    Do(0, SECOND, SPARE, UseLinkCode(H2, true)),
    Do(0, FIRST, SPARE, UnlinkApp(FIRST, P3)),
    Do(0, SECOND, SPARE, Answer(H1, true))]

  const PLAIN := Person(Member, DEFAULT_PREFS)
  const ZZ := map[P1 := Name("zz", "zz", 0)]
  const FIRST_AT_HOME := map[FIRST := Home(P1, 0)]
  const WITH_OWNER := map[FIRST := Home(P1, 0), OWNER_ID := Home(P0, 0)]
  const ALL_THREE := map[FIRST := Home(P1, 0), OWNER_ID := Home(P0, 0), SECOND := Home(P2, 0)]

  /** A world at time 0 in which nobody has been ignored, whispered to, banned or locked out. */
  function At(identities: map<Identity, Home>, people: map<PersonId, Person>, names: map<PersonId, Name>, codes: map<Hash, Code>,
              issued: seq<int>, used: set<Hash>, linked: map<Hash, nat>): World
  {
    var times: map<PersonId, seq<int>> := if issued == [] then map[] else map[P1 := issued];
    World(Tables(identities, people, names, map[], map[], codes), Limits.Tables(map[], map[], times, map[]), {}, 0,
          Log(times, map[], used, linked))
  }

  const WAITING := Code(P1, FIRST, CODE_TTL, Some(SECOND))
  const OPEN := Code(P1, FIRST, CODE_TTL, None)

  const W1 := At(FIRST_AT_HOME, map[P1 := PLAIN], ZZ, map[], [], {}, map[])
  const W2 := At(WITH_OWNER, map[P1 := Person(Mod, DEFAULT_PREFS), P0 := PLAIN], ZZ, map[], [], {}, map[])
  const W3 := At(WITH_OWNER, map[P1 := Person(Mod, DEFAULT_PREFS), P0 := PLAIN], ZZ, map[H1 := OPEN], [0], {H1}, map[])
  const W4 := At(ALL_THREE, map[P1 := Person(Mod, DEFAULT_PREFS), P0 := PLAIN, P2 := PLAIN], ZZ, map[H1 := WAITING], [0], {H1}, map[])
  const W5 := At(ALL_THREE, map[P1 := PLAIN, P0 := PLAIN, P2 := PLAIN], ZZ, map[H1 := WAITING], [0], {H1}, map[])
  const W6 := At(ALL_THREE, map[P1 := PLAIN, P0 := PLAIN, P2 := PLAIN], ZZ, map[H1 := WAITING, H2 := OPEN], [0, 0], {H1, H2}, map[])
  const W7 := At(map[FIRST := Home(P1, 0), OWNER_ID := Home(P0, 0), SECOND := Home(P1, 0)], map[P1 := PLAIN, P0 := PLAIN], ZZ,
                 map[H1 := WAITING], [0, 0], {H1, H2}, map[H2 := 1])
  const W8 := At(map[FIRST := Home(P3, 0), OWNER_ID := Home(P0, 0), SECOND := Home(P1, 0)], map[P1 := PLAIN, P0 := PLAIN, P3 := PLAIN], ZZ,
                 map[H1 := WAITING], [0, 0], {H1, H2}, map[H2 := 1])
  const W9 := At(map[FIRST := Home(P3, 0), OWNER_ID := Home(P0, 0), SECOND := Home(P1, 0)], map[P1 := PLAIN, P0 := PLAIN, P3 := PLAIN], map[],
                 map[], [0, 0], {H1, H2}, map[H2 := 1, H1 := 1])

  lemma Step1()
    ensures Next(START, OWNERS, STEPS[0]) == W1
  {
    Names.ZzIsClean();
    hide Names.CheckName;
  }

  lemma Step2()
    ensures Next(W1, OWNERS, STEPS[1]) == W2
  {
    var t := Touched(W1.t, OWNER_ID, P0, 0);
    assert t.identities == WITH_OWNER;
    assert IdentityRank(t, OWNERS, OWNER_ID) == OWNER;
    NoOwnerIn(t, P1);
    assert WhoIs(t, OWNERS, FIRST) == Who(Some(P1), MEMBER, MEMBER);
  }

  /** The owner's identity is at home in P0. */
  lemma NoOwnerIn(t: Tables, p: PersonId)
    requires p != P0 && OWNER_ID in t.identities && t.identities[OWNER_ID].person == P0
    ensures !HasOwner(t, OWNERS, p)
  {
  }

  lemma OneApp(t: Tables, p: PersonId, id: Identity)
    requires Apps(t, p) == {id}
    ensures |Apps(t, p)| == 1
  {
  }

  lemma Recent(times: seq<int>)
    requires times == [] || times == [0] || times == [0, 0]
    ensures Limits.TakeRecent(times, 0, Limits.HOUR) == times && Limits.TakeRecent([], 0, Limits.LOCKOUT) == []
  {
    assert [0][..0] == [] && [0, 0][..1] == [0];
    assert Limits.TakeRecent([0], 0, Limits.HOUR) == [0];
  }

  /** P1, with one app, asks for a code it may have. */
  lemma Issued(w: World, h: Hash, before: seq<int>)
    requires FIRST in w.t.identities && w.t.identities[FIRST].person == P1 && |Apps(w.t, P1)| == 1
    requires w.now == 0 && h !in w.log.codes && (before == [] || before == [0])
    requires Limits.Times(w.lim.issued, P1) == before && Limits.Times(w.log.issued, P1) == before
    ensures Issue(w, FIRST, h) ==
            w.(lim := w.lim.(issued := w.lim.issued[P1 := before + [0]]), t := w.t.(codes := PutCode(w.t.codes, h, OPEN)),
               log := w.log.(codes := w.log.codes + {h}, issued := w.log.issued[P1 := before + [0]]))
  {
    Recent(before);
    hide Limits.TakeRecent, PutCode, Apps, Limits.Times;
  }

  lemma Issue1()
    ensures Issue(W2, FIRST, H1) == W3
  {
    hide Issue;
    assert Apps(W2.t, P1) == {FIRST};
    OneApp(W2.t, P1, FIRST);
    Issued(W2, H1, []);
    assert PutCode(W2.t.codes, H1, OPEN) == W3.t.codes;
    hide PutCode, Apps;
    assert [] + [0] == [0];
  }

  /** A step by someone known runs its command in the same world. */
  lemma KnownCaller(w: World, me: Identity, cmd: Cmd)
    requires me in w.t.identities && w.banned == {} && w.now == 0 && SPARE !in w.t.people && Exec(w, OWNERS, me, cmd).Some?
    ensures Next(w, OWNERS, Do(0, me, SPARE, cmd)) == Exec(w, OWNERS, me, cmd).value
  {
    hide Exec;
  }

  lemma Step3()
    ensures Next(W2, OWNERS, STEPS[2]) == W3
  {
    Issue1();
    hide Issue, Next;
    KnownCaller(W2, FIRST, AskCode(H1));
  }

  const W3_TOUCHED := W3.(t := Touched(W3.t, SECOND, P2, 0))

  lemma Redeem1()
    ensures Redeem(W3_TOUCHED, OWNERS, SECOND, H1, true) == Some(W4)
  {
    var w := W3_TOUCHED;
    Recent([]);
    NoOwnerIn(w.t, P1);
    NoOwnerIn(w.t, P2);
    assert PersonRank(w.t, OWNERS, P1) == MOD && PersonRank(w.t, OWNERS, P2) == MEMBER;
    assert Apps(w.t, P1) == {FIRST};
    OneApp(w.t, P1, FIRST);
    hide Limits.TakeRecent, PersonRank, Apps, LinkBy;
    assert !LockedOut(w, SECOND) && !BadCode(w, H1);
    assert !Refused(w, OWNERS, SECOND, w.t.codes[H1], true);
    assert AwaitApproval(w, SECOND, H1) == W4;
  }

  lemma Step4()
    ensures Next(W3, OWNERS, STEPS[3]) == W4
  {
    Redeem1();
    hide Redeem;
  }

  lemma Demote()
    ensures Grant(W4, OWNERS, OWNER_ID, FIRST, Member) == Some(W5)
  {
    NoOwnerIn(W4.t, P1);
    assert IdentityRank(W4.t, OWNERS, OWNER_ID) == OWNER;
    assert WhoIs(W4.t, OWNERS, FIRST) == Who(Some(P1), MOD, MOD);
    assert WhoIs(W4.t, OWNERS, OWNER_ID).person == Some(P0);
    assert W4.t.people[P1 := PLAIN] == W5.t.people;
    hide HasOwner, IdentityRank, PersonRank;
  }

  lemma Step5()
    ensures Next(W4, OWNERS, STEPS[4]) == W5
  {
    Demote();
    hide Grant, Next;
    KnownCaller(W4, OWNER_ID, SetRankOf(FIRST, Member));
  }

  lemma Issue2()
    ensures Issue(W5, FIRST, H2) == W6
  {
    hide Issue;
    assert Apps(W5.t, P1) == {FIRST};
    OneApp(W5.t, P1, FIRST);
    Issued(W5, H2, [0]);
    assert PutCode(W5.t.codes, H2, OPEN) == W6.t.codes;
    hide PutCode, Apps;
    assert [0] + [0] == [0, 0] && W5.log.codes + {H2} == W6.log.codes;
    assert W5.lim.issued[P1 := [0, 0]] == W6.lim.issued;
  }

  lemma Step6()
    ensures Next(W5, OWNERS, STEPS[5]) == W6
  {
    Issue2();
    hide Issue, Next;
    KnownCaller(W5, FIRST, AskCode(H2));
  }

  lemma Link2()
    ensures LinkBy(W6, SECOND, P1, H2) == Some(W7)
  {
    MovedHome();
    Merging2();
    assert W6.t.codes - {H2} == W7.t.codes;
    assert map[][H2 := 1] == W7.log.linked;
    hide HubLinked, Merged, Moved;
  }

  lemma MovedHome()
    ensures HubLinked(W6.t, SECOND, P1, 0) == Ok(Merged(Moved(W6.t, SECOND, P1, 0), P2, P1))
  {
    assert Alone(W6.t, SECOND);
    hide Merged, Moved, Alone;
  }

  lemma Merging2()
    ensures Merged(Moved(W6.t, SECOND, P1, 0), P2, P1) == W7.t.(codes := W6.t.codes)
  {
    var m := Moved(W6.t, SECOND, P1, 0);
    NothingToMerge();
    assert OthersCodes(W6.t.codes, P2) == W6.t.codes;
    assert W6.t.identities[SECOND := Home(P1, 0)] == W7.t.identities;
    assert W6.t.people - {P2} == W7.t.people;
    hide MergedIgnores, MergedWhispers, OthersCodes;
  }

  lemma NothingToMerge()
    ensures MergedIgnores(map[], P2, P1) == map[] && MergedWhispers(map[], P2, P1) == map[]
  {
  }

  lemma Redeem2()
    ensures Redeem(W6, OWNERS, SECOND, H2, true) == Some(W7)
  {
    var t := W6.t;
    Recent([]);
    NoOwnerIn(t, P1);
    NoOwnerIn(t, P2);
    assert PersonRank(t, OWNERS, P1) == MEMBER && PersonRank(t, OWNERS, P2) == MEMBER;
    assert Apps(t, P1) == {FIRST};
    OneApp(t, P1, FIRST);
    Link2();
    hide Limits.TakeRecent, PersonRank, Apps, LinkBy;
    assert !LockedOut(W6, SECOND) && !BadCode(W6, H2);
    assert !Refused(W6, OWNERS, SECOND, t.codes[H2], true);
  }

  lemma Step7()
    ensures Next(W6, OWNERS, STEPS[6]) == W7
  {
    Redeem2();
    hide Redeem, Next;
    KnownCaller(W6, SECOND, UseLinkCode(H2, true));
  }

  lemma Unlink1()
    ensures Unlink(W7, OWNERS, FIRST, FIRST, P3) == Some(W8)
  {
    assert !Alone(W7.t, FIRST) by { assert SECOND in W7.t.identities; }
    assert WhoIs(W7.t, OWNERS, FIRST).person == Some(P1) by { hide IdentityRank, PersonRank; }
    assert W7.t.people[P3 := PLAIN] == W8.t.people;
    assert W7.t.identities[FIRST := Home(P3, 0)] == W8.t.identities;
    hide Alone, IdentityRank, PersonRank;
  }

  lemma Step8()
    ensures Next(W7, OWNERS, STEPS[7]) == W8
  {
    Unlink1();
    hide Unlink, Next;
    KnownCaller(W7, FIRST, UnlinkApp(FIRST, P3));
  }

  lemma Approve1()
    ensures Decide(W8, SECOND, H1, true) == Some(W9)
  {
    assert Alone(W8.t, SECOND);
    assert HubLinked(W8.t, SECOND, P1, 0) == Ok(Released(W8.t, SECOND));
    assert Released(W8.t, SECOND).names == map[];
    hide HubLinked, Alone;
  }

  lemma Step9()
    ensures Next(W8, OWNERS, STEPS[8]) == W9
  {
    Approve1();
    hide Decide, Next;
    KnownCaller(W8, SECOND, Answer(H1, true));
  }

  lemma RunStep(k: nat, w: World, w2: World)
    requires k < |STEPS| && Run(OWNERS, STEPS[..k]) == w && Next(w, OWNERS, STEPS[k]) == w2
    ensures Run(OWNERS, STEPS[..k + 1]) == w2
  {
    assert STEPS[..k + 1][..k] == STEPS[..k];
    hide Next;
  }

  lemma RunNone()
    ensures Run(OWNERS, []) == START
  {
  }

  /** p loses its name though no app moves and id, one of its apps, stays. */
  ghost predicate OnlyNameLost(before: Tables, after: Tables, id: Identity, p: PersonId) {
    && p in before.names && p !in after.names && after.identities == before.identities
    && id in before.identities && before.identities[id].person == p
  }

  /** In this run the last step, an approval, takes the name away from the person and moves no app. */
  lemma ApprovalCanFreeTheName()
    ensures STEPS[8] == Do(0, SECOND, SPARE, Answer(H1, true))
    ensures OnlyNameLost(Run(OWNERS, STEPS[..8]).t, Run(OWNERS, STEPS).t, SECOND, P1)
  {
    hide Next, Run;
    assert STEPS[..0] == [] && STEPS[..9] == STEPS;
    RunNone();
    Step1();
    RunStep(0, START, W1);
    Step2();
    RunStep(1, W1, W2);
    Step3();
    RunStep(2, W2, W3);
    Step4();
    RunStep(3, W3, W4);
    Step5();
    RunStep(4, W4, W5);
    Step6();
    RunStep(5, W5, W6);
    Step7();
    RunStep(6, W6, W7);
    Step8();
    RunStep(7, W7, W8);
    Step9();
    RunStep(8, W8, W9);
  }
}
