/** One run: a message is replayed by a JOIN, and its event reaches the link only when the JOIN is over. */
module SessionStory {
  import opened Common
  import opened Sessions
  import opened SessionRuns
  import Presence

  const BOB := Identity(1)
  const ROOM := Room(1)

  const LATE_EVENT: seq<Step> := [
    Connect(0, BOB, 0), On(0, DoHello), On(0, DoWelcome), Post(ROOM, false), On(0, DoJoin(ROOM)), JoinCommit(0),
    On(0, DoFinish), On(0, DoFlush(true)), On(0, DoOffer(true))]

  const FIRST := Msg(1, ROOM)
  const NOT_YET := State(false, {}, map[])
  const KNOWN := State(true, {}, map[])
  const JOINING := State(true, {}, map[ROOM := []])
  const INSIDE := State(true, {ROOM}, map[])
  const THERE: Presence.Map := map[ROOM := map[BOB := 1]]

  function BobsLink(st: State, task: Task, next: nat, sent: multiset<int>, mem: map<Room, Membership>): Link {
    Link(BOB, st, task, false, next, sent, multiset{}, mem)
  }

  function Only(l: Link, presence: Presence.Map, posted: seq<Msg>): System {
    System(map[0 := l], presence, posted, posted)
  }

  const WAITING := Membership(2, 1, 0, None)
  const ENTERED := Membership(2, 1, 0, Some(0))

  const S1 := Only(BobsLink(NOT_YET, Ready, 0, multiset{}, map[]), map[], [])
  const S3 := Only(BobsLink(KNOWN, Ready, 0, multiset{}, map[]), map[], [])
  const S4 := Only(BobsLink(KNOWN, Ready, 0, multiset{}, map[]), map[], [FIRST])
  const S5 := Only(BobsLink(JOINING, Asking(ROOM, 0), 0, multiset{}, map[]), map[], [FIRST])
  const S6 := Only(BobsLink(JOINING, Admitted(ROOM, 1), 0, multiset{}, map[ROOM := WAITING]), THERE, [FIRST])
  const S7 := Only(BobsLink(INSIDE, Flushing([]), 0, multiset{}, map[ROOM := ENTERED]), THERE, [FIRST])
  const S8 := Only(BobsLink(INSIDE, Ready, 0, multiset{}, map[ROOM := ENTERED]), THERE, [FIRST])
  const S9 := Only(BobsLink(INSIDE, Ready, 1, multiset{1}, map[ROOM := ENTERED]), THERE, [FIRST])

  const NOTHING := System(map[], map[], [], [])

  lemma Greeting()
    ensures Next(NOTHING, LATE_EVENT[0]) == S1 && Next(S1, LATE_EVENT[1]) == S1 && Next(S1, LATE_EVENT[2]) == S3
  {
    assert map[][0 := S1.links[0]] == S1.links;
    assert Hello(S1.links[0]) == S1.links[0];
    assert Welcome(S1.links[0]) == S3.links[0];
  }

  lemma Posting()
    ensures Next(S3, LATE_EVENT[3]) == S4
  {
    assert [] + [FIRST] == [FIRST];
  }

  lemma Joining()
    ensures Next(S4, LATE_EVENT[4]) == S5
  {
    assert JoinStart(S4.links[0], ROOM) == S5.links[0];
  }

  lemma Committing()
    ensures Next(S5, LATE_EVENT[5]) == S6
  {
    assert Presence.AddLink(map[], ROOM, BOB) == THERE;
    assert LastIn([FIRST], ROOM) == 1;
    assert JoinAdmitted(S5.links[0], 1, 2) == S6.links[0];
  }

  lemma Finishing()
    ensures Next(S6, LATE_EVENT[6]) == S7 && Next(S7, LATE_EVENT[7]) == S8
  {
    assert JoinFinish(S6.links[0]) == S7.links[0];
    assert FlushOne(S7.links[0], true) == S8.links[0];
  }

  lemma Offering()
    ensures Next(S8, LATE_EVENT[8]) == S9
  {
    assert Offer(S8.links[0], FIRST, true) == S9.links[0];
  }

  lemma RunStep(n: nat, s: System, s2: System)
    requires n < |LATE_EVENT| && Run(LATE_EVENT[..n]) == s && Next(s, LATE_EVENT[n]) == s2
    ensures Run(LATE_EVENT[..n + 1]) == s2
  {
    assert LATE_EVENT[..n + 1][..n] == LATE_EVENT[..n];
    hide Next;
  }

  lemma RunNone()
    ensures Run([]) == NOTHING
  {
  }

  /** The replay of the JOIN covered message 1, and the fan-out sends it to the link once more. */
  lemma LateEventRepeats()
    ensures var s := Run(LATE_EVENT);
            0 in s.links && ROOM in s.links[0].mem && s.links[0].mem[ROOM].seenUpTo == 1 && s.posted == [FIRST] && s.links[0].sent == multiset{1}
  {
    hide Next, Run;
    assert LATE_EVENT[..0] == [] && LATE_EVENT[..9] == LATE_EVENT;
    RunNone();
    Greeting();
    RunStep(0, NOTHING, S1);
    RunStep(1, S1, S1);
    RunStep(2, S1, S3);
    Posting();
    RunStep(3, S3, S4);
    Joining();
    RunStep(4, S4, S5);
    Committing();
    RunStep(5, S5, S6);
    Finishing();
    RunStep(6, S6, S7);
    RunStep(7, S7, S8);
    Offering();
    RunStep(8, S8, S9);
  }
}
