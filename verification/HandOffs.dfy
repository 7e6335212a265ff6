/**
 The hand-off of a JOIN, over every run: whatever was offered to a link since its
 JOIN began is sent to it, unless the replay covered it or there was no room.
 */
module HandOffs {
  import opened Common
  import opened Sessions
  import opened SessionRuns
  import opened SessionAnswers
  import Presence

  /** Every event of the room from `begun` on that was offered is accounted for, or the replay covered it. */
  ghost predicate Handed(l: Link, events: seq<Msg>, room: Room, begun: nat, replayed: nat)
    requires l.next <= |events|
  {
    forall i :: begun <= i < l.next && events[i].room == room && events[i].id > replayed ==> events[i].id in Account(l)
  }

  /** What the replay has taken the place of so far. */
  function Replayed(m: Membership): nat {
    if m.live.Some? then m.seenUpTo else 0
  }

  ghost predicate HandsOff(l: Link, events: seq<Msg>) {
    && l.next <= |events|
    && (l.task.Asking? ==> Handed(l, events, l.task.room, l.task.begun, 0))
    && forall room :: room in l.mem ==> Handed(l, events, room, l.mem[room].begun, Replayed(l.mem[room]))
  }

  /** Nothing accounted for is lost. */
  lemma HandedStays(l: Link, l2: Link, events: seq<Msg>, room: Room, begun: nat, replayed: nat)
    requires l2.next == l.next <= |events| && Account(l) <= Account(l2) && Handed(l, events, room, begun, replayed)
    ensures Handed(l2, events, room, begun, replayed)
  {
    hide Account;
  }

  /** A step that accounts for the same messages and starts nothing. */
  lemma SameHands(l: Link, l2: Link, events: seq<Msg>)
    requires HandsOff(l, events) && l2.next == l.next && Account(l) <= Account(l2)
    requires l2.task.Asking? ==> (l.task.Asking? && l2.task == l.task) || l2.task.begun == l2.next
    requires forall room :: room in l2.mem ==> room in l.mem && l2.mem[room] == l.mem[room]
    ensures HandsOff(l2, events)
  {
    hide Account;
  }

  /** The messages held are given up, or go to the queue: a room other than the one being joined does not notice. */
  lemma OtherRoomHands(l: Link, l2: Link, events: seq<Msg>, room: Room, begun: nat, replayed: nat)
    requires l2.next == l.next <= |events| && Handed(l, events, room, begun, replayed) && HeldOk(l, events)
    requires room !in JoiningRooms(l) && l2.sent == l.sent && l2.dropped == l.dropped && FlushNow(l) == []
    ensures Handed(l2, events, room, begun, replayed)
  {
    forall i | begun <= i < l.next && events[i].room == room && events[i].id > replayed
      ensures events[i].id in Account(l2)
    {
      InLive(l, events[i].id);
      InLive(l2, events[i].id);
    }
  }

  lemma DeniedHands(l: Link, events: seq<Msg>, top: nat)
    requires LinkOk(l, events, top) && HandsOff(l, events) && l.task.Asking?
    ensures HandsOff(JoinDenied(l), events)
  {
    var l2 := JoinDenied(l);
    assert HeldOk(l, events);
    JoinDeniedPlain(l);
    hide LinkOk, JoinDenied, Handed, Shape, HeldOk, Account, FlushNow, HeldNow, JoiningRooms;
    forall room | room in l2.mem
      ensures Handed(l2, events, room, l2.mem[room].begun, Replayed(l2.mem[room]))
    {
      OtherRoomHands(l, l2, events, room, l.mem[room].begun, Replayed(l.mem[room]));
    }
  }

  lemma FinishedHands(l: Link, events: seq<Msg>, top: nat)
    requires LinkOk(l, events, top) && HandsOff(l, events) && l.task.Admitted?
    ensures HandsOff(JoinFinish(l), events)
  {
    var l2, room := JoinFinish(l), l.task.room;
    assert MembershipOk(l, events, top, room);
    FinishOthers(l);
    forall i | l.mem[room].begun <= i < l.next && events[i].room == room && events[i].id > l.task.seenUpTo
      ensures events[i].id in Account(l2)
    {
      FinishMoves(l, events[i].id);
    }
    assert Handed(l2, events, room, l2.mem[room].begun, Replayed(l2.mem[room]));
    hide JoinFinish, Handed, Account, HeldNow, Shape, Once, MembershipsOk, AskingOk;
    forall r | r in l2.mem && r != room
      ensures Handed(l2, events, r, l2.mem[r].begun, Replayed(l2.mem[r]))
    {
      OtherRoomHands(l, l2, events, r, l.mem[r].begun, Replayed(l.mem[r]));
    }
  }

  lemma FinishOthers(l: Link)
    requires l.task.Admitted? && Shape(l)
    ensures var l2 := JoinFinish(l);
            && l2.next == l.next && l2.sent == l.sent && l2.dropped == l.dropped && FlushNow(l) == [] && !l2.task.Asking?
            && l.task.room in l2.mem && l2.mem[l.task.room] == l.mem[l.task.room].(live := Some(l.next))
            && forall r :: r in l2.mem && r != l.task.room ==> r in l.mem && l2.mem[r] == l.mem[r] && r !in JoiningRooms(l)
  {
  }

  lemma HandedMore(l: Link, l2: Link, events: seq<Msg>, room: Room, begun: nat, replayed: nat)
    requires l.next < |events| && l2.next == l.next + 1 && Account(l) <= Account(l2) && Handed(l, events, room, begun, replayed)
    requires events[l.next].room == room ==> events[l.next].id in Account(l2)
    ensures Handed(l2, events, room, begun, replayed)
  {
    hide Account;
  }

  lemma OfferedHands(l: Link, queued: bool, events: seq<Msg>)
    requires Shape(l) && HandsOff(l, events) && l.next < |events|
    ensures HandsOff(Offer(l, events[l.next], queued), events)
  {
    hide Offer, Account, Handed, Shape;
    var m := events[l.next];
    var l2 := Offer(l, m, queued);
    OfferCounts(l, m, queued);
    OfferOut(l, m, queued);
    if l.task.Asking? {
      AskedCounts(l, m, queued);
      HandedMore(l, l2, events, l.task.room, l.task.begun, 0);
    }
    forall room | room in l2.mem
      ensures Handed(l2, events, room, l2.mem[room].begun, Replayed(l2.mem[room]))
    {
      HandedMore(l, l2, events, room, l.mem[room].begun, Replayed(l.mem[room]));
    }
  }

  lemma AskedCounts(l: Link, m: Msg, queued: bool)
    requires Shape(l) && l.task.Asking?
    ensures m.room == l.task.room ==> m.id in Account(Offer(l, m, queued))
  {
    OfferGain(l, m, queued);
    assert m.room == l.task.room ==> m.room in JoiningRooms(l);
    assert m.room == l.task.room ==> Gain(l, m) == multiset{m.id};
    hide Account, Offer, Shape, Gain;
  }

  lemma FlushedHands(l: Link, queued: bool, events: seq<Msg>)
    requires Shape(l) && HandsOff(l, events) && l.task.Flushing?
    ensures HandsOff(FlushOne(l, queued), events)
  {
    FlushOneMoves(l, queued);
    hide FlushOne, Account, Live, Shape, HandsOff, HeldNow;
    SameHands(l, FlushOne(l, queued), events);
  }

  /** Steps that move no message. */
  predicate Still(a: Act) {
    a.DoHello? || a.DoWelcome? || a.DoJoin? || a.DoPart? || a.DoClose?
  }

  lemma StillSame(l: Link, a: Act, events: seq<Msg>)
    requires Still(a) && Shape(l)
    ensures var l2 := Perform(l, a, events);
            && l2.next == l.next && SameMessages(l, l2)
            && (l2.task.Asking? ==> (l.task.Asking? && l2.task == l.task) || l2.task.begun == l2.next)
            && forall room :: room in l2.mem ==> room in l.mem && l2.mem[room] == l.mem[room]
  {
  }

  lemma SameAccounts(l: Link, l2: Link)
    requires SameMessages(l, l2)
    ensures Account(l2) == Account(l)
  {
  }

  lemma PerformHands(l: Link, a: Act, events: seq<Msg>, top: nat)
    requires LinkOk(l, events, top) && HandsOff(l, events)
    ensures HandsOff(Perform(l, a, events), events)
  {
    assert Shape(l) by { LinkShape(l, events, top); }
    hide LinkOk, HandsOff, Shape, Account, SameMessages;
    if Still(a) {
      StillSame(l, a, events);
      SameAccounts(l, Perform(l, a, events));
      hide Perform;
      SameHands(l, Perform(l, a, events), events);
    } else {
      hide JoinFinish, JoinDenied, FlushOne, Offer;
      NothingToDo(l);
      match a
      case DoDenied => if l.task.Asking? { DeniedHands(l, events, top); }
      case DoFinish => if l.task.Admitted? { FinishedHands(l, events, top); }
      case DoFlush(queued) => if l.task.Flushing? { FlushedHands(l, queued, events); }
      case DoOffer(queued) => if l.next < |events| { OfferedHands(l, queued, events); }
    }
  }

  lemma NothingToDo(l: Link)
    ensures !l.task.Asking? ==> JoinDenied(l) == l
    ensures !l.task.Admitted? ==> JoinFinish(l) == l
    ensures !l.task.Flushing? ==> forall queued :: FlushOne(l, queued) == l
  {
  }

  /** The hub commits the JOIN: what was held since it began is still held. */
  lemma AdmittedHands(l: Link, seenUpTo: nat, since: nat, events: seq<Msg>)
    requires Shape(l) && HandsOff(l, events) && l.task.Asking?
    ensures HandsOff(JoinAdmitted(l, seenUpTo, since), events)
  {
    var l2 := JoinAdmitted(l, seenUpTo, since);
    JoinAdmittedPlain(l, seenUpTo, since);
    SameAccounts(l, l2);
    hide Account, SameMessages, Shape;
  }

  /** A new event, or none, leaves what was offered as it is. */
  lemma LaterHands(l: Link, events: seq<Msg>, later: seq<Msg>)
    requires HandsOff(l, events) && |events| <= |later| && later[..|events|] == events
    ensures HandsOff(l, later)
  {
    hide Account;
    forall i | 0 <= i < l.next
      ensures later[i] == events[i]
    {
      assert later[..|events|][i] == later[i];
    }
  }

  ghost predicate AllHandOff(s: System) {
    forall k :: k in s.links ==> HandsOff(s.links[k], s.events)
  }

  lemma NextHands(s: System, t: Step)
    requires Inv(s) && AllHandOff(s)
    ensures AllHandOff(Next(s, t))
  {
    hide HandsOff, Perform, JoinAdmitted, LogOk, CountsOk, LinkOk, Presence.AddLink, Presence.DropEach, Orders;
    match t
    case Connect(k, identity, at) =>
      if k !in s.links && at <= |s.events| {
        NewHands(DoConnect(s, k, identity, at).links[k], s.events);
      }
    case On(k, a) =>
      if k in s.links {
        assert LinkOk(s.links[k], s.events, |s.posted|);
        PerformHands(s.links[k], a, s.events, |s.posted|);
      }
    case JoinCommit(k) =>
      if k in s.links && s.links[k].task.Asking? {
        assert LinkOk(s.links[k], s.events, |s.posted|);
        LinkShape(s.links[k], s.events, |s.posted|);
        hide Shape;
        AdmittedHands(s.links[k], 0, |s.posted| + 1, s.events);
        AdmittedHands(s.links[k], LastIn(s.posted, s.links[k].task.room), |s.posted| + 1, s.events);
      }
    case LeaveCommit(k, order) =>
      if k in s.links {
        LeftHands(s.links[k], s.events);
      }
    case Post(room, lost) =>
      var s2 := DoPost(s, room, lost);
      forall k | k in s2.links
        ensures HandsOff(s2.links[k], s2.events)
      {
        LaterHands(s.links[k], s.events, s2.events);
      }
  }

  lemma NewHands(l: Link, events: seq<Msg>)
    requires l.next <= |events| && l.task.Ready? && l.mem == map[]
    ensures HandsOff(l, events)
  {
  }

  lemma LeftHands(l: Link, events: seq<Msg>)
    requires HandsOff(l, events)
    ensures HandsOff(Left(l), events)
  {
    if l.task.Leaving? {
      assert SameMessages(l, Left(l));
      SameAccounts(l, Left(l));
      hide Account, SameMessages;
      SameHands(l, Left(l), events);
    }
  }

  lemma {:induction false} RunHands(ts: seq<Step>)
    ensures AllHandOff(Run(ts))
    decreases |ts|
  {
    if ts != [] {
      hide Inv, AllHandOff, Next;
      RunKeeps(ts[..|ts| - 1]);
      RunHands(ts[..|ts| - 1]);
      NextHands(Run(ts[..|ts| - 1]), ts[|ts| - 1]);
    }
  }

  /**
   Nothing falls between a JOIN and the room: once the link's worker has caught
   up, each message of the room whose event was offered since the JOIN began
   has been sent to the link or dropped for want of room, exactly once, unless
   the replay covered it.
   */
  lemma NothingFallsBetween(ts: seq<Step>, k: int, room: Room, i: nat)
    requires k in Run(ts).links && room in Run(ts).links[k].mem && Run(ts).links[k].task.Ready?
    requires Run(ts).links[k].mem[room].begun <= i < Run(ts).links[k].next && i < |Run(ts).events|
    requires Run(ts).events[i].room == room && Run(ts).events[i].id > Run(ts).links[k].mem[room].seenUpTo
    ensures Run(ts).links[k].sent[Run(ts).events[i].id] + Run(ts).links[k].dropped[Run(ts).events[i].id] == 1
  {
    RunHands(ts);
    var s := Run(ts);
    var l := s.links[k];
    NeverTwice(ts, k, s.events[i].id);
    hide Run;
    assert HandsOff(l, s.events);
    assert Handed(l, s.events, room, l.mem[room].begun, Replayed(l.mem[room]));
    InLive(l, s.events[i].id);
  }

  /** What the hub's commit of a JOIN sets: a replay up to the newest message of the room for an identity's first link in it, none for a further one. */
  lemma CommitIs(s: System, k: int)
    requires LogOk(s) && k in s.links && s.links[k].task.Asking?
    ensures var s2, l := DoJoinCommit(s, k), s.links[k];
            var room := l.task.room;
            && k in s2.links && s2.links[k].task.Admitted? && s2.links[k].task.room == room && room in s2.links[k].mem
            && s2.links[k].task.seenUpTo == s2.links[k].mem[room].seenUpTo
            && var seen := s2.links[k].task.seenUpTo;
               if Presence.Links(s.presence, room, l.identity) > 0 then seen == 0
               else
                 && (forall j :: 0 <= j < |s.posted| && s.posted[j].room == room ==> s.posted[j].id <= seen)
                 && (seen == 0 || exists j :: 0 <= j < |s.posted| && s.posted[j].room == room && s.posted[j].id == seen)
  {
    LastInLog(s.posted, s.links[k].task.room);
    LastInIs(s.posted, s.links[k].task.room);
    hide LastIn, Presence.AddLink;
  }

  lemma {:induction false} LastInIs(posted: seq<Msg>, room: Room)
    ensures LastIn(posted, room) == 0 || exists j :: 0 <= j < |posted| && posted[j].room == room && posted[j].id == LastIn(posted, room)
  {
    if posted != [] {
      var init := posted[..|posted| - 1];
      if posted[|posted| - 1].room != room {
        LastInIs(init, room);
        if LastIn(init, room) != 0 {
          var j :| 0 <= j < |init| && init[j].room == room && init[j].id == LastIn(init, room);
          assert posted[j] == init[j];
        }
      }
    }
  }
}
