/**
 Every interleaving of RRC links, the hub and the event fan-out: after a JOIN
 each room message reaches the link once, and the hub's link counts are
 exactly the links in the room.
 */
module SessionRuns {
  import opened Common
  import opened Sessions
  import Presence

  datatype Msg = Msg(id: nat, room: Room)

  /** What a link's worker is in the middle of. Frames of one link are handled one at a time. */
  datatype Task =
    | Ready
    | Asking(room: Room, begun: nat)        // JOIN sent to the hub
    | Admitted(room: Room, seenUpTo: nat)   // the hub committed; JOINED and the replay are being queued
    | Flushing(left: seq<nat>)              // held messages still to send
    | Leaving(rooms: set<Room>)             // out of these rooms here, not yet at the hub

  /**
   A link's time in a room: messages from `since` on came after the JOIN
   committed; the replay covered up to seenUpTo; joining began, and ended, when
   the link was at that place among the events.
   */
  datatype Membership = Membership(since: nat, seenUpTo: nat, begun: nat, live: Option<nat>)

  /** next is the link's place among the hub's events, those before it being done with; sent and dropped collect message ids. */
  datatype Link = Link(identity: Identity, st: State, task: Task, closed: bool, next: nat,
                       sent: multiset<int>, dropped: multiset<int>, mem: map<Room, Membership>)

  /** posted is the hub's log; events are the ones the RRC subscription had room for. */
  datatype System = System(links: map<int, Link>, presence: Presence.Map, posted: seq<Msg>, events: seq<Msg>)

  // ---- one link's steps -----------------------------------------------------

  /** The fan-out offers the next event; queued says whether the send queue had room. */
  function Offer(l: Link, m: Msg, queued: bool): Link {
    var fate := FateOf(l.st, m.room);
    l.(next := l.next + 1, st := Offered(l.st, m.room, m.id),
       sent := if fate == SentNow && queued then l.sent + multiset{m.id} else l.sent,
       dropped := if fate == Overflow || (fate == SentNow && !queued) then l.dropped + multiset{m.id} else l.dropped)
  }

  function Hello(l: Link): Link {
    if l.task.Ready? && !l.closed then
      l.(st := HelloReceived(l.st), mem := map[],
         task := if l.st.welcomed && l.st.rooms != {} then Leaving(l.st.rooms) else Ready)
    else l
  }

  function Welcome(l: Link): Link {
    if l.task.Ready? && !l.closed then l.(st := Welcomed(l.st)) else l
  }

  /** A JOIN for a room the link is in already is answered without asking the hub. */
  function JoinStart(l: Link, room: Room): Link {
    if l.task.Ready? && !l.closed && l.st.welcomed && room !in l.st.rooms then
      l.(st := JoinBegun(l.st, room), task := Asking(room, l.next))
    else l
  }

  function JoinDenied(l: Link): Link {
    if l.task.Asking? then l.(st := JoinRefused(l.st, l.task.room), task := Ready) else l
  }

  function JoinAdmitted(l: Link, seenUpTo: nat, since: nat): Link
    requires l.task.Asking?
  {
    l.(task := Admitted(l.task.room, seenUpTo),
       mem := l.mem[l.task.room := Membership(since, seenUpTo, l.task.begun, None)])
  }

  function JoinFinish(l: Link): Link {
    if l.task.Admitted? && l.task.room in l.mem then
      var room := l.task.room;
      l.(st := JoinFinished(l.st, room), mem := l.mem[room := l.mem[room].(live := Some(l.next))],
         task := Flushing(Uncovered(HeldFor(l.st, room), l.task.seenUpTo)))
    else l
  }

  function FlushOne(l: Link, queued: bool): Link {
    if l.task.Flushing? then
      if l.task.left == [] then l.(task := Ready)
      else
        var x := l.task.left[0];
        l.(task := Flushing(l.task.left[1..]),
           sent := if queued then l.sent + multiset{x} else l.sent,
           dropped := if queued then l.dropped else l.dropped + multiset{x})
    else l
  }

  function Part(l: Link, room: Room): Link {
    if l.task.Ready? && !l.closed && l.st.welcomed && room in l.st.rooms then
      l.(st := Parted(l.st, room), mem := l.mem - {room}, task := Leaving({room}))
    else l
  }

  function Close(l: Link): Link {
    if l.task.Ready? && !l.closed then
      l.(closed := true, st := l.st.(rooms := {}), mem := map[], task := if l.st.rooms != {} then Leaving(l.st.rooms) else Ready)
    else l
  }

  /** The hub has recorded that the link left. */
  function Left(l: Link): Link {
    if l.task.Leaving? then l.(task := Ready) else l
  }

  // ---- what a link keeps ----------------------------------------------------

  function JoiningRooms(l: Link): set<Room> {
    if l.task.Asking? || l.task.Admitted? then {l.task.room} else {}
  }

  function HeldNow(l: Link): seq<nat> {
    if l.task.Asking? || l.task.Admitted? then HeldFor(l.st, l.task.room) else []
  }

  function FlushNow(l: Link): seq<nat> {
    if l.task.Flushing? then l.task.left else []
  }

  /** Messages sent to the link or certain to be. */
  function Live(l: Link): multiset<int> {
    l.sent + multiset(HeldNow(l)) + multiset(FlushNow(l))
  }

  function Account(l: Link): multiset<int> {
    Live(l) + l.dropped
  }

  predicate Shape(l: Link) {
    && (l.st.rooms != {} || l.task.Asking? || l.task.Admitted? ==> l.st.welcomed)
    && l.st.joining.Keys == JoiningRooms(l)
    && JoiningRooms(l) !! l.st.rooms
    && (l.task.Leaving? ==> l.task.rooms !! l.st.rooms)
    && l.mem.Keys == l.st.rooms + (if l.task.Admitted? then {l.task.room} else {})
    && (l.closed ==> l.st.rooms == {} && (l.task.Ready? || l.task.Leaving?))
  }

  function OfferedIds(events: seq<Msg>, n: nat): set<int>
    requires n <= |events|
  {
    set i | 0 <= i < n :: events[i].id
  }

  /** Each message counted at most once, only offered ones counted, and none that is still to be offered. */
  ghost predicate Once(l: Link, events: seq<Msg>, top: nat) {
    && l.next <= |events|
    && (forall x :: Account(l)[x] <= 1)
    && (forall x :: x in Account(l) ==> x <= top)
    && (forall x, i :: x in Account(l) && l.next <= i < |events| ==> x < events[i].id)
    && (forall x :: x in Account(l) ==> x in OfferedIds(events, l.next))
  }

  /** Every message since the JOIN that has been offered is accounted for. */
  ghost predicate Covered(l: Link, events: seq<Msg>, room: Room)
    requires room in l.mem && l.next <= |events|
  {
    forall i :: 0 <= i < l.next && events[i].room == room && events[i].id >= l.mem[room].since ==> events[i].id in Account(l)
  }

  /** While joining, nothing offered since the JOIN began has been sent. */
  ghost predicate NotSentSince(l: Link, events: seq<Msg>, room: Room, begun: nat)
    requires l.next <= |events|
  {
    forall i :: begun <= i < l.next && events[i].room == room ==> events[i].id !in l.sent
  }

  /** A replayed message is sent again exactly when its event was offered after the JOIN finished. */
  ghost predicate ReplayOk(l: Link, events: seq<Msg>, room: Room)
    requires room in l.mem && l.next <= |events|
  {
    var m := l.mem[room];
    match m.live
    case None => NotSentSince(l, events, room, m.begun)
    case Some(f) =>
      forall i :: m.begun <= i < l.next && events[i].room == room && events[i].id <= m.seenUpTo ==>
        (if i < f then events[i].id !in Live(l) else events[i].id in l.sent + l.dropped)
  }

  ghost predicate MembershipOk(l: Link, events: seq<Msg>, top: nat, room: Room)
    requires room in l.mem && l.next <= |events|
  {
    var m := l.mem[room];
    && m.seenUpTo < m.since <= top + 1 && m.begun <= l.next
    && (m.live.Some? ==> m.begun <= m.live.value <= l.next)
    && (m.live.None? <==> (l.task.Admitted? && l.task.room == room))
    && (m.live.None? ==> l.task.seenUpTo == m.seenUpTo)
    && Covered(l, events, room) && ReplayOk(l, events, room)
  }

  /** What a link holds back is of the room it is joining. */
  ghost predicate HeldOk(l: Link, events: seq<Msg>)
    requires l.next <= |events|
  {
    forall i :: 0 <= i < l.next && events[i].id in HeldNow(l) ==> events[i].room in JoiningRooms(l)
  }

  ghost predicate MembershipsOk(l: Link, events: seq<Msg>, top: nat)
    requires l.next <= |events|
  {
    forall room :: room in l.mem ==> MembershipOk(l, events, top, room)
  }

  ghost predicate AskingOk(l: Link, events: seq<Msg>)
    requires l.next <= |events|
  {
    l.task.Asking? ==> l.task.begun <= l.next && NotSentSince(l, events, l.task.room, l.task.begun)
  }

  ghost predicate LinkOk(l: Link, events: seq<Msg>, top: nat) {
    && Shape(l)
    && Once(l, events, top)
    && HeldOk(l, events)
    && AskingOk(l, events)
    && MembershipsOk(l, events, top)
  }

  ghost predicate EventsOk(events: seq<Msg>, top: nat) {
    && (forall i :: 0 <= i < |events| ==> 0 < events[i].id <= top)
    && (forall i, j :: 0 <= i < j < |events| ==> events[i].id < events[j].id)
  }

  lemma InLive(l: Link, x: nat)
    ensures x in Live(l) <==> x in l.sent || x in HeldNow(l) || x in FlushNow(l)
    ensures x in Account(l) <==> x in Live(l) || x in l.dropped
  {
  }

  // ---- steps that move no message -------------------------------------------

  /** The same messages in the same places, seen up to the same event. */
  ghost predicate SameMessages(l: Link, l2: Link) {
    && l2.next == l.next && l2.sent == l.sent && l2.dropped == l.dropped
    && HeldNow(l2) == HeldNow(l) && FlushNow(l2) == FlushNow(l)
    && (HeldNow(l) != [] ==> JoiningRooms(l2) == JoiningRooms(l))
  }

  lemma SameOnce(l: Link, l2: Link, events: seq<Msg>, top: nat)
    requires SameMessages(l, l2) && Once(l, events, top) && HeldOk(l, events)
    ensures Once(l2, events, top) && HeldOk(l2, events)
  {
    assert Account(l2) == Account(l);
  }

  lemma SameMembership(l: Link, l2: Link, events: seq<Msg>, top: nat, room: Room)
    requires SameMessages(l, l2) && l.next <= |events|
    requires room in l.mem && room in l2.mem && l2.mem[room] == l.mem[room]
    requires (l2.task.Admitted? && l2.task.room == room) <==> (l.task.Admitted? && l.task.room == room)
    requires l2.task.Admitted? && l2.task.room == room ==> l2.task.seenUpTo == l.task.seenUpTo
    requires MembershipOk(l, events, top, room)
    ensures MembershipOk(l2, events, top, room)
  {
    assert Account(l2) == Account(l) && Live(l2) == Live(l);
  }

  lemma HelloKeeps(l: Link, events: seq<Msg>, top: nat)
    requires LinkOk(l, events, top)
    ensures LinkOk(Hello(l), events, top)
  {
    hide Once, HeldOk, MembershipOk;
    SameOnce(l, Hello(l), events, top);
  }

  lemma WelcomeKeeps(l: Link, events: seq<Msg>, top: nat)
    requires LinkOk(l, events, top)
    ensures LinkOk(Welcome(l), events, top)
  {
    hide Once, HeldOk, MembershipOk;
    var l2 := Welcome(l);
    SameOnce(l, l2, events, top);
    forall room | room in l2.mem
      ensures MembershipOk(l2, events, top, room)
    {
      SameMembership(l, l2, events, top, room);
    }
  }

  lemma JoinStartKeeps(l: Link, room: Room, events: seq<Msg>, top: nat)
    requires LinkOk(l, events, top)
    ensures LinkOk(JoinStart(l, room), events, top)
  {
    hide Once, HeldOk, MembershipOk;
    var l2 := JoinStart(l, room);
    SameOnce(l, l2, events, top);
    forall r | r in l2.mem
      ensures MembershipOk(l2, events, top, r)
    {
      SameMembership(l, l2, events, top, r);
    }
  }

  lemma JoinAdmittedPlain(l: Link, seenUpTo: nat, since: nat)
    requires l.task.Asking? && Shape(l)
    ensures var l2 := JoinAdmitted(l, seenUpTo, since);
            Shape(l2) && SameMessages(l, l2) && l2.task == Admitted(l.task.room, seenUpTo) && forall r :: r in l2.mem && r != l.task.room ==> r in l.mem && l2.mem[r] == l.mem[r]
  {
  }

  lemma JoinAdmittedKeeps(l: Link, seenUpTo: nat, events: seq<Msg>, top: nat)
    requires LinkOk(l, events, top) && EventsOk(events, top) && l.task.Asking? && seenUpTo <= top
    ensures LinkOk(JoinAdmitted(l, seenUpTo, top + 1), events, top)
  {
    hide HeldOk, MembershipOk, NotSentSince, EventsOk, Shape, JoinAdmitted, SameMessages, Account, OfferedIds;
    var l2 := JoinAdmitted(l, seenUpTo, top + 1);
    NewMembership(l, seenUpTo, events, top);
    JoinAdmittedPlain(l, seenUpTo, top + 1);
    hide Once;
    SameOnce(l, l2, events, top);
    forall r | r in l2.mem
      ensures MembershipOk(l2, events, top, r)
    {
      if r != l.task.room {
        SameMembership(l, l2, events, top, r);
      }
    }
  }

  lemma NewMembership(l: Link, seenUpTo: nat, events: seq<Msg>, top: nat)
    requires EventsOk(events, top) && l.task.Asking? && seenUpTo <= top && l.next <= |events| && AskingOk(l, events)
    ensures MembershipOk(JoinAdmitted(l, seenUpTo, top + 1), events, top, l.task.room)
  {
  }

  lemma PartKeeps(l: Link, room: Room, events: seq<Msg>, top: nat)
    requires LinkOk(l, events, top)
    ensures LinkOk(Part(l, room), events, top)
  {
    hide Once, HeldOk, MembershipOk;
    var l2 := Part(l, room);
    SameOnce(l, l2, events, top);
    forall r | r in l2.mem
      ensures MembershipOk(l2, events, top, r)
    {
      SameMembership(l, l2, events, top, r);
    }
  }

  lemma CloseKeeps(l: Link, events: seq<Msg>, top: nat)
    requires LinkOk(l, events, top)
    ensures LinkOk(Close(l), events, top)
  {
    hide Once, HeldOk, MembershipOk;
    SameOnce(l, Close(l), events, top);
  }

  lemma LeftKeeps(l: Link, events: seq<Msg>, top: nat)
    requires LinkOk(l, events, top)
    ensures LinkOk(Left(l), events, top)
  {
    hide Once, HeldOk, MembershipOk;
    var l2 := Left(l);
    SameOnce(l, l2, events, top);
    forall r | r in l2.mem
      ensures MembershipOk(l2, events, top, r)
    {
      SameMembership(l, l2, events, top, r);
    }
  }

  // ---- steps that move or drop held messages --------------------------------

  lemma JoinDeniedPlain(l: Link)
    requires l.task.Asking? && Shape(l)
    ensures var l2 := JoinDenied(l);
            && Shape(l2) && Account(l2) <= Account(l) && l2.task.Ready? && l2.next == l.next
            && l2.sent == l.sent && l2.dropped == l.dropped && FlushNow(l) == [] && FlushNow(l2) == [] && HeldNow(l2) == []
            && l2.mem == l.mem && JoiningRooms(l) !! l.mem.Keys
  {
  }

  lemma JoinDeniedKeeps(l: Link, events: seq<Msg>, top: nat)
    requires LinkOk(l, events, top)
    ensures LinkOk(JoinDenied(l), events, top)
  {
    if l.task.Asking? {
      hide Shape, Account, MembershipOk, NotSentSince, OfferedIds, JoinDenied, FlushNow, HeldNow, JoiningRooms;
      var l2 := JoinDenied(l);
      JoinDeniedPlain(l);
      FewerOnce(l, l2, events, top);
      assert HeldOk(l2, events);
      hide Once, HeldOk;
      forall r | r in l2.mem
        ensures MembershipOk(l2, events, top, r)
      {
        FewerMembership(l, l2, events, top, r);
      }
    }
  }

  lemma FewerOnce(l: Link, l2: Link, events: seq<Msg>, top: nat)
    requires Once(l, events, top) && l2.next == l.next && Account(l2) <= Account(l)
    ensures Once(l2, events, top)
  {
    assert forall x :: Account(l2)[x] <= Account(l)[x];
  }

  /** Held messages of another room are given up: this room's memberships do not notice. */
  lemma FewerMembership(l: Link, l2: Link, events: seq<Msg>, top: nat, room: Room)
    requires l2.next == l.next <= |events| && HeldOk(l, events)
    requires l2.sent == l.sent && l2.dropped == l.dropped && FlushNow(l) == []
    requires forall x :: x in FlushNow(l2) ==> x in HeldNow(l)
    requires HeldNow(l2) == []
    requires room !in JoiningRooms(l) && room in l.mem && room in l2.mem && l2.mem[room] == l.mem[room]
    requires !l2.task.Admitted?
    requires MembershipOk(l, events, top, room)
    ensures MembershipOk(l2, events, top, room)
  {
    forall i | 0 <= i < l.next
      ensures events[i].id in Live(l2) ==> events[i].id in Live(l)
      ensures events[i].id in Account(l) && events[i].id !in HeldNow(l) ==> events[i].id in Account(l2)
    {
      InLive(l, events[i].id);
      InLive(l2, events[i].id);
    }
  }

  lemma {:induction false} UncoveredFewer(held: seq<nat>, seenUpTo: nat)
    ensures multiset(Uncovered(held, seenUpTo)) <= multiset(held)
  {
    if held != [] {
      var init, x := held[..|held| - 1], held[|held| - 1];
      UncoveredFewer(init, seenUpTo);
      assert held == init + [x];
      var kept := Uncovered(init, seenUpTo);
      assert Uncovered(held, seenUpTo) == kept + (if x > seenUpTo then [x] else []);
      hide Uncovered;
      assert multiset(kept + [x]) == multiset(kept) + multiset{x} && kept + [] == kept;
    }
  }

  lemma JoinFinishKeeps(l: Link, events: seq<Msg>, top: nat)
    requires LinkOk(l, events, top)
    ensures LinkOk(JoinFinish(l), events, top)
  {
    if l.task.Admitted? {
      var l2 := JoinFinish(l);
      JoinFinishShape(l);
      JoinFinishAccount(l);
      hide Account, Shape, MembershipsOk, JoinFinish;
      FewerOnce(l, l2, events, top);
      hide Once;
      JoinFinishMemberships(l, events, top);
    }
  }

  lemma JoinFinishAccount(l: Link)
    requires l.task.Admitted? && Shape(l)
    ensures var l2 := JoinFinish(l); Account(l2) <= Account(l) && l2.next == l.next && HeldNow(l2) == [] && !l2.task.Asking?
  {
    UncoveredFewer(HeldFor(l.st, l.task.room), l.task.seenUpTo);
  }

  lemma JoinFinishMemberships(l: Link, events: seq<Msg>, top: nat)
    requires LinkOk(l, events, top) && l.task.Admitted?
    ensures MembershipsOk(JoinFinish(l), events, top)
  {
    var l2 := JoinFinish(l);
    FinishedMembership(l, events, top);
    hide Once, MembershipOk, NotSentSince;
    forall r | r in l2.mem
      ensures MembershipOk(l2, events, top, r)
    {
      if r != l.task.room {
        FewerMembership(l, l2, events, top, r);
      }
    }
  }

  lemma JoinFinishShape(l: Link)
    requires Shape(l)
    ensures Shape(JoinFinish(l))
  {
  }

  /** What the replay did not cover stays accounted for; of what it covered, only what was sent before stays live. */
  lemma FinishMoves(l: Link, x: nat)
    requires l.task.Admitted? && Shape(l)
    ensures var l2 := JoinFinish(l);
            && (x in Account(l) && x > l.task.seenUpTo ==> x in Account(l2))
            && (x in Live(l2) && x <= l.task.seenUpTo ==> x in l.sent)
  {
    InLive(l, x);
    InLive(JoinFinish(l), x);
    hide Account, Live;
  }

  lemma FinishedMembership(l: Link, events: seq<Msg>, top: nat)
    requires LinkOk(l, events, top) && l.task.Admitted?
    ensures MembershipOk(JoinFinish(l), events, top, l.task.room)
  {
    var room := l.task.room;
    assert MembershipOk(l, events, top, room);
    JoinFinishMem(l);
    hide Once, HeldOk, AskingOk, MembershipsOk, JoinFinish;
    forall i | 0 <= i < l.next
      ensures events[i].id in Account(l) && events[i].id > l.task.seenUpTo ==> events[i].id in Account(JoinFinish(l))
      ensures events[i].id in Live(JoinFinish(l)) && events[i].id <= l.task.seenUpTo ==> events[i].id in l.sent
    {
      FinishMoves(l, events[i].id);
    }
    hide Account, Live, Shape;
  }

  lemma JoinFinishMem(l: Link)
    requires l.task.Admitted? && Shape(l)
    ensures var l2 := JoinFinish(l);
            && l2.next == l.next && !l2.task.Admitted? && l.task.room in l2.mem
            && l2.mem[l.task.room] == l.mem[l.task.room].(live := Some(l.next))
  {
  }

  lemma FlushOneKeeps(l: Link, queued: bool, events: seq<Msg>, top: nat)
    requires LinkOk(l, events, top)
    ensures LinkOk(FlushOne(l, queued), events, top)
  {
    if l.task.Flushing? {
      hide FlushOne, Shape, HeldOk, AskingOk, MembershipOk, Account, Live, OfferedIds, HeldNow;
      var l2 := FlushOne(l, queued);
      FlushOneMoves(l, queued);
      SameAccount(l, l2, events, top);
      NothingHeld(l2, events);
      assert l.next <= |events|;
      hide Once;
      forall r | r in l2.mem
        ensures MembershipOk(l2, events, top, r)
      {
        FlushedMembership(l, l2, events, top, r);
      }
    }
  }

  lemma SameAccount(l: Link, l2: Link, events: seq<Msg>, top: nat)
    requires Once(l, events, top) && l2.next == l.next && Account(l2) == Account(l)
    ensures Once(l2, events, top)
  {
    hide Account, OfferedIds;
  }

  lemma NothingHeld(l: Link, events: seq<Msg>)
    requires l.next <= |events| && HeldNow(l) == [] && !l.task.Asking?
    ensures HeldOk(l, events) && AskingOk(l, events)
  {
  }

  lemma FlushOneShape(l: Link, queued: bool)
    requires Shape(l)
    ensures Shape(FlushOne(l, queued))
  {
  }

  lemma FlushOneMoves(l: Link, queued: bool)
    requires l.task.Flushing? && Shape(l)
    ensures var l2 := FlushOne(l, queued);
            && Shape(l2) && !l2.task.Admitted? && !l2.task.Asking? && HeldNow(l2) == []
            && Account(l2) == Account(l) && Live(l2) <= Live(l)
            && l.sent <= l2.sent && l.dropped <= l2.dropped
            && l2.next == l.next && l2.mem == l.mem
  {
    FlushOneShape(l, queued);
    hide Shape;
    if l.task.left != [] {
      var x, rest := l.task.left[0], l.task.left[1..];
      assert l.task.left == [x] + rest;
      FlushOnePlaces(l, queued, x, rest);
      hide Live, Account;
    }
  }

  lemma FlushOnePlaces(l: Link, queued: bool, x: nat, rest: seq<nat>)
    requires l.task.Flushing? && l.task.left == [x] + rest
    ensures var l2 := FlushOne(l, queued);
            Account(l2) == Account(l) && Live(l2) <= Live(l) && l.sent <= l2.sent && l.dropped <= l2.dropped
  {
    var l2 := FlushOne(l, queued);
    assert HeldNow(l) == [] && HeldNow(l2) == [] && FlushNow(l2) == rest;
    assert multiset(FlushNow(l)) == multiset{x} + multiset(rest);
    hide HeldNow, FlushNow;
  }

  lemma FlushedMembership(l: Link, l2: Link, events: seq<Msg>, top: nat, room: Room)
    requires l2.next == l.next <= |events| && Account(l2) == Account(l) && Live(l2) <= Live(l)
    requires l.sent <= l2.sent && l.dropped <= l2.dropped
    requires !l.task.Admitted? && !l2.task.Admitted?
    requires room in l.mem && room in l2.mem && l2.mem[room] == l.mem[room]
    requires MembershipOk(l, events, top, room)
    ensures MembershipOk(l2, events, top, room)
  {
  }

  // ---- the fan-out and the hub ----------------------------------------------

  function Gain(l: Link, m: Msg): multiset<int> {
    if FateOf(l.st, m.room) == NotForMe then multiset{} else multiset{m.id}
  }

  lemma OfferShape(l: Link, m: Msg, queued: bool)
    requires Shape(l)
    ensures Shape(Offer(l, m, queued))
  {
  }

  /** What an offer adds to each place. */
  lemma OfferHeld(l: Link, m: Msg, queued: bool)
    requires l.st.joining.Keys == JoiningRooms(l)
    ensures HeldNow(Offer(l, m, queued)) == HeldNow(l) + (if FateOf(l.st, m.room) == Held then [m.id] else [])
    ensures FlushNow(Offer(l, m, queued)) == FlushNow(l)
  {
  }

  /** Exactly one place gains an offered message, or none does. */
  ghost predicate GainsOnce(l: Link, l2: Link, m: Msg) {
    var fate, one := FateOf(l.st, m.room), multiset{m.id};
    && FlushNow(l2) == FlushNow(l)
    && (if fate == Held then multiset(HeldNow(l2)) == multiset(HeldNow(l)) + one else HeldNow(l2) == HeldNow(l))
    && (if fate == Held || fate == NotForMe then l2.sent == l.sent && l2.dropped == l.dropped
        else (l2.sent == l.sent + one && l2.dropped == l.dropped) || (l2.sent == l.sent && l2.dropped == l.dropped + one))
  }

  lemma OfferPlaces(l: Link, m: Msg, queued: bool)
    requires l.st.joining.Keys == JoiningRooms(l)
    ensures GainsOnce(l, Offer(l, m, queued), m)
  {
    OfferHeld(l, m, queued);
    hide HeldNow, FlushNow, JoiningRooms, Offered;
    assert HeldNow(l) + [] == HeldNow(l);
  }

  lemma OnePlaceGains<T>(s: multiset<T>, h: multiset<T>, f: multiset<T>, d: multiset<T>,
                         s2: multiset<T>, h2: multiset<T>, d2: multiset<T>, g: multiset<T>)
    requires || (s2 == s + g && h2 == h && d2 == d)
             || (s2 == s && h2 == h + g && d2 == d)
             || (s2 == s && h2 == h && d2 == d + g)
    ensures (s2 + h2 + f) + d2 == ((s + h + f) + d) + g && s2 + h2 + f <= (s + h + f) + g
  {
  }

  lemma OfferGain(l: Link, m: Msg, queued: bool)
    requires l.st.joining.Keys == JoiningRooms(l)
    ensures Account(Offer(l, m, queued)) == Account(l) + Gain(l, m)
    ensures Live(Offer(l, m, queued)) <= Live(l) + multiset{m.id}
  {
    hide HeldNow, FlushNow, JoiningRooms, Offered, FateOf, Offer;
    OfferPlaces(l, m, queued);
    var l2 := Offer(l, m, queued);
    OnePlaceGains(l.sent, multiset(HeldNow(l)), multiset(FlushNow(l)), l.dropped,
                  l2.sent, multiset(HeldNow(l2)), l2.dropped, Gain(l, m));
    assert Gain(l, m) <= multiset{m.id};
  }

  lemma OfferOut(l: Link, m: Msg, queued: bool)
    ensures var l2 := Offer(l, m, queued);
            && l2.mem == l.mem && l2.task == l.task && l.sent <= l2.sent && l.dropped <= l2.dropped && l2.next == l.next + 1
            && (FateOf(l.st, m.room) == SentNow ==> m.id in l2.sent + l2.dropped)
  {
  }

  lemma GainOnce(l: Link, l2: Link, events: seq<Msg>, top: nat)
    requires Once(l, events, top) && EventsOk(events, top) && l.next < |events| && l2.next == l.next + 1
    requires Account(l2) == Account(l) + Gain(l, events[l.next])
    ensures Once(l2, events, top)
  {
    hide Account;
    var m := events[l.next];
    assert m.id !in Account(l);
  }

  lemma OfferHeldOk(l: Link, queued: bool, events: seq<Msg>)
    requires l.next < |events| && Shape(l) && HeldOk(l, events) && events[l.next].id !in HeldNow(l)
    requires forall i :: 0 <= i < l.next ==> events[i].id != events[l.next].id
    ensures HeldOk(Offer(l, events[l.next], queued), events)
  {
    OfferHeld(l, events[l.next], queued);
    hide HeldNow;
  }

  /** A message offered to a link that is joining its room is not sent yet. */
  lemma OfferNotSent(l: Link, queued: bool, events: seq<Msg>, room: Room, begun: nat)
    requires l.next < |events| && room in l.st.joining && events[l.next].id !in l.sent
    requires forall i :: 0 <= i < l.next ==> events[i].id < events[l.next].id
    requires NotSentSince(l, events, room, begun)
    ensures NotSentSince(Offer(l, events[l.next], queued), events, room, begun)
  {
  }

  /** A message of a room the link is in or entering is accounted for. */
  lemma OfferCounts(l: Link, m: Msg, queued: bool)
    requires Shape(l)
    ensures Account(l) <= Account(Offer(l, m, queued))
    ensures m.room in l.mem ==> m.id in Account(Offer(l, m, queued))
  {
    OfferGain(l, m, queued);
    assert m.room in l.mem ==> Gain(l, m) == multiset{m.id};
    hide Account, Offer, Shape, Gain;
  }

  lemma OfferCovered(l: Link, queued: bool, events: seq<Msg>, room: Room)
    requires l.next < |events| && Shape(l) && room in l.mem && Covered(l, events, room)
    ensures Covered(Offer(l, events[l.next], queued), events, room)
  {
    OfferCounts(l, events[l.next], queued);
    OfferOut(l, events[l.next], queued);
    hide Account, Offer, Shape;
  }

  lemma OfferReplay(l: Link, queued: bool, events: seq<Msg>, room: Room)
    requires l.next < |events| && Shape(l) && room in l.mem && ReplayOk(l, events, room)
    requires forall i :: 0 <= i < l.next ==> events[i].id < events[l.next].id
    requires room in l.st.rooms && l.mem[room].live.Some? && l.mem[room].live.value <= l.next
    ensures ReplayOk(Offer(l, events[l.next], queued), events, room)
  {
    var m := events[l.next];
    assert m.room == room ==> FateOf(l.st, room) == SentNow;
    hide Offer, Live, Account, Shape, Offered, FateOf, JoiningRooms, ReplayOk;
    OfferGain(l, m, queued) by { ShapeJoining(l); }
    OfferOut(l, m, queued);
    ReplayGrows(l, Offer(l, m, queued), events, room);
  }

  lemma ShapeJoining(l: Link)
    requires Shape(l)
    ensures l.st.joining.Keys == JoiningRooms(l)
  {
  }

  lemma ReplayGrows(l: Link, l2: Link, events: seq<Msg>, room: Room)
    requires l.next < |events| && room in l.mem && ReplayOk(l, events, room)
    requires forall i :: 0 <= i < l.next ==> events[i].id < events[l.next].id
    requires l.mem[room].live.Some? && l.mem[room].live.value <= l.next
    requires l2.mem == l.mem && l2.next == l.next + 1 && l.sent <= l2.sent && l.dropped <= l2.dropped
    requires Live(l2) <= Live(l) + multiset{events[l.next].id}
    requires events[l.next].room == room ==> events[l.next].id in l2.sent + l2.dropped
    ensures ReplayOk(l2, events, room)
  {
    hide Live;
    var m := events[l.next];
    forall i | l.mem[room].begun <= i < l2.next && events[i].room == room && events[i].id <= l.mem[room].seenUpTo
      ensures if i < l.mem[room].live.value then events[i].id !in Live(l2) else events[i].id in l2.sent + l2.dropped
    {
      if i < l.next {
        assert events[i].id < m.id;
      }
    }
  }

  lemma OfferMembership(l: Link, queued: bool, events: seq<Msg>, top: nat, room: Room)
    requires l.next < |events| && Shape(l) && room in l.mem && MembershipOk(l, events, top, room)
    requires forall i :: 0 <= i < l.next ==> events[i].id < events[l.next].id
    requires events[l.next].id !in l.sent
    ensures MembershipOk(Offer(l, events[l.next], queued), events, top, room)
  {
    OfferCovered(l, queued, events, room);
    if l.mem[room].live.None? {
      OfferNotSent(l, queued, events, room, l.mem[room].begun);
    } else {
      OfferReplay(l, queued, events, room);
    }
    hide Covered, NotSentSince, Account, Live, Offered;
  }

  lemma OfferAsking(l: Link, queued: bool, events: seq<Msg>)
    requires l.next < |events| && Shape(l) && AskingOk(l, events) && events[l.next].id !in l.sent
    requires forall i :: 0 <= i < l.next ==> events[i].id < events[l.next].id
    ensures AskingOk(Offer(l, events[l.next], queued), events)
  {
    OfferOut(l, events[l.next], queued);
    if l.task.Asking? {
      JoiningIsRoom(l);
      OfferNotSent(l, queued, events, l.task.room, l.task.begun);
    }
    hide Offer, NotSentSince, Shape;
  }

  lemma OfferMemberships(l: Link, queued: bool, events: seq<Msg>, top: nat)
    requires l.next < |events| && Shape(l) && MembershipsOk(l, events, top) && events[l.next].id !in l.sent
    requires forall i :: 0 <= i < l.next ==> events[i].id < events[l.next].id
    ensures MembershipsOk(Offer(l, events[l.next], queued), events, top)
  {
    hide MembershipOk, Shape, Offered;
    var l2 := Offer(l, events[l.next], queued);
    forall r | r in l2.mem
      ensures MembershipOk(l2, events, top, r)
    {
      OfferMembership(l, queued, events, top, r);
    }
  }

  lemma OfferKeeps(l: Link, queued: bool, events: seq<Msg>, top: nat)
    requires LinkOk(l, events, top) && EventsOk(events, top) && l.next < |events|
    ensures LinkOk(Offer(l, events[l.next], queued), events, top)
  {
    var m := events[l.next];
    OfferShape(l, m, queued);
    OfferGain(l, m, queued);
    OfferOut(l, m, queued);
    InLive(l, m.id);
    hide Offer, Account, Live, AskingOk, HeldOk, MembershipsOk, Shape, HeldNow;
    GainOnce(l, Offer(l, m, queued), events, top);
    assert m.id !in Account(l);
    hide Once;
    OfferHeldOk(l, queued, events);
    OfferAsking(l, queued, events);
    OfferMemberships(l, queued, events, top);
  }

  lemma JoiningIsRoom(l: Link)
    requires Shape(l) && l.task.Asking?
    ensures l.task.room in l.st.joining
  {
    assert l.task.room in JoiningRooms(l);
  }

  /** A new message is stored; its event reaches the subscription unless that was full. */
  lemma PostKeeps(l: Link, events: seq<Msg>, top: nat, room: Room, lost: bool)
    requires LinkOk(l, events, top)
    ensures LinkOk(l, if lost then events else events + [Msg(top + 1, room)], top + 1)
  {
    hide Account, Live, HeldNow, Shape;
    var later := if lost then events else events + [Msg(top + 1, room)];
    PostOnce(l, events, top, later, room);
    hide Once;
    forall r | r in l.mem
      ensures MembershipOk(l, later, top + 1, r)
    {
      assert MembershipOk(l, events, top, r);
    }
  }

  lemma PostOnce(l: Link, events: seq<Msg>, top: nat, later: seq<Msg>, room: Room)
    requires Once(l, events, top) && (later == events || later == events + [Msg(top + 1, room)])
    ensures Once(l, later, top + 1)
  {
    hide Account;
    assert forall i :: 0 <= i < l.next ==> later[i] == events[i];
  }

  // ---- the hub's link counts --------------------------------------------------

  /** The hub counts this link in the room: joined, being let in, or on the way out. */
  predicate Holds(l: Link, room: Room) {
    || room in l.st.rooms
    || (l.task.Admitted? && l.task.room == room)
    || (l.task.Leaving? && room in l.task.rooms)
  }

  function Holders(links: map<int, Link>, room: Room, id: Identity): set<int> {
    set k | k in links && links[k].identity == id && Holds(links[k], room)
  }

  ghost predicate CountsOk(s: System) {
    && Presence.Tidy(s.presence)
    && forall r, i :: Presence.Links(s.presence, r, i) == |Holders(s.links, r, i)|
  }

  lemma {:induction false} DropEachCounts(p: Presence.Map, rooms: seq<Room>, id: Identity)
    requires Presence.Tidy(p) && NoRepeats(rooms)
    ensures Presence.Tidy(Presence.DropEach(p, id, rooms))
    ensures forall r, i :: Presence.Links(Presence.DropEach(p, id, rooms), r, i) ==
                           (if r in rooms && i == id && Presence.Links(p, r, i) > 0 then Presence.Links(p, r, i) - 1
                            else Presence.Links(p, r, i))
    decreases |rooms|
  {
    if rooms != [] {
      hide Presence.Tidy, Presence.DropLink, Presence.Links;
      Presence.DropLinkCounts(p, rooms[0], id);
      DropEachCounts(Presence.DropLink(p, rooms[0], id), rooms[1..], id);
      assert forall r :: r in rooms <==> r == rooms[0] || r in rooms[1..];
    }
  }

  /** Replacing a link by one the hub counts in the same rooms changes no count. */
  lemma SameHolders(links: map<int, Link>, k: int, l2: Link, room: Room, id: Identity)
    requires k in links && l2.identity == links[k].identity && Holds(l2, room) == Holds(links[k], room)
    ensures Holders(links[k := l2], room, id) == Holders(links, room, id)
  {
  }

  lemma OneMoreHolder(links: map<int, Link>, k: int, l2: Link, room: Room)
    requires k in links && l2.identity == links[k].identity && Holds(l2, room) && !Holds(links[k], room)
    ensures |Holders(links[k := l2], room, l2.identity)| == |Holders(links, room, l2.identity)| + 1
  {
    assert Holders(links[k := l2], room, l2.identity) == Holders(links, room, l2.identity) + {k};
  }

  lemma OneHolderLess(links: map<int, Link>, k: int, l2: Link, room: Room)
    requires k in links && l2.identity == links[k].identity && !Holds(l2, room) && Holds(links[k], room)
    ensures |Holders(links, room, l2.identity)| > 0
    ensures |Holders(links[k := l2], room, l2.identity)| == |Holders(links, room, l2.identity)| - 1
  {
    assert Holders(links, room, l2.identity) == Holders(links[k := l2], room, l2.identity) + {k};
  }

  // ---- whole runs -------------------------------------------------------------

  /** Steps of one link that the hub takes no part in. */
  datatype Act =
    | DoHello | DoWelcome | DoJoin(room: Room) | DoDenied | DoFinish | DoFlush(queued: bool)
    | DoPart(room: Room) | DoClose | DoOffer(queued: bool)

  function Perform(l: Link, a: Act, events: seq<Msg>): Link {
    match a
    case DoHello => Hello(l)
    case DoWelcome => Welcome(l)
    case DoJoin(room) => JoinStart(l, room)
    case DoDenied => JoinDenied(l)
    case DoFinish => JoinFinish(l)
    case DoFlush(queued) => FlushOne(l, queued)
    case DoPart(room) => Part(l, room)
    case DoClose => Close(l)
    case DoOffer(queued) => if l.next < |events| then Offer(l, events[l.next], queued) else l
  }

  datatype Step =
    | Connect(k: int, identity: Identity, at: nat) // at: how many events the fan-out is done with
    | On(k: int, act: Act)
    | JoinCommit(k: int)
    | LeaveCommit(k: int, order: seq<Room>)
    | Post(room: Room, lost: bool)

  function LastIn(posted: seq<Msg>, room: Room): (last: nat)
  {
    if posted == [] then 0
    else if posted[|posted| - 1].room == room then posted[|posted| - 1].id
    else LastIn(posted[..|posted| - 1], room)
  }

  /** A link sees the events the fan-out has still to offer when it connects. */
  function DoConnect(s: System, k: int, identity: Identity, at: nat): System {
    if k in s.links || at > |s.events| then s
    else s.(links := s.links[k := Link(identity, State(false, {}, map[]), Ready, false, at, multiset{}, multiset{}, map[])])
  }

  function DoAct(s: System, k: int, a: Act): System {
    if k in s.links then s.(links := s.links[k := Perform(s.links[k], a, s.events)]) else s
  }

  /** The hub commits a JOIN; only an identity's first link in the room gets a replay. */
  function DoJoinCommit(s: System, k: int): System {
    if k in s.links && s.links[k].task.Asking? then
      var l := s.links[k];
      var room := l.task.room;
      var seenUpTo := if Presence.Present(s.presence, room, l.identity) then 0 else LastIn(s.posted, room);
      s.(links := s.links[k := JoinAdmitted(l, seenUpTo, |s.posted| + 1)],
         presence := Presence.AddLink(s.presence, room, l.identity))
    else s
  }

  ghost predicate Orders(order: seq<Room>, rooms: set<Room>) {
    NoRepeats(order) && forall r :: r in order <==> r in rooms
  }

  ghost function DoLeaveCommit(s: System, k: int, order: seq<Room>): System {
    if k in s.links && s.links[k].task.Leaving? && Orders(order, s.links[k].task.rooms) then
      s.(links := s.links[k := Left(s.links[k])], presence := Presence.DropEach(s.presence, s.links[k].identity, order))
    else s
  }

  function DoPost(s: System, room: Room, lost: bool): System {
    var m := Msg(|s.posted| + 1, room);
    s.(posted := s.posted + [m], events := if lost then s.events else s.events + [m])
  }

  ghost function Next(s: System, t: Step): System {
    match t
    case Connect(k, identity, at) => DoConnect(s, k, identity, at)
    case On(k, a) => DoAct(s, k, a)
    case JoinCommit(k) => DoJoinCommit(s, k)
    case LeaveCommit(k, order) => DoLeaveCommit(s, k, order)
    case Post(room, lost) => DoPost(s, room, lost)
  }

  ghost function Run(ts: seq<Step>): System
    decreases |ts|
  {
    if ts == [] then System(map[], map[], [], []) else Next(Run(ts[..|ts| - 1]), ts[|ts| - 1])
  }

  ghost predicate LinksOk(s: System) {
    forall k :: k in s.links ==> LinkOk(s.links[k], s.events, |s.posted|)
  }

  ghost predicate LogOk(s: System) {
    && (forall i :: 0 <= i < |s.posted| ==> s.posted[i].id == i + 1)
    && (forall i :: 0 <= i < |s.events| ==> s.events[i] in s.posted)
    && EventsOk(s.events, |s.posted|)
  }

  ghost predicate Inv(s: System) {
    LogOk(s) && LinksOk(s) && CountsOk(s)
  }

  lemma PerformKeeps(l: Link, a: Act, events: seq<Msg>, top: nat)
    requires LinkOk(l, events, top) && EventsOk(events, top)
    ensures LinkOk(Perform(l, a, events), events, top)
  {
    hide LinkOk, EventsOk, Hello, Welcome, JoinStart, JoinDenied, JoinFinish, FlushOne, Part, Close, Offer;
    match a
    case DoHello => HelloKeeps(l, events, top);
    case DoWelcome => WelcomeKeeps(l, events, top);
    case DoJoin(room) => JoinStartKeeps(l, room, events, top);
    case DoDenied => JoinDeniedKeeps(l, events, top);
    case DoFinish => JoinFinishKeeps(l, events, top);
    case DoFlush(queued) => FlushOneKeeps(l, queued, events, top);
    case DoPart(room) => PartKeeps(l, room, events, top);
    case DoClose => CloseKeeps(l, events, top);
    case DoOffer(queued) => if l.next < |events| { OfferKeeps(l, queued, events, top); }
  }

  lemma PerformHolds(l: Link, a: Act, events: seq<Msg>, room: Room)
    requires Shape(l)
    ensures Perform(l, a, events).identity == l.identity
    ensures Holds(Perform(l, a, events), room) == Holds(l, room)
  {
  }

  lemma ActCounts(s: System, k: int, a: Act)
    requires CountsOk(s) && k in s.links && Shape(s.links[k])
    ensures CountsOk(DoAct(s, k, a))
  {
    hide Shape, Perform, Holds, Presence.Tidy, Presence.Links, Holders;
    var l := s.links[k];
    forall r, i
      ensures Holders(DoAct(s, k, a).links, r, i) == Holders(s.links, r, i)
    {
      PerformHolds(l, a, s.events, r);
      SameHolders(s.links, k, Perform(l, a, s.events), r, i);
    }
  }

  lemma ActLinks(s: System, k: int, a: Act)
    requires LogOk(s) && LinksOk(s) && k in s.links
    ensures LinksOk(DoAct(s, k, a))
  {
    hide LinkOk, Perform, EventsOk;
    PerformKeeps(s.links[k], a, s.events, |s.posted|);
  }

  lemma ActKeeps(s: System, k: int, a: Act)
    requires Inv(s)
    ensures Inv(DoAct(s, k, a))
  {
    if k in s.links {
      assert LinkOk(s.links[k], s.events, |s.posted|);
      ActCounts(s, k, a);
      ActLinks(s, k, a);
      hide LinksOk, CountsOk, Perform, EventsOk;
    }
  }

  lemma ConnectKeeps(s: System, k: int, identity: Identity, at: nat)
    requires Inv(s)
    ensures Inv(DoConnect(s, k, identity, at))
  {
    if k !in s.links && at <= |s.events| {
      var l := DoConnect(s, k, identity, at).links[k];
      NewLink(l, s.events, |s.posted|);
      hide LinkOk, LogOk, Presence.Tidy, Presence.Links, Holders;
      forall r, i
        ensures Holders(DoConnect(s, k, identity, at).links, r, i) == Holders(s.links, r, i)
      {
        NewHoldsNothing(s.links, k, l, r, i);
      }
    }
  }

  lemma NewLink(l: Link, events: seq<Msg>, top: nat)
    requires l.next <= |events| && l == Link(l.identity, State(false, {}, map[]), Ready, false, l.next, multiset{}, multiset{}, map[])
    ensures LinkOk(l, events, top)
  {
    assert Account(l) == multiset{};
  }

  lemma NewHoldsNothing(links: map<int, Link>, k: int, l: Link, room: Room, id: Identity)
    requires k !in links && l.st.rooms == {} && l.task.Ready?
    ensures Holders(links[k := l], room, id) == Holders(links, room, id)
  {
  }

  lemma {:induction false} LastInLog(posted: seq<Msg>, room: Room)
    requires forall i :: 0 <= i < |posted| ==> posted[i].id == i + 1
    ensures LastIn(posted, room) <= |posted|
    ensures forall i :: 0 <= i < |posted| && posted[i].room == room ==> posted[i].id <= LastIn(posted, room)
  {
    if posted != [] {
      LastInLog(posted[..|posted| - 1], room);
    }
  }

  lemma JoinCommitKeeps(s: System, k: int)
    requires Inv(s)
    ensures Inv(DoJoinCommit(s, k))
  {
    if k in s.links && s.links[k].task.Asking? {
      assert Shape(s.links[k]) by { assert LinkOk(s.links[k], s.events, |s.posted|); }
      hide LinksOk, CountsOk, LogOk;
      JoinCommitLinks(s, k);
      JoinCommitCounts(s, k);
      hide JoinAdmitted, LastIn, Presence.AddLink, Shape;
      JoinCommitLog(s, k);
    }
  }

  lemma JoinCommitLog(s: System, k: int)
    requires LogOk(s)
    ensures LogOk(DoJoinCommit(s, k))
  {
  }

  lemma JoinCommitLinks(s: System, k: int)
    requires LogOk(s) && LinksOk(s) && k in s.links && s.links[k].task.Asking?
    ensures LinksOk(DoJoinCommit(s, k))
  {
    hide LinkOk, EventsOk, Presence.AddLink, JoinAdmitted;
    var l := s.links[k];
    LastInLog(s.posted, l.task.room);
    JoinAdmittedKeeps(l, LastIn(s.posted, l.task.room), s.events, |s.posted|);
    JoinAdmittedKeeps(l, 0, s.events, |s.posted|);
  }

  lemma JoinCommitCounts(s: System, k: int)
    requires CountsOk(s) && k in s.links && s.links[k].task.Asking? && Shape(s.links[k])
    ensures CountsOk(DoJoinCommit(s, k))
  {
    var l := s.links[k];
    var room := l.task.room;
    var s2 := DoJoinCommit(s, k);
    var l2 := s2.links[k];
    assert forall r :: r != room ==> Holds(l2, r) == Holds(l, r);
    assert Holds(l2, room) && !Holds(l, room) by { assert room in JoiningRooms(l); }
    Presence.AddLinkCounts(s.presence, room, l.identity);
    hide Holds, Holders, Presence.Tidy, Presence.Links, Presence.AddLink;
    forall r, i
      ensures Presence.Links(s2.presence, r, i) == |Holders(s2.links, r, i)|
    {
      if r == room && i == l.identity {
        OneMoreHolder(s.links, k, l2, room);
      } else if r != room {
        SameHolders(s.links, k, l2, r, i);
      } else {
        OtherHolders(s.links, k, l2, r, i);
      }
    }
  }

  lemma OtherHolders(links: map<int, Link>, k: int, l2: Link, room: Room, id: Identity)
    requires k in links && l2.identity == links[k].identity != id
    ensures Holders(links[k := l2], room, id) == Holders(links, room, id)
  {
  }

  lemma LeaveCommitCounts(s: System, k: int, order: seq<Room>)
    requires CountsOk(s) && k in s.links && s.links[k].task.Leaving? && Shape(s.links[k])
    ensures CountsOk(DoLeaveCommit(s, k, order))
  {
    var l := s.links[k];
    if Orders(order, l.task.rooms) {
      var s2 := DoLeaveCommit(s, k, order);
      var l2 := s2.links[k];
      assert forall r :: r !in order ==> Holds(l2, r) == Holds(l, r);
      assert forall r :: r in order ==> !Holds(l2, r) && Holds(l, r);
      DropEachCounts(s.presence, order, l.identity);
      hide Holds, Holders, Presence.Tidy, Presence.Links, Presence.DropEach, Orders, Shape;
      forall r, i
        ensures Presence.Links(s2.presence, r, i) == |Holders(s2.links, r, i)|
      {
        if r in order && i == l.identity {
          OneHolderLess(s.links, k, l2, r);
        } else if r !in order {
          SameHolders(s.links, k, l2, r, i);
        } else {
          OtherHolders(s.links, k, l2, r, i);
        }
      }
    }
  }

  lemma LeaveCommitKeeps(s: System, k: int, order: seq<Room>)
    requires Inv(s)
    ensures Inv(DoLeaveCommit(s, k, order))
  {
    if k in s.links && s.links[k].task.Leaving? {
      var l := s.links[k];
      assert LinkOk(l, s.events, |s.posted|);
      LeaveCommitCounts(s, k, order);
      hide CountsOk, LinkOk, EventsOk, Presence.DropEach, Left, Orders;
      LeftKeeps(l, s.events, |s.posted|);
    }
  }

  lemma PostStepKeeps(s: System, room: Room, lost: bool)
    requires Inv(s)
    ensures Inv(DoPost(s, room, lost))
  {
    hide LogOk, LinkOk, CountsOk;
    PostLog(s, room, lost);
    PostCounts(s, room, lost);
    var s2 := DoPost(s, room, lost);
    forall k | k in s2.links
      ensures LinkOk(s2.links[k], s2.events, |s2.posted|)
    {
      PostKeeps(s.links[k], s.events, |s.posted|, room, lost);
    }
  }

  lemma PostCounts(s: System, room: Room, lost: bool)
    requires CountsOk(s)
    ensures CountsOk(DoPost(s, room, lost))
  {
    hide Presence.Tidy, Presence.Links, Holders;
  }

  lemma PostLog(s: System, room: Room, lost: bool)
    requires LogOk(s)
    ensures LogOk(DoPost(s, room, lost))
  {
  }

  lemma NextKeeps(s: System, t: Step)
    requires Inv(s)
    ensures Inv(Next(s, t))
  {
    hide Inv, DoConnect, DoAct, DoJoinCommit, DoLeaveCommit, DoPost;
    match t
    case Connect(k, identity, at) => ConnectKeeps(s, k, identity, at);
    case On(k, a) => ActKeeps(s, k, a);
    case JoinCommit(k) => JoinCommitKeeps(s, k);
    case LeaveCommit(k, order) => LeaveCommitKeeps(s, k, order);
    case Post(room, lost) => PostStepKeeps(s, room, lost);
  }

  lemma {:induction false} RunKeeps(ts: seq<Step>)
    ensures Inv(Run(ts))
    decreases |ts|
  {
    if ts == [] {
      assert forall r, i :: Holders(Run([]).links, r, i) == {};
    } else {
      hide Inv, Next;
      RunKeeps(ts[..|ts| - 1]);
      NextKeeps(Run(ts[..|ts| - 1]), ts[|ts| - 1]);
    }
  }

  /** No link ever gets a message twice from the fan-out, held messages included. */
  lemma NeverTwice(ts: seq<Step>, k: int, x: nat)
    requires k in Run(ts).links
    ensures Run(ts).links[k].sent[x] + Run(ts).links[k].dropped[x] <= 1
  {
    RunKeeps(ts);
    var l := Run(ts).links[k];
    hide Run;
    assert LinkOk(l, Run(ts).events, |Run(ts).posted|);
    assert Account(l)[x] <= 1;
  }

  /**
   Once the fan-out and the link's worker have caught up, every message stored
   since the JOIN committed whose event was not lost has been sent to the link
   exactly once, or counted as dropped.
   */
  lemma ExactlyOnce(ts: seq<Step>, k: int, room: Room, i: nat)
    requires k in Run(ts).links && room in Run(ts).links[k].mem
    requires Run(ts).links[k].task.Ready? && i < Run(ts).links[k].next && i < |Run(ts).events|
    requires Run(ts).events[i].room == room && Run(ts).events[i].id >= Run(ts).links[k].mem[room].since
    ensures Run(ts).links[k].sent[Run(ts).events[i].id] + Run(ts).links[k].dropped[Run(ts).events[i].id] == 1
  {
    RunKeeps(ts);
    var s := Run(ts);
    var l := s.links[k];
    hide Run;
    assert LinkOk(l, s.events, |s.posted|);
    assert MembershipOk(l, s.events, |s.posted|, room);
    InLive(l, s.events[i].id);
    NeverTwice(ts, k, s.events[i].id);
  }

  /**
   A message the replay covered is sent again, by the fan-out, exactly when its
   event reaches the link after the JOIN has finished; held ones are not.
   */
  lemma ReplayedAgainIffLate(ts: seq<Step>, k: int, room: Room, i: nat)
    requires k in Run(ts).links && room in Run(ts).links[k].mem
    requires Run(ts).links[k].mem[room].live.Some?
    requires Run(ts).links[k].mem[room].begun <= i < Run(ts).links[k].next && i < |Run(ts).events|
    requires Run(ts).events[i].room == room && Run(ts).events[i].id <= Run(ts).links[k].mem[room].seenUpTo
    ensures Run(ts).events[i].id in Run(ts).links[k].sent ==> i >= Run(ts).links[k].mem[room].live.value
    ensures i >= Run(ts).links[k].mem[room].live.value ==>
              Run(ts).links[k].sent[Run(ts).events[i].id] + Run(ts).links[k].dropped[Run(ts).events[i].id] == 1
  {
    RunKeeps(ts);
    var s := Run(ts);
    var l := s.links[k];
    hide Run;
    assert LinkOk(l, s.events, |s.posted|);
    assert MembershipOk(l, s.events, |s.posted|, room);
    InLive(l, s.events[i].id);
    NeverTwice(ts, k, s.events[i].id);
  }

  /** The hub's count for an identity in a room is exactly the links it has there, joins and leaves in transit included. */
  lemma CountsAreLinks(ts: seq<Step>, room: Room, id: Identity)
    ensures Presence.Links(Run(ts).presence, room, id) == |Holders(Run(ts).links, room, id)|
    ensures Presence.Tidy(Run(ts).presence)
  {
    hide Run;
    RunKeeps(ts);
  }

  /** No ghosts: with every link closed and its leaving recorded, nobody is in any room. */
  lemma AllClosedNobodyPresent(ts: seq<Step>)
    requires forall k :: k in Run(ts).links ==> Run(ts).links[k].closed && Run(ts).links[k].task.Ready?
    ensures Run(ts).presence == map[]
  {
    var s := Run(ts);
    RunKeeps(ts);
    hide Run;
    forall r, i
      ensures Presence.Links(s.presence, r, i) == 0
    {
      forall k | k in s.links
        ensures !Holds(s.links[k], r)
      {
        assert Shape(s.links[k]) by { assert LinkOk(s.links[k], s.events, |s.posted|); }
      }
      assert Holders(s.links, r, i) == {};
    }
    if s.presence != map[] {
      Presence.SomeoneThere(s.presence);
    }
  }

  // ---- which messages are missing ------------------------------------------------

  /** For each stored message in turn, whether the subscription had no room for its event. */
  function Losses(ts: seq<Step>): seq<bool> {
    if ts == [] then []
    else Losses(ts[..|ts| - 1]) + (if ts[|ts| - 1].Post? then [ts[|ts| - 1].lost] else [])
  }

  /** The messages whose events were not lost, in order. */
  function Surviving(posted: seq<Msg>, losses: seq<bool>): seq<Msg>
    requires |losses| == |posted|
  {
    if posted == [] then []
    else Surviving(posted[..|posted| - 1], losses[..|posted| - 1]) + (if losses[|posted| - 1] then [] else [posted[|posted| - 1]])
  }

  lemma {:induction false} SurvivingAll(posted: seq<Msg>, losses: seq<bool>)
    requires |losses| == |posted| && forall j :: 0 <= j < |losses| ==> !losses[j]
    ensures Surviving(posted, losses) == posted
  {
    if posted != [] {
      SurvivingAll(posted[..|posted| - 1], losses[..|posted| - 1]);
    }
  }

  lemma {:induction false} SurvivingMembers(posted: seq<Msg>, losses: seq<bool>, j: nat)
    requires |losses| == |posted| && j < |posted| && forall i :: 0 <= i < |posted| ==> posted[i].id == i + 1
    ensures posted[j] in Surviving(posted, losses) <==> !losses[j]
    ensures forall m :: m in Surviving(posted, losses) ==> m in posted
  {
    var init := posted[..|posted| - 1];
    assert posted == init + [posted[|posted| - 1]];
    if j < |init| {
      SurvivingMembers(init, losses[..|init|], j);
    } else if init != [] {
      SurvivingMembers(init, losses[..|init|], 0);
    }
  }

  lemma NextLoses(s: System, t: Step)
    ensures t.Post? ==> Next(s, t).posted == s.posted + [Msg(|s.posted| + 1, t.room)]
    ensures t.Post? ==> Next(s, t).events == if t.lost then s.events else s.events + [Msg(|s.posted| + 1, t.room)]
    ensures !t.Post? ==> Next(s, t).posted == s.posted && Next(s, t).events == s.events
  {
    hide Perform, JoinAdmitted, Presence.AddLink, Presence.DropEach, Orders, Left;
  }

  /** In every run the fan-out's events are exactly the stored messages that were not lost, in the order stored. */
  lemma {:induction false} EventsSurvive(ts: seq<Step>)
    ensures |Losses(ts)| == |Run(ts).posted| && Run(ts).events == Surviving(Run(ts).posted, Losses(ts))
    decreases |ts|
  {
    if ts != [] {
      var s, t := Run(ts[..|ts| - 1]), ts[|ts| - 1];
      EventsSurvive(ts[..|ts| - 1]);
      NextLoses(s, t);
      hide Next;
      if t.Post? {
        assert Run(ts).posted[..|s.posted|] == s.posted;
        assert Losses(ts)[..|s.posted|] == Losses(ts[..|ts| - 1]);
      } else {
        assert Losses(ts) == Losses(ts[..|ts| - 1]);
      }
    }
  }

  /** So when the subscription never overflowed every stored message had its event. */
  lemma NoneLost(ts: seq<Step>)
    requires forall j :: 0 <= j < |Losses(ts)| ==> !Losses(ts)[j]
    ensures Run(ts).events == Run(ts).posted
  {
    EventsSurvive(ts);
    SurvivingAll(Run(ts).posted, Losses(ts));
  }

  /**
   Every message stored since the JOIN committed, once the link has caught up:
   sent to it or counted as dropped, exactly once, if its event was not lost,
   and neither if it was.
   */
  lemma DeliveredUnlessLost(ts: seq<Step>, k: int, room: Room, j: nat)
    requires k in Run(ts).links && room in Run(ts).links[k].mem
    requires Run(ts).links[k].task.Ready? && Run(ts).links[k].next == |Run(ts).events|
    requires j < |Run(ts).posted| && Run(ts).posted[j].room == room && Run(ts).posted[j].id >= Run(ts).links[k].mem[room].since
    ensures j < |Losses(ts)|
    ensures var l := Run(ts).links[k];
            l.sent[j + 1] + l.dropped[j + 1] == if Losses(ts)[j] then 0 else 1
  {
    RunKeeps(ts);
    EventsSurvive(ts);
    var s := Run(ts);
    var l, m := s.links[k], s.posted[j];
    SurvivingMembers(s.posted, Losses(ts), j);
    if Losses(ts)[j] {
      hide Run, Losses, Surviving;
      assert LinkOk(l, s.events, |s.posted|);
      NotOffered(s, l, j);
    } else {
      var i :| 0 <= i < |s.events| && s.events[i] == m;
      ExactlyOnce(ts, k, room, i);
    }
  }

  lemma NotOffered(s: System, l: Link, j: nat)
    requires LogOk(s) && j < |s.posted| && s.posted[j] !in s.events && Once(l, s.events, |s.posted|)
    ensures l.sent[j + 1] == 0 && l.dropped[j + 1] == 0
  {
    forall i | 0 <= i < |s.events|
      ensures s.events[i].id != j + 1
    {
      assert s.events[i] in s.posted;
    }
    assert j + 1 !in OfferedIds(s.events, l.next);
    assert j + 1 !in Account(l);
  }
}
