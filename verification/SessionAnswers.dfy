/** What one offered message comes to on a link, in every run: held, sent, dropped for want of room, or none of its business. */
module SessionAnswers {
  import opened Common
  import opened Sessions
  import opened SessionRuns

  /** The link is joining the room. */
  predicate Entering(l: Link, room: Room) {
    (l.task.Asking? || l.task.Admitted?) && l.task.room == room
  }

  /** Exactly one thing happens to the message, or nothing; nothing else about the link changes. */
  ghost predicate OfferDone(l: Link, l2: Link, m: Msg, queued: bool) {
    && l2.next == l.next + 1 && l2.identity == l.identity && l2.task == l.task && l2.closed == l.closed && l2.mem == l.mem
    && l2.st.welcomed == l.st.welcomed && l2.st.rooms == l.st.rooms && FlushNow(l2) == FlushNow(l)
    && if Entering(l, m.room) && |HeldNow(l)| < 256 then HeldNow(l2) == HeldNow(l) + [m.id] && l2.sent == l.sent && l2.dropped == l.dropped
       else
         && HeldNow(l2) == HeldNow(l)
         && l2.sent == (if m.room in l.st.rooms && queued then l.sent + multiset{m.id} else l.sent)
         && l2.dropped == (if Entering(l, m.room) || (m.room in l.st.rooms && !queued) then l.dropped + multiset{m.id} else l.dropped)
  }

  lemma OfferIs(l: Link, m: Msg, queued: bool)
    requires Shape(l)
    ensures OfferDone(l, Offer(l, m, queued), m, queued)
  {
    assert m.room in l.st.joining <==> Entering(l, m.room) by { assert m.room in JoiningRooms(l) <==> Entering(l, m.room); }
  }

  /** In every run the next event is held by a link that is joining its room, up to 256 of them, sent to one in it, if the queue has room, dropped for want of room only, and ignored by any other. */
  lemma OfferInRun(ts: seq<Step>, k: int, queued: bool)
    requires k in Run(ts).links && Run(ts).links[k].next < |Run(ts).events|
    ensures var s, s2 := Run(ts), Next(Run(ts), On(k, DoOffer(queued)));
            k in s2.links && OfferDone(s.links[k], s2.links[k], s.events[s.links[k].next], queued)
  {
    RunKeeps(ts);
    hide Run, Offer, OfferDone;
    var s := Run(ts);
    assert LinkOk(s.links[k], s.events, |s.posted|);
    hide LinkOk;
    assert Shape(s.links[k]) by { LinkShape(s.links[k], s.events, |s.posted|); }
    OfferIs(s.links[k], s.events[s.links[k].next], queued);
  }

  lemma LinkShape(l: Link, events: seq<Msg>, top: nat)
    requires LinkOk(l, events, top)
    ensures Shape(l)
  {
    hide Once, HeldOk, AskingOk, MembershipsOk;
  }

  /** A link that has been let in is there: at the end of the JOIN it is in the room, and what the replay did not cover goes out in order. */
  lemma FinishIs(l: Link)
    requires Shape(l) && l.task.Admitted?
    ensures var l2 := JoinFinish(l);
            && l2.st.rooms == l.st.rooms + {l.task.room} && !Entering(l2, l.task.room)
            && l2.task.Flushing? && SubsequenceAbove(l2.task.left, HeldNow(l), l.task.seenUpTo)
            && l2.sent == l.sent && l2.dropped == l.dropped
  {
    UncoveredIs(HeldFor(l.st, l.task.room), l.task.seenUpTo);
  }

  /** The ids above seenUpTo, in the order held. */
  ghost predicate SubsequenceAbove(out: seq<nat>, held: seq<nat>, seenUpTo: nat)
    decreases |held|
  {
    if held == [] then out == []
    else if held[0] > seenUpTo then out != [] && out[0] == held[0] && SubsequenceAbove(out[1..], held[1..], seenUpTo)
    else SubsequenceAbove(out, held[1..], seenUpTo)
  }

  lemma {:induction false} UncoveredIs(held: seq<nat>, seenUpTo: nat)
    ensures SubsequenceAbove(Uncovered(held, seenUpTo), held, seenUpTo)
    decreases |held|
  {
    if held != [] {
      UncoveredFirst(held, seenUpTo);
      UncoveredIs(held[1..], seenUpTo);
      var rest := Uncovered(held[1..], seenUpTo);
      hide Uncovered;
      assert ([held[0]] + rest)[1..] == rest && [] + rest == rest;
    }
  }

  lemma {:induction false} UncoveredFirst(held: seq<nat>, seenUpTo: nat)
    requires held != []
    ensures Uncovered(held, seenUpTo) == (if held[0] > seenUpTo then [held[0]] else []) + Uncovered(held[1..], seenUpTo)
    decreases |held|
  {
    var init := held[..|held| - 1];
    if init == [] {
      assert held == [held[0]] && held[1..] == [];
    } else {
      UncoveredFirst(init, seenUpTo);
      assert held[1..][..|held| - 2] == init[1..];
      assert held[1..][|held| - 2] == held[|held| - 1];
    }
  }

  /** A PART, a close or a repeated HELLO leaves at the hub exactly the rooms the link was in. */
  lemma LeavingIs(l: Link, room: Room)
    requires Shape(l) && l.task.Ready? && !l.closed
    ensures Part(l, room).task == (if room in l.st.rooms then Leaving({room}) else Ready)
    ensures Part(l, room).st.rooms == l.st.rooms - {room}
    ensures Close(l).closed && Close(l).st.rooms == {} && Close(l).task == (if l.st.rooms != {} then Leaving(l.st.rooms) else Ready)
    ensures Hello(l).st.rooms == {} && Hello(l).task == (if l.st.rooms != {} then Leaving(l.st.rooms) else Ready) && !Hello(l).st.welcomed
    ensures Welcome(l).st.welcomed && Welcome(l).st.rooms == l.st.rooms
    ensures JoinStart(l, room).task == (if l.st.welcomed && room !in l.st.rooms then Asking(room, l.next) else Ready)
  {
  }
}
