/**
 One RRC link: what its session holds, and what happens to a room message that
 reaches it while it is outside, joining, or inside the room.
 */
module Sessions {
  import opened Common

  /** The most messages a link holds while one JOIN is under way. */
  const MAX_BUFFERED := 256

  /** joining maps a room whose JOIN is under way to the ids of the messages held for it. */
  datatype State = State(welcomed: bool, rooms: set<Room>, joining: map<Room, seq<nat>>)

  /** What becomes of a message offered to a link. */
  datatype Fate = Held | Overflow | SentNow | NotForMe

  function FateOf(st: State, room: Room): Fate {
    if room in st.joining then (if |st.joining[room]| < MAX_BUFFERED then Held else Overflow)
    else if st.welcomed && room in st.rooms then SentNow
    else NotForMe
  }

  function Offered(st: State, room: Room, id: nat): State {
    if FateOf(st, room) == Held then st.(joining := st.joining[room := st.joining[room] + [id]]) else st
  }

  function JoinBegun(st: State, room: Room): State {
    st.(joining := st.joining[room := []])
  }

  function JoinRefused(st: State, room: Room): State {
    st.(joining := st.joining - {room})
  }

  /** The link is in the room from here on. */
  function JoinFinished(st: State, room: Room): State {
    st.(joining := st.joining - {room}, rooms := st.rooms + {room})
  }

  function HeldFor(st: State, room: Room): seq<nat> {
    if room in st.joining then st.joining[room] else []
  }

  /** The held messages the replay did not cover, in the order they arrived. */
  function Uncovered(held: seq<nat>, seenUpTo: nat): (out: seq<nat>)
    ensures forall x :: x in out <==> x in held && x > seenUpTo
    ensures |out| <= |held|
  {
    if held == [] then []
    else Uncovered(held[..|held| - 1], seenUpTo) + (if held[|held| - 1] > seenUpTo then [held[|held| - 1]] else [])
  }

  /** A HELLO, first or repeated, starts the session afresh. */
  function HelloReceived(st: State): State {
    st.(welcomed := false, rooms := {})
  }

  function Welcomed(st: State): State {
    st.(welcomed := true)
  }

  function Parted(st: State, room: Room): State {
    st.(rooms := st.rooms - {room})
  }

  /** The session object, shared between the link's worker and the fan-out. */
  class Session {
    var welcomed: bool
    var rooms: set<Room>
    var joining: map<Room, seq<nat>>
    var out: seq<nat> // messages put on the send queue
    var dropped: nat  // messages counted as dropped

    ghost function View(): State
      reads this
    {
      State(welcomed, rooms, joining)
    }

    constructor ()
      ensures View() == State(false, {}, map[]) && out == [] && dropped == 0
    {
      welcomed, rooms, joining, out, dropped := false, {}, map[], [], 0;
    }

    method OfferMessage(room: Room, id: nat)
      modifies this
      ensures View() == Offered(old(View()), room, id)
      ensures out == old(out) + (if FateOf(old(View()), room) == SentNow then [id] else [])
      ensures dropped == old(dropped) + (if FateOf(old(View()), room) == Overflow then 1 else 0)
    {
      if room in joining {
        var buf := joining[room];
        if |buf| < MAX_BUFFERED {
          joining := joining[room := buf + [id]];
        } else {
          dropped := dropped + 1;
        }
        return;
      }
      if welcomed && room in rooms {
        out := out + [id];
      }
    }

    method BeginJoin(room: Room)
      modifies this`joining
      ensures View() == JoinBegun(old(View()), room)
    {
      joining := joining[room := []];
    }

    method RefuseJoin(room: Room)
      modifies this`joining
      ensures View() == JoinRefused(old(View()), room)
    {
      joining := joining - {room};
    }

    /** After JOINED and the replay are queued: enter the room, then send what the replay did not cover. */
    method FinishJoin(room: Room, seenUpTo: nat)
      modifies this
      ensures View() == JoinFinished(old(View()), room)
      ensures out == old(out) + Uncovered(HeldFor(old(View()), room), seenUpTo)
      ensures dropped == old(dropped)
    {
      var held := if room in joining then joining[room] else [];
      joining := joining - {room};
      rooms := rooms + {room};
      for i := 0 to |held|
        invariant View() == JoinFinished(old(View()), room) && dropped == old(dropped)
        invariant out == old(out) + Uncovered(held[..i], seenUpTo)
      {
        assert held[..i + 1][..i] == held[..i];
        if held[i] > seenUpTo {
          out := out + [held[i]];
        }
      }
      assert held[..|held|] == held;
    }

    /** HELLO; the rooms returned are left at the hub when this was a re-HELLO. */
    method Hello() returns (toLeave: set<Room>)
      modifies this`welcomed, this`rooms
      ensures View() == HelloReceived(old(View()))
      ensures toLeave == if old(welcomed) then old(rooms) else {}
    {
      toLeave := if welcomed then rooms else {};
      rooms, welcomed := {}, false;
    }

    /** PART; only a link that was in the room leaves it at the hub. */
    method Part(room: Room) returns (was: bool)
      modifies this`rooms
      ensures View() == Parted(old(View()), room)
      ensures was == (room in old(rooms))
    {
      was := room in rooms;
      rooms := rooms - {room};
    }
  }
}
