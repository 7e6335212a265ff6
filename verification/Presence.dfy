/**
 Who is in which room over RRC: for each room, the identities present and how
 many links of each have joined.
 */
module Presence {
  import opened Common

  type Map = map<Room, map<Identity, nat>>

  /** rrcLinks of an identity in a room; 0 means not present. */
  function Links(p: Map, room: Room, id: Identity): nat {
    if room in p && id in p[room] then p[room][id] else 0
  }

  /** No room is kept without anyone in it, and nobody is kept without a link. */
  predicate Tidy(p: Map) {
    forall room :: room in p ==> p[room] != map[] && forall id :: id in p[room] ==> p[room][id] > 0
  }

  function Members(p: Map, room: Room): map<Identity, nat> {
    if room in p then p[room] else map[]
  }

  /** One more link of id is in the room. */
  function AddLink(p: Map, room: Room, id: Identity): Map {
    p[room := Members(p, room)[id := Links(p, room, id) + 1]]
  }

  /** Every link of id leaves the room. */
  function Forget(p: Map, room: Room, id: Identity): Map {
    if Links(p, room, id) == 0 then p
    else if p[room] - {id} == map[] then p - {room}
    else p[room := p[room] - {id}]
  }

  /** One link of id leaves the room. */
  function DropLink(p: Map, room: Room, id: Identity): Map {
    var left: nat := if Links(p, room, id) > 1 then Links(p, room, id) - 1 else 0;
    if left > 0 then p[room := Members(p, room)[id := left]] else Forget(p, room, id)
  }

  /** One link of id leaves several rooms, in the given order. */
  function DropEach(p: Map, id: Identity, rooms: seq<Room>): Map
    decreases |rooms|
  {
    if rooms == [] then p else DropEach(DropLink(p, rooms[0], id), id, rooms[1..])
  }

  predicate Present(p: Map, room: Room, id: Identity) {
    Links(p, room, id) > 0
  }

  lemma AddLinkCounts(p: Map, room: Room, id: Identity)
    requires Tidy(p)
    ensures Tidy(AddLink(p, room, id))
    ensures forall r, i :: Links(AddLink(p, room, id), r, i) == Links(p, r, i) + (if r == room && i == id then 1 else 0)
  {
    assert id in AddLink(p, room, id)[room];
  }

  lemma ForgetCounts(p: Map, room: Room, id: Identity)
    requires Tidy(p)
    ensures Tidy(Forget(p, room, id))
    ensures forall r, i :: Links(Forget(p, room, id), r, i) == (if r == room && i == id then 0 else Links(p, r, i))
  {
    if Links(p, room, id) > 0 {
      var rest := p[room] - {id};
      assert forall i :: i in p[room] && i != id ==> i in rest;
    }
  }

  lemma DropLinkCounts(p: Map, room: Room, id: Identity)
    requires Tidy(p)
    ensures Tidy(DropLink(p, room, id))
    ensures forall r, i :: Links(DropLink(p, room, id), r, i) ==
                           (if r == room && i == id && Links(p, r, i) > 0 then Links(p, r, i) - 1 else Links(p, r, i))
  {
    ForgetCounts(p, room, id);
    if Links(p, room, id) > 1 {
      assert id in DropLink(p, room, id)[room];
    }
  }

  lemma SomeoneThere(p: Map)
    requires Tidy(p) && p != map[]
    ensures exists r, i :: Links(p, r, i) > 0
  {
    assert (forall r :: r !in p) ==> p == map[];
    var r :| r in p;
    var there := p[r];
    assert (forall i :: i !in there) ==> there == map[];
    var i :| i in there;
    assert Links(p, r, i) > 0;
  }
}
