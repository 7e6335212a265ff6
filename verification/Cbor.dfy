/**
 The part of CBOR (section 3 of RFC 8949) that envelopes use: heads, one
 well-formed item with everything in it, and maps with unsigned integer keys.
 Indefinite lengths and tags are refused, and nesting and sizes are bounded.
 */
module Cbor {
  import opened Common
  import opened Utf8

  const MAX_ELEMENTS := 256
  const MAX_LEVELS := 8

  // ---- integers ----------------------------------------------------------------------

  function Pow256(k: nat): nat {
    if k == 0 then 1 else 256 * Pow256(k - 1)
  }

  /** n in k bytes, most significant first. */
  function BigEndian(n: nat, k: nat): (b: Bytes)
    ensures |b| == k
  {
    if k == 0 then [] else BigEndian(n / 256, k - 1) + [n % 256]
  }

  function Value(b: Bytes): nat {
    if b == [] then 0 else Value(b[..|b| - 1]) * 256 + b[|b| - 1]
  }

  lemma {:induction false} ValueOfBigEndian(n: nat, k: nat)
    requires n < Pow256(k)
    ensures Value(BigEndian(n, k)) == n
  {
    if k > 0 {
      ValueOfBigEndian(n / 256, k - 1);
      var b := BigEndian(n, k);
      assert b[..k - 1] == BigEndian(n / 256, k - 1);
    }
  }

  const U64: nat := 0x1_0000_0000_0000_0000

  lemma Powers()
    ensures Pow256(2) == 0x1_0000 && Pow256(4) == 0x1_0000_0000 && Pow256(8) == U64
  {
    assert Pow256(1) == 256;
    assert Pow256(2) == 0x1_0000;
    assert Pow256(3) == 0x100_0000;
    assert Pow256(4) == 0x1_0000_0000;
    assert Pow256(5) == 0x100_0000_0000;
    assert Pow256(6) == 0x1_0000_0000_0000;
    assert Pow256(7) == 0x100_0000_0000_0000;
  }

  // ---- heads ---------------------------------------------------------------------------

  datatype Head = Head(major: nat, info: nat, arg: nat, len: nat)

  /** The shortest head, as deterministic encoding asks for. */
  function WriteHead(major: nat, n: nat): (b: Bytes)
    requires major < 8 && n < U64
    ensures 1 <= |b| <= 9
    ensures n < 0x1_0000 ==> |b| <= 3
    ensures n < 256 ==> |b| <= 2
    ensures n < 24 ==> |b| == 1
  {
    if n < 24 then [major * 32 + n]
    else if n < 256 then [major * 32 + 24, n]
    else if n < 0x1_0000 then [major * 32 + 25] + BigEndian(n, 2)
    else if n < 0x1_0000_0000 then [major * 32 + 26] + BigEndian(n, 4)
    else [major * 32 + 27] + BigEndian(n, 8)
  }

  /** How many bytes of argument follow the first byte; none for reserved and indefinite lengths. */
  function ArgLen(info: nat): Option<nat> {
    if info < 24 then Some(0)
    else if info == 24 then Some(1)
    else if info == 25 then Some(2)
    else if info == 26 then Some(4)
    else if info == 27 then Some(8)
    else None
  }

  function ReadHead(b: Bytes): (h: Option<Head>)
    ensures h.Some? ==> 1 <= h.value.len <= |b| && h.value.major < 8
  {
    if b == [] then None
    else
      var info := b[0] % 32;
      var k := ArgLen(info);
      if k.None? || |b| < 1 + k.value then None
      else Some(Head(b[0] / 32, info, if info < 24 then info else Value(b[1..1 + k.value]), 1 + k.value))
  }

  lemma ValueOfOne(n: Byte)
    ensures Value([n]) == n
  {
    assert [n][..0] == [];
    assert Value([]) == 0;
  }

  /** A head reads back, whatever follows it. */
  lemma HeadReadsBack(major: nat, n: nat, rest: Bytes)
    requires major < 8 && n < U64
    ensures var h := ReadHead(WriteHead(major, n) + rest);
            h.Some? && h.value.major == major && h.value.arg == n && h.value.len == |WriteHead(major, n)|
  {
    hide Value, BigEndian, Pow256;
    if n < 24 {
    } else if n < 256 {
      assert (WriteHead(major, n) + rest)[1..2] == [n];
      ValueOfOne(n);
    } else {
      Powers();
      WideHead(major, n, rest, if n < 0x1_0000 then 2 else if n < 0x1_0000_0000 then 4 else 8);
    }
  }

  lemma WideHead(major: nat, n: nat, rest: Bytes, k: nat)
    requires major < 8 && (k == 2 || k == 4 || k == 8) && n < Pow256(k)
    ensures var b := [major * 32 + (if k == 2 then 25 else if k == 4 then 26 else 27)] + BigEndian(n, k) + rest;
            && ReadHead(b).Some? && ReadHead(b).value.major == major && ReadHead(b).value.arg == n && ReadHead(b).value.len == 1 + k
  {
    hide Value, BigEndian, Pow256;
    var b := [major * 32 + (if k == 2 then 25 else if k == 4 then 26 else 27)] + BigEndian(n, k) + rest;
    assert b[1..1 + k] == BigEndian(n, k);
    ValueOfBigEndian(n, k);
  }

  /** A head depends on its own bytes only. */
  lemma HeadLocal(b: Bytes, c: Bytes)
    requires ReadHead(b).Some? && ReadHead(b).value.len <= |c| && c[..ReadHead(b).value.len] == b[..ReadHead(b).value.len]
    ensures ReadHead(c) == ReadHead(b)
  {
    var n := ReadHead(b).value.len;
    assert c[0] == c[..n][0] == b[..n][0] == b[0];
    assert c[1..n] == c[..n][1..n] == b[..n][1..n] == b[1..n];
    hide Value;
  }

  // ---- items -----------------------------------------------------------------------------

  /** The length of the item b starts with, if that is well formed and nests at most `levels` deep. */
  function ItemLen(b: Bytes, levels: nat): (n: Option<nat>)
    ensures n.Some? ==> 1 <= n.value <= |b|
    decreases levels, 0, 0
  {
    var h := ReadHead(b);
    if h.None? then None
    else ItemBody(b, h.value, levels)
  }

  function ItemBody(b: Bytes, h: Head, levels: nat): (n: Option<nat>)
    requires 1 <= h.len <= |b|
    ensures n.Some? ==> h.len <= n.value <= |b|
    decreases levels, 0, 0, 0
  {
    if h.major <= 1 then Some(h.len)
    else if h.major <= 3 then (if h.len + h.arg <= |b| then Some(h.len + h.arg) else None)
    else if h.major <= 5 then
      if levels == 0 || h.arg > MAX_ELEMENTS then None
      else
        var n := ItemsLen(b[h.len..], if h.major == 4 then h.arg else 2 * h.arg, levels - 1);
        if n.None? then None else Some(h.len + n.value)
    else if h.major == 6 || (h.info == 24 && h.arg < 32) then None
    else Some(h.len)
  }

  function ItemsLen(b: Bytes, count: nat, levels: nat): (n: Option<nat>)
    ensures n.Some? ==> n.value <= |b|
    decreases levels, 1, count
  {
    if count == 0 then Some(0)
    else
      var first := ItemLen(b, levels);
      if first.None? then None
      else
        var rest := ItemsLen(b[first.value..], count - 1, levels);
        if rest.None? then None else Some(first.value + rest.value)
  }

  ghost predicate Agrees(b: Bytes, c: Bytes, n: nat) {
    n <= |b| && n <= |c| && c[..n] == b[..n]
  }

  lemma AgreesLess(b: Bytes, c: Bytes, n: nat, k: nat)
    requires Agrees(b, c, n) && k <= n
    ensures Agrees(b, c, k) && Agrees(b[k..], c[k..], n - k)
  {
    assert c[..k] == c[..n][..k] == b[..n][..k] == b[..k];
    assert c[k..][..n - k] == c[..n][k..] == b[..n][k..] == b[k..][..n - k];
  }

  /** An item is decided by its own bytes. */
  lemma {:induction false} ItemLocal(b: Bytes, c: Bytes, levels: nat)
    requires ItemLen(b, levels).Some? && Agrees(b, c, ItemLen(b, levels).value)
    ensures ItemLen(c, levels) == ItemLen(b, levels)
    decreases levels, 0, 0
  {
    var h := ReadHead(b).value;
    var n := ItemLen(b, levels).value;
    AgreesLess(b, c, n, h.len);
    HeadLocal(b, c);
    if h.major == 4 || h.major == 5 {
      ItemsLocal(b[h.len..], c[h.len..], if h.major == 4 then h.arg else 2 * h.arg, levels - 1);
    }
    hide ReadHead;
  }

  lemma {:induction false} ItemsLocal(b: Bytes, c: Bytes, count: nat, levels: nat)
    requires ItemsLen(b, count, levels).Some? && Agrees(b, c, ItemsLen(b, count, levels).value)
    ensures ItemsLen(c, count, levels) == ItemsLen(b, count, levels)
    decreases levels, 1, count
  {
    if count > 0 {
      var n := ItemsLen(b, count, levels).value;
      var k := ItemLen(b, levels).value;
      AgreesLess(b, c, n, k);
      ItemLocal(b, c, levels);
      ItemsLocal(b[k..], c[k..], count - 1, levels);
    }
  }

  /** Exactly one item. */
  ghost predicate IsItem(b: Bytes, levels: nat) {
    ItemLen(b, levels) == Some(|b|)
  }

  lemma ItemThenRest(b: Bytes, rest: Bytes, levels: nat)
    requires IsItem(b, levels)
    ensures ItemLen(b + rest, levels) == Some(|b|) && (b + rest)[|b|..] == rest
  {
    assert (b + rest)[..|b|] == b == b[..|b|];
    ItemLocal(b, b + rest, levels);
  }

  function WriteString(major: nat, s: Bytes): Bytes
    requires major < 8 && |s| < U64
  {
    WriteHead(major, |s|) + s
  }

  lemma UintIsItem(n: nat, levels: nat)
    requires n < U64
    ensures IsItem(WriteHead(0, n), levels)
  {
    var b := WriteHead(0, n);
    HeadReadsBack(0, n, []);
    assert b + [] == b;
    hide ReadHead, WriteHead;
    assert ItemLen(b, levels) == ItemBody(b, ReadHead(b).value, levels);
  }

  lemma StringIsItem(major: nat, s: Bytes, levels: nat)
    requires (major == 2 || major == 3) && |s| < U64
    ensures IsItem(WriteString(major, s), levels)
  {
    var b := WriteString(major, s);
    HeadReadsBack(major, |s|, s);
    hide ReadHead, WriteHead;
    assert ItemLen(b, levels) == ItemBody(b, ReadHead(b).value, levels);
  }

  // ---- maps ------------------------------------------------------------------------------

  lemma {:induction false} HasLeast(s: set<nat>)
    requires s != {}
    ensures exists k :: k in s && forall j :: j in s ==> k <= j
  {
    var x :| x in s;
    var rest := s - {x};
    if rest == {} {
      assert forall j :: j in s ==> j == x || j in rest;
      assert x in s && forall j :: j in s ==> x <= j;
    } else {
      HasLeast(rest);
      var k :| k in rest && forall j :: j in rest ==> k <= j;
      assert forall j :: j in s && j != x ==> j in rest;
      SmallerOfTwo(s, x, k);
    }
  }

  lemma SmallerOfTwo(s: set<nat>, x: nat, k: nat)
    requires x in s && k in s && forall j :: j in s && j != x ==> k <= j
    ensures exists least :: least in s && forall j :: j in s ==> least <= j
  {
    var least := if k <= x then k else x;
    assert least in s && forall j :: j in s ==> least <= j;
  }

  function Least(s: set<nat>): (k: nat)
    requires s != {}
    ensures k in s && forall j :: j in s ==> k <= j
  {
    HasLeast(s);
    var k :| k in s && forall j :: j in s ==> k <= j;
    k
  }

  /** The keys in order, as deterministic encoding asks for. */
  function InOrder(s: set<nat>): (ks: seq<nat>)
    ensures |ks| == |s|
    ensures forall k :: k in ks <==> k in s
  {
    if s == {} then [] else [Least(s)] + InOrder(s - {Least(s)})
  }

  function WritePairs(m: map<nat, Bytes>, ks: seq<nat>): Bytes
    requires forall k :: k in ks ==> k in m && k < U64
    decreases |ks|
  {
    if ks == [] then []
    else
      assert ks[0] in ks && forall k :: k in ks[1..] ==> k in ks;
      WriteHead(0, ks[0]) + (m[ks[0]] + WritePairs(m, ks[1..]))
  }

  function WriteMap(m: map<nat, Bytes>): Bytes
    requires |m| < U64 && forall k :: k in m ==> k < U64
  {
    WriteHead(5, |m.Keys|) + WritePairs(m, InOrder(m.Keys))
  }

  datatype Error = NotMap | Malformed | BadKey

  datatype Result<T> = Ok(value: T) | Err(error: Error)

  /** Pairs of an unsigned key and an item; a repeated key is malformed. */
  function ReadPairs(b: Bytes, count: nat, levels: nat): Result<map<nat, Bytes>>
    decreases count
  {
    if count == 0 then Ok(map[])
    else
      var key := ItemLen(b, levels);
      if key.None? then Err(Malformed)
      else
        var value := ItemLen(b[key.value..], levels);
        if value.None? then Err(Malformed)
        else
          var rest := ReadPairs(b[key.value + value.value..], count - 1, levels);
          if rest.Err? then rest
          else if ReadHead(b).None? || ReadHead(b).value.major != 0 then Err(BadKey)
          else if ReadHead(b).value.arg in rest.value then Err(Malformed)
          else Ok(rest.value[ReadHead(b).value.arg := b[key.value..key.value + value.value]])
  }

  function ReadMap(b: Bytes): Result<map<nat, Bytes>> {
    if b == [] || b[0] / 32 != 5 then Err(NotMap)
    else if ItemLen(b, MAX_LEVELS) != Some(|b|) || ReadHead(b).None? then Err(Malformed)
    else ReadPairs(b[ReadHead(b).value.len..], ReadHead(b).value.arg, MAX_LEVELS - 1)
  }

  /** A map that fits in an envelope: 64-bit keys, one well-formed item each, not too many. */
  ghost predicate MapOk(m: map<nat, Bytes>) {
    |m| <= MAX_ELEMENTS && forall k :: k in m ==> k < U64 && IsItem(m[k], MAX_LEVELS - 1)
  }

  function Restrict(m: map<nat, Bytes>, ks: seq<nat>): map<nat, Bytes> {
    map k | k in ks && k in m :: m[k]
  }

  lemma {:induction false} InOrderSorted(s: set<nat>)
    ensures forall i, j :: 0 <= i < j < |InOrder(s)| ==> InOrder(s)[i] < InOrder(s)[j]
  {
    if s != {} {
      var rest := s - {Least(s)};
      InOrderSorted(rest);
      var ks := InOrder(rest);
      forall j | 0 <= j < |ks|
        ensures Least(s) < ks[j]
      {
        assert ks[j] in ks;
      }
    }
  }

  /** A written pair reads back as its key and value, leaving what follows. */
  lemma PairReadsBack(k: nat, v: Bytes, rest: Bytes, levels: nat)
    requires k < U64 && IsItem(v, levels)
    ensures var b := WriteHead(0, k) + (v + rest);
            && ReadHead(b).Some? && ReadHead(b).value.major == 0 && ReadHead(b).value.arg == k
            && ItemLen(b, levels) == Some(|WriteHead(0, k)|)
            && b[|WriteHead(0, k)|..] == v + rest
            && ItemLen(v + rest, levels) == Some(|v|)
            && b[|WriteHead(0, k)|..|WriteHead(0, k)| + |v|] == v
            && b[|WriteHead(0, k)| + |v|..] == rest
  {
    HeadReadsBack(0, k, v + rest);
    UintIsItem(k, levels);
    ItemThenRest(WriteHead(0, k), v + rest, levels);
    ItemThenRest(v, rest, levels);
    hide ReadHead, WriteHead, ItemLen, IsItem;
    var h, b := WriteHead(0, k), WriteHead(0, k) + (v + rest);
    assert b == (h + v) + rest;
  }

  /** The pairs written, read back. */
  ghost predicate PairsOk(b: Bytes, m: map<nat, Bytes>, count: nat, levels: nat) {
    ItemsLen(b, 2 * count, levels) == Some(|b|) && ReadPairs(b, count, levels) == Ok(m)
  }

  ghost predicate KeysOk(m: map<nat, Bytes>, ks: seq<nat>, levels: nat) {
    NoRepeats(ks) && forall k :: k in ks ==> k in m && k < U64 && IsItem(m[k], levels)
  }

  lemma {:induction false} PairsReadBack(m: map<nat, Bytes>, ks: seq<nat>, levels: nat)
    requires KeysOk(m, ks, levels)
    ensures PairsOk(WritePairs(m, ks), Restrict(m, ks), |ks|, levels)
    decreases |ks|
  {
    if ks == [] {
      assert Restrict(m, ks) == map[];
    } else {
      assert ks[0] in ks && ks[0] in m && ks[0] < U64 && IsItem(m[ks[0]], levels);
      KeysRest(m, ks, levels);
      RestrictMore(m, ks);
      assert WritePairs(m, ks) == WriteHead(0, ks[0]) + (m[ks[0]] + WritePairs(m, ks[1..]));
      hide KeysOk, PairsOk, WriteHead, IsItem, WritePairs, Restrict;
      PairsReadBack(m, ks[1..], levels);
      PairFirst(ks[0], m[ks[0]], WritePairs(m, ks[1..]), Restrict(m, ks[1..]), |ks| - 1, levels);
    }
  }

  lemma KeysRest(m: map<nat, Bytes>, ks: seq<nat>, levels: nat)
    requires ks != [] && KeysOk(m, ks, levels)
    ensures KeysOk(m, ks[1..], levels)
  {
    hide IsItem;
    assert forall k :: k in ks[1..] ==> k in ks;
  }

  /** One more pair in front. */
  lemma PairFirst(k: nat, v: Bytes, rest: Bytes, m: map<nat, Bytes>, count: nat, levels: nat)
    requires k < U64 && IsItem(v, levels) && PairsOk(rest, m, count, levels) && k !in m
    ensures PairsOk(WriteHead(0, k) + (v + rest), m[k := v], count + 1, levels)
  {
    hide ReadHead, WriteHead, ItemLen, IsItem, ItemsLen, ReadPairs;
    var b := WriteHead(0, k) + (v + rest);
    PairReadsBack(k, v, rest, levels);
    PairItems(b, |WriteHead(0, k)|, v + rest, |v|, rest, 2 * count, levels);
    PairRead(b, |WriteHead(0, k)|, v + rest, |v|, rest, count, levels, k, m);
  }

  lemma RestrictMore(m: map<nat, Bytes>, ks: seq<nat>)
    requires ks != [] && NoRepeats(ks) && forall k :: k in ks ==> k in m
    ensures ks[0] in m && ks[0] !in Restrict(m, ks[1..]) && Restrict(m, ks) == Restrict(m, ks[1..])[ks[0] := m[ks[0]]]
  {
    assert ks[0] in ks && ks[0] !in ks[1..];
    assert forall k :: k in ks <==> k == ks[0] || k in ks[1..];
  }

  lemma PairRead(b: Bytes, n: nat, c: Bytes, k: nat, rest: Bytes, count: nat, levels: nat, key: nat, m: map<nat, Bytes>)
    requires n <= |b| && ItemLen(b, levels) == Some(n) && b[n..] == c && k <= |c| && ItemLen(c, levels) == Some(k) && c[k..] == rest
    requires n + k <= |b| && b[n + k..] == rest
    requires ReadHead(b).Some? && ReadHead(b).value.major == 0 && ReadHead(b).value.arg == key
    requires ReadPairs(rest, count, levels) == Ok(m) && key !in m
    ensures ReadPairs(b, count + 1, levels) == Ok(m[key := b[n..n + k]])
  {
    hide ItemLen, ReadHead;
  }

  lemma PairItems(b: Bytes, n: nat, c: Bytes, k: nat, rest: Bytes, count: nat, levels: nat)
    requires n <= |b| && ItemLen(b, levels) == Some(n) && b[n..] == c && k <= |c| && ItemLen(c, levels) == Some(k) && c[k..] == rest
    requires ItemsLen(rest, count, levels) == Some(|rest|)
    ensures ItemsLen(b, count + 2, levels) == Some(|b|)
  {
    hide ItemLen;
    assert ItemsLen(c, count + 1, levels) == Some(|c|);
  }

  /** Whatever map fits, its deterministic encoding reads back as that map. */
  lemma MapReadsBack(m: map<nat, Bytes>)
    requires MapOk(m)
    ensures ReadMap(WriteMap(m)) == Ok(m)
  {
    hide IsItem, WritePairs, WriteHead, ReadPairs, InOrder, ItemsLen, ReadHead;
    var ks := InOrder(m.Keys);
    InOrderSorted(m.Keys);
    assert |m.Keys| == |m|;
    assert KeysOk(m, ks, MAX_LEVELS - 1);
    PairsReadBack(m, ks, MAX_LEVELS - 1);
    var pairs := WritePairs(m, ks);
    var b := WriteMap(m);
    HeadReadsBack(5, |m.Keys|, pairs);
    assert b[|WriteHead(5, |m.Keys|)|..] == pairs;
    assert Restrict(m, ks) == m;
    MapHeadMajor(b);
    assert ItemLen(b, MAX_LEVELS) == ItemBody(b, ReadHead(b).value, MAX_LEVELS);
  }

  lemma MapHeadMajor(b: Bytes)
    requires ReadHead(b).Some?
    ensures b != [] && ReadHead(b).value.major == b[0] / 32
  {
  }

  // ---- what is read is well formed -----------------------------------------------------------

  lemma {:induction false} ValueBound(b: Bytes)
    ensures Value(b) < Pow256(|b|)
  {
    if b != [] {
      ValueBound(b[..|b| - 1]);
    }
  }

  lemma HeadArgBound(b: Bytes)
    requires ReadHead(b).Some?
    ensures ReadHead(b).value.arg < U64
  {
    Powers();
    var h := ReadHead(b).value;
    if h.info >= 24 {
      ValueBound(b[1..h.len]);
      assert h.len - 1 == 1 ==> Pow256(1) == 256;
    }
    hide Value, Pow256;
  }

  lemma ItemInside(b: Bytes, levels: nat)
    requires ItemLen(b, levels).Some?
    ensures IsItem(b[..ItemLen(b, levels).value], levels)
  {
    var n := ItemLen(b, levels).value;
    assert Agrees(b, b[..n], n);
    ItemLocal(b, b[..n], levels);
  }

  ghost predicate ValuesOk(m: map<nat, Bytes>, count: nat, levels: nat) {
    |m| <= count && forall k :: k in m ==> k < U64 && IsItem(m[k], levels)
  }

  lemma ValuesAdd(m: map<nat, Bytes>, count: nat, levels: nat, k: nat, v: Bytes)
    requires ValuesOk(m, count, levels) && k < U64 && IsItem(v, levels)
    ensures ValuesOk(m[k := v], count + 1, levels)
  {
    hide IsItem;
  }

  lemma {:induction false} ReadPairsOk(b: Bytes, count: nat, levels: nat)
    requires ReadPairs(b, count, levels).Ok?
    ensures ValuesOk(ReadPairs(b, count, levels).value, count, levels)
    decreases count
  {
    hide ReadHead, ItemLen, IsItem, ValuesOk;
    if count == 0 {
      NoValues(levels);
    } else {
      var key := ItemLen(b, levels).value;
      var value := ItemLen(b[key..], levels).value;
      HeadArgBound(b);
      ItemInside(b[key..], levels);
      assert b[key..][..value] == b[key..key + value];
      ReadPairsOk(b[key + value..], count - 1, levels);
      ValuesAdd(ReadPairs(b[key + value..], count - 1, levels).value, count - 1, levels, ReadHead(b).value.arg, b[key..key + value]);
    }
  }

  lemma NoValues(levels: nat)
    ensures ValuesOk(map[], 0, levels)
  {
  }

  lemma ReadMapOk(b: Bytes)
    requires ReadMap(b).Ok?
    ensures MapOk(ReadMap(b).value)
  {
    var h := ReadHead(b).value;
    MapHeadMajor(b);
    assert ItemLen(b, MAX_LEVELS) == ItemBody(b, h, MAX_LEVELS);
    ReadPairsOk(b[h.len..], h.arg, MAX_LEVELS - 1);
    hide ReadHead, ItemLen, IsItem, ReadPairs, ItemsLen;
  }
}
