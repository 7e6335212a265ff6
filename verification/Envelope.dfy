/** RRC envelopes: CBOR maps with numbered fields, and extension fields carried verbatim. */
module Envelope {
  import opened Common
  import opened Utf8
  import opened Cbor

  const VERSION: nat := 1

  const KEY_V: nat := 0
  const KEY_T: nat := 1
  const KEY_ID: nat := 2
  const KEY_TS: nat := 3
  const KEY_SRC: nat := 4
  const KEY_ROOM: nat := 5
  const KEY_BODY: nat := 6
  const KEY_NICK: nat := 7
  const KEY_DST: nat := 8
  const EXTENSION_MIN: nat := 64

  const I64: nat := 0x8000_0000_0000_0000

  /** Room, nick and body are absent when empty; body and extension values are raw items. */
  datatype Envelope = Envelope(kind: nat, id: Bytes, ts: nat, src: Bytes, room: Bytes, nick: Bytes, dst: Option<Bytes>, body: Bytes, ext: map<nat, Bytes>)

  /** 0 means no limit. */
  datatype Limits = Limits(frame: nat, id: nat, ext: nat)

  const NO_LIMITS := Limits(0, 0, 0)

  datatype Reason =
    | FrameTooLarge | Unreadable(why: Cbor.Error) | MissingKey(key: nat) | BadVersion | UnsupportedVersion
    | BadType | BadId | IdTooLong | BadTime | NegativeTime | BadSource | BadRoom | BadNick | BadDst | ExtTooLarge

  datatype Decoded = Good(e: Envelope) | Bad(why: Reason)

  // ---- single values --------------------------------------------------------------------

  /** Integers only; what a 64-bit signed integer cannot hold is cut to its greatest value, or refused if negative. */
  function DecodeInt(raw: Bytes): Option<int> {
    var h := ReadHead(raw);
    if h.None? || h.value.major > 1 then None
    else if h.value.major == 0 then Some(if h.value.arg >= I64 then I64 - 1 else h.value.arg)
    else if h.value.arg >= I64 then None
    else Some(-1 - h.value.arg)
  }

  function DecodeString(raw: Bytes, major: nat): Option<Bytes> {
    var h := ReadHead(raw);
    if h.None? || h.value.major != major || h.value.len + h.value.arg != |raw| then None
    else Some(raw[h.value.len..])
  }

  function DecodeBytes(raw: Bytes): Option<Bytes> {
    DecodeString(raw, 2)
  }

  /** Text has to be valid UTF-8. */
  function DecodeText(raw: Bytes): Option<Bytes> {
    var s := DecodeString(raw, 3);
    if s.Some? && Valid(s.value) then s else None
  }

  // ---- decoding ---------------------------------------------------------------------------

  function Extensions(fields: map<nat, Bytes>): map<nat, Bytes> {
    map k | k in fields && k >= EXTENSION_MIN :: fields[k]
  }

  function ExtBytes(ext: map<nat, Bytes>, ks: seq<nat>): nat
    requires forall k :: k in ks ==> k in ext
    decreases |ks|
  {
    if ks == [] then 0
    else
      assert ks[0] in ks && forall k :: k in ks[1..] ==> k in ks;
      |ext[ks[0]]| + 9 + ExtBytes(ext, ks[1..])
  }

  /** An optional field: absent, or present and readable. */
  datatype Field = Absent | Unfit | Fit(value: Bytes)

  function TextField(fields: map<nat, Bytes>, k: nat): Field {
    if k !in fields then Absent
    else
      var s := DecodeText(fields[k]);
      if s.None? then Unfit else Fit(s.value)
  }

  function BytesField(fields: map<nat, Bytes>, k: nat): Field {
    if k !in fields then Absent
    else
      var s := DecodeBytes(fields[k]);
      if s.None? then Unfit else Fit(s.value)
  }

  function OrEmpty(f: Field): Bytes {
    if f.Fit? then f.value else []
  }

  function Missing(fields: map<nat, Bytes>): Option<nat> {
    if KEY_V !in fields then Some(KEY_V)
    else if KEY_T !in fields then Some(KEY_T)
    else if KEY_ID !in fields then Some(KEY_ID)
    else if KEY_TS !in fields then Some(KEY_TS)
    else if KEY_SRC !in fields then Some(KEY_SRC)
    else None
  }

  /** The required fields, checked in order. */
  function CheckRequired(fields: map<nat, Bytes>, lim: Limits): Option<Reason>
    requires Missing(fields).None?
  {
    var v, t, ts := DecodeInt(fields[KEY_V]), DecodeInt(fields[KEY_T]), DecodeInt(fields[KEY_TS]);
    var id, src := DecodeBytes(fields[KEY_ID]), DecodeBytes(fields[KEY_SRC]);
    if v.None? then Some(BadVersion)
    else if v.value != VERSION then Some(UnsupportedVersion)
    else if t.None? || t.value < 0 then Some(BadType)
    else if id.None? then Some(BadId)
    else if lim.id > 0 && |id.value| > lim.id then Some(IdTooLong)
    else if ts.None? then Some(BadTime)
    else if ts.value < 0 then Some(NegativeTime)
    else if src.None? then Some(BadSource)
    else None
  }

  function CheckOptional(fields: map<nat, Bytes>, lim: Limits): Option<Reason> {
    if TextField(fields, KEY_ROOM).Unfit? then Some(BadRoom)
    else if TextField(fields, KEY_NICK).Unfit? then Some(BadNick)
    else if BytesField(fields, KEY_DST).Unfit? then Some(BadDst)
    else if lim.ext > 0 && ExtBytes(Extensions(fields), InOrder(Extensions(fields).Keys)) > lim.ext then Some(ExtTooLarge)
    else None
  }

  function Interpret(fields: map<nat, Bytes>, lim: Limits): Decoded {
    if Missing(fields).Some? then Bad(MissingKey(Missing(fields).value))
    else if CheckRequired(fields, lim).Some? then Bad(CheckRequired(fields, lim).value)
    else if CheckOptional(fields, lim).Some? then Bad(CheckOptional(fields, lim).value)
    else
      var dst := BytesField(fields, KEY_DST);
      Good(Envelope(
        DecodeInt(fields[KEY_T]).value, DecodeBytes(fields[KEY_ID]).value, DecodeInt(fields[KEY_TS]).value, DecodeBytes(fields[KEY_SRC]).value,
        OrEmpty(TextField(fields, KEY_ROOM)), OrEmpty(TextField(fields, KEY_NICK)), if dst.Fit? then Some(dst.value) else None,
        if KEY_BODY in fields then fields[KEY_BODY] else [], Extensions(fields)))
  }

  function Decode(frame: Bytes, lim: Limits): Decoded {
    if lim.frame > 0 && |frame| > lim.frame then Bad(FrameTooLarge)
    else
      var raw := ReadMap(frame);
      if raw.Err? then Bad(Unreadable(raw.error)) else Interpret(raw.value, lim)
  }

  // ---- encoding -----------------------------------------------------------------------------

  ghost predicate Writable(e: Envelope) {
    && e.kind < U64 && e.ts < U64 && |e.id| < U64 && |e.src| < U64 && |e.room| < U64 && |e.nick| < U64
    && (e.dst.Some? ==> |e.dst.value| < U64)
    && |e.ext| + 9 < U64 && forall k :: k in e.ext ==> k < U64
  }

  function Text(s: Bytes): Option<Bytes>
    requires |s| < U64
  {
    if s == [] then None else Some(WriteString(3, s))
  }

  function Binary(s: Option<Bytes>): Option<Bytes>
    requires s.Some? ==> |s.value| < U64
  {
    if s.None? then None else Some(WriteString(2, s.value))
  }

  /** What the envelope says about one of the numbered fields. */
  function FieldOf(e: Envelope, k: nat): Option<Bytes>
    requires Writable(e)
  {
    if k == KEY_V then Some(WriteHead(0, VERSION))
    else if k == KEY_T then Some(WriteHead(0, e.kind))
    else if k == KEY_ID then Some(WriteString(2, e.id))
    else if k == KEY_TS then Some(WriteHead(0, e.ts))
    else if k == KEY_SRC then Some(WriteString(2, e.src))
    else if k == KEY_ROOM then Text(e.room)
    else if k == KEY_BODY then (if e.body == [] then None else Some(e.body))
    else if k == KEY_NICK then Text(e.nick)
    else if k == KEY_DST then Binary(e.dst)
    else None
  }

  /** The numbered fields up to k, and every extension. */
  function FieldsTo(e: Envelope, k: nat): (m: map<nat, Bytes>)
    requires Writable(e) && k <= 9
    ensures forall j: nat :: j in m <==> (j < k && FieldOf(e, j).Some?) || (j in e.ext && j >= EXTENSION_MIN)
    ensures forall j: nat :: j in m ==> m[j] == if j < k then FieldOf(e, j).value else e.ext[j]
  {
    if k == 0 then Extensions(e.ext)
    else
      var f := FieldOf(e, k - 1);
      if f.None? then FieldsTo(e, k - 1) else FieldsTo(e, k - 1)[k - 1 := f.value]
  }

  function Fields(e: Envelope): map<nat, Bytes>
    requires Writable(e)
  {
    FieldsTo(e, 9)
  }

  // ---- round trips ----------------------------------------------------------------------------

  /** What an envelope has to be like to come back as it was. */
  ghost predicate WellFormed(e: Envelope) {
    && Writable(e) && e.kind < I64 && e.ts < I64
    && Valid(e.room) && Valid(e.nick)
    && (e.body != [] ==> IsItem(e.body, MAX_LEVELS - 1))
    && (forall k :: k in e.ext ==> k >= EXTENSION_MIN && IsItem(e.ext[k], MAX_LEVELS - 1))
    && |Fields(e)| <= MAX_ELEMENTS
  }

  lemma FieldsKeys(e: Envelope)
    requires Writable(e)
    ensures forall k :: k in Fields(e) ==> k < U64
    ensures |Fields(e)| < U64
  {
    hide FieldOf;
    FieldsCount(e, 9);
  }

  lemma {:induction false} FieldsCount(e: Envelope, k: nat)
    requires Writable(e) && k <= 9
    ensures |FieldsTo(e, k)| <= |e.ext| + k
  {
    hide FieldOf;
    if k == 0 {
      FewerKeys(Extensions(e.ext).Keys, e.ext.Keys);
      assert |Extensions(e.ext).Keys| == |Extensions(e.ext)| && |e.ext.Keys| == |e.ext|;
    } else {
      FieldsCount(e, k - 1);
    }
  }

  lemma {:induction false} FewerKeys(a: set<nat>, b: set<nat>)
    requires a <= b
    ensures |a| <= |b|
  {
    if a != {} {
      var x :| x in a;
      FewerKeys(a - {x}, b - {x});
    }
  }

  /** The envelope as deterministic CBOR. */
  function Encode(e: Envelope): Bytes
    requires Writable(e)
  {
    FieldsKeys(e);
    WriteMap(Fields(e))
  }

  /** A number comes back exactly when 63 bits hold it; a greater one is cut. */
  lemma IntBack(n: nat)
    requires n < U64
    ensures DecodeInt(WriteHead(0, n)) == Some(n) <==> n < I64
    ensures n >= I64 ==> DecodeInt(WriteHead(0, n)) == Some(I64 - 1)
  {
    HeadReadsBack(0, n, []);
    assert WriteHead(0, n) + [] == WriteHead(0, n);
    hide ReadHead, WriteHead;
  }

  lemma StringBack(major: nat, s: Bytes)
    requires (major == 2 || major == 3) && |s| < U64
    ensures DecodeString(WriteString(major, s), major) == Some(s)
  {
    HeadReadsBack(major, |s|, s);
    assert WriteString(major, s)[|WriteHead(major, |s|)|..] == s;
    hide ReadHead, WriteHead;
  }

  lemma FieldIsItem(e: Envelope, k: nat)
    requires WellFormed(e) && FieldOf(e, k).Some?
    ensures IsItem(FieldOf(e, k).value, MAX_LEVELS - 1)
  {
    hide IsItem, WriteHead, Fields;
    UintIsItem(VERSION, MAX_LEVELS - 1);
    UintIsItem(e.kind, MAX_LEVELS - 1);
    UintIsItem(e.ts, MAX_LEVELS - 1);
    StringIsItem(2, e.id, MAX_LEVELS - 1);
    StringIsItem(2, e.src, MAX_LEVELS - 1);
    StringIsItem(3, e.room, MAX_LEVELS - 1);
    StringIsItem(3, e.nick, MAX_LEVELS - 1);
    if e.dst.Some? {
      StringIsItem(2, e.dst.value, MAX_LEVELS - 1);
    }
    hide WriteString;
  }

  lemma FieldsOk(e: Envelope)
    requires WellFormed(e)
    ensures MapOk(Fields(e))
  {
    FieldsKeys(e);
    hide FieldOf, IsItem;
    var m := Fields(e);
    forall k | k in m
      ensures IsItem(m[k], MAX_LEVELS - 1)
    {
      if k < 9 {
        FieldIsItem(e, k);
      }
    }
  }

  /** Each numbered field of the map is what the envelope says. */
  lemma FieldsGive(e: Envelope, k: nat)
    requires Writable(e) && k < 9
    ensures k in Fields(e) <==> FieldOf(e, k).Some?
    ensures k in Fields(e) ==> Fields(e)[k] == FieldOf(e, k).value
  {
  }

  lemma ExtensionsBack(e: Envelope)
    requires WellFormed(e)
    ensures Extensions(Fields(e)) == e.ext
  {
    hide FieldOf, IsItem;
  }

  lemma RequiredBack(e: Envelope)
    requires WellFormed(e)
    ensures var m := Fields(e);
            && Missing(m).None? && CheckRequired(m, NO_LIMITS).None?
            && DecodeInt(m[KEY_T]) == Some(e.kind) && DecodeInt(m[KEY_TS]) == Some(e.ts)
            && DecodeBytes(m[KEY_ID]) == Some(e.id) && DecodeBytes(m[KEY_SRC]) == Some(e.src)
  {
    FieldsGive(e, KEY_V);
    FieldsGive(e, KEY_T);
    FieldsGive(e, KEY_ID);
    FieldsGive(e, KEY_TS);
    FieldsGive(e, KEY_SRC);
    IntBack(VERSION);
    IntBack(e.kind);
    IntBack(e.ts);
    StringBack(2, e.id);
    StringBack(2, e.src);
    hide Fields, WriteHead, WriteString, DecodeInt, DecodeString, IsItem;
  }

  lemma TextBack(m: map<nat, Bytes>, k: nat, s: Bytes)
    requires |s| < U64 && Valid(s) && (k in m <==> Text(s).Some?) && (k in m ==> m[k] == Text(s).value)
    ensures TextField(m, k) == if s == [] then Absent else Fit(s)
  {
    StringBack(3, s);
    hide WriteString, DecodeString, Valid;
  }

  lemma BinaryBack(m: map<nat, Bytes>, k: nat, s: Option<Bytes>)
    requires (s.Some? ==> |s.value| < U64) && (k in m <==> Binary(s).Some?) && (k in m ==> m[k] == Binary(s).value)
    ensures BytesField(m, k) == if s.None? then Absent else Fit(s.value)
  {
    if s.Some? {
      StringBack(2, s.value);
    }
    hide WriteString, DecodeString;
  }

  lemma OptionalBack(e: Envelope)
    requires WellFormed(e)
    ensures var m := Fields(e);
            && CheckOptional(m, NO_LIMITS).None?
            && OrEmpty(TextField(m, KEY_ROOM)) == e.room && OrEmpty(TextField(m, KEY_NICK)) == e.nick
            && BytesField(m, KEY_DST) == (if e.dst.Some? then Fit(e.dst.value) else Absent)
            && (if KEY_BODY in m then m[KEY_BODY] else []) == e.body
  {
    hide Fields, WriteHead, WriteString, IsItem, Valid, TextField, BytesField, Text, Binary, Extensions, ExtBytes;
    var m := Fields(e);
    FieldsGive(e, KEY_ROOM);
    FieldsGive(e, KEY_NICK);
    FieldsGive(e, KEY_DST);
    FieldsGive(e, KEY_BODY);
    TextBack(m, KEY_ROOM, e.room);
    TextBack(m, KEY_NICK, e.nick);
    BinaryBack(m, KEY_DST, e.dst);
  }

  lemma InterpretBack(e: Envelope)
    requires WellFormed(e)
    ensures Interpret(Fields(e), NO_LIMITS) == Good(e)
  {
    hide Fields, CheckRequired, CheckOptional, DecodeInt, DecodeBytes, TextField, BytesField, Extensions, WellFormed, Missing;
    RequiredBack(e);
    OptionalBack(e);
    ExtensionsBack(e);
  }

  /** An encoded envelope decodes to itself. */
  lemma EncodeThenDecode(e: Envelope)
    requires WellFormed(e)
    ensures Decode(Encode(e), NO_LIMITS) == Good(e)
  {
    assert Writable(e);
    hide Fields, ReadMap, WriteMap, Interpret, WellFormed, Writable, MapOk;
    FieldsKeys(e);
    FieldsOk(e);
    MapReadsBack(Fields(e));
    InterpretBack(e);
  }

  // ---- what was decoded can be encoded ----------------------------------------------------------

  lemma DecodedStringBound(raw: Bytes, major: nat)
    requires DecodeString(raw, major).Some?
    ensures |DecodeString(raw, major).value| < U64
  {
    HeadArgBound(raw);
    hide ReadHead;
  }

  lemma InterpretedBounds(m: map<nat, Bytes>, lim: Limits)
    requires Interpret(m, lim).Good?
    ensures var e := Interpret(m, lim).e;
            && e.kind < I64 && e.ts < I64 && |e.id| < U64 && |e.src| < U64
            && |e.room| < U64 && |e.nick| < U64 && Valid(e.room) && Valid(e.nick)
            && (e.dst.Some? ==> |e.dst.value| < U64)
  {
    hide DecodeString, ReadHead, CheckOptional, Extensions;
    DecodedStringBound(m[KEY_ID], 2);
    DecodedStringBound(m[KEY_SRC], 2);
    if TextField(m, KEY_ROOM).Fit? {
      DecodedStringBound(m[KEY_ROOM], 3);
    }
    if TextField(m, KEY_NICK).Fit? {
      DecodedStringBound(m[KEY_NICK], 3);
    }
    if BytesField(m, KEY_DST).Fit? {
      DecodedStringBound(m[KEY_DST], 2);
    }
    EmptyValid();
    hide Valid;
  }

  lemma EmptyValid()
    ensures Valid([])
  {
  }

  lemma InterpretedWritable(m: map<nat, Bytes>, lim: Limits)
    requires Interpret(m, lim).Good? && MapOk(m)
    ensures Writable(Interpret(m, lim).e)
  {
    hide Interpret, IsItem, Valid;
    InterpretedBounds(m, lim);
    var e := Interpret(m, lim).e;
    InterpretedExt(m, lim);
    FewerKeys(e.ext.Keys, m.Keys);
    assert |e.ext.Keys| == |e.ext| && |m.Keys| == |m|;
  }

  lemma InterpretedExt(m: map<nat, Bytes>, lim: Limits)
    requires Interpret(m, lim).Good?
    ensures var e := Interpret(m, lim).e; e.ext == Extensions(m) && e.body == if KEY_BODY in m then m[KEY_BODY] else []
  {
    hide DecodeString, DecodeInt, CheckOptional, Extensions, Valid;
  }

  /** Every field written again was there before. */
  lemma FieldsWereThere(m: map<nat, Bytes>, lim: Limits, k: nat)
    requires Interpret(m, lim).Good? && Writable(Interpret(m, lim).e) && FieldOf(Interpret(m, lim).e, k).Some?
    ensures k in m
  {
    hide DecodeString, DecodeInt, WriteHead, WriteString, Extensions, Valid;
  }

  lemma FieldsWithin(m: map<nat, Bytes>, lim: Limits)
    requires Interpret(m, lim).Good? && Writable(Interpret(m, lim).e)
    ensures Fields(Interpret(m, lim).e).Keys <= m.Keys
  {
    hide Interpret, FieldOf, Writable;
    var e := Interpret(m, lim).e;
    InterpretedExt(m, lim);
    forall k | k in Fields(e)
      ensures k in m
    {
      if k < 9 {
        FieldsGive(e, k);
        FieldsWereThere(m, lim, k);
      }
    }
  }

  lemma InterpretedWellFormed(m: map<nat, Bytes>, lim: Limits)
    requires Interpret(m, lim).Good? && MapOk(m)
    ensures WellFormed(Interpret(m, lim).e)
  {
    hide Interpret, IsItem, Valid, Fields, Writable;
    var e := Interpret(m, lim).e;
    InterpretedExt(m, lim);
    InterpretedBounds(m, lim);
    InterpretedWritable(m, lim);
    FieldsWithin(m, lim);
    FewerKeys(Fields(e).Keys, m.Keys);
    assert |Fields(e).Keys| == |Fields(e)| && |m.Keys| == |m|;
  }

  /**
   Whatever Decode accepts, under any limits, encodes again to a frame that
   decodes, without limits, to the same envelope.
   */
  lemma DecodeThenEncode(frame: Bytes, lim: Limits)
    requires Decode(frame, lim).Good?
    ensures Writable(Decode(frame, lim).e)
    ensures Decode(Encode(Decode(frame, lim).e), NO_LIMITS) == Decode(frame, lim)
  {
    ReadMapOk(frame);
    InterpretedWellFormed(ReadMap(frame).value, lim);
    EncodeThenDecode(Decode(frame, lim).e);
    hide ReadMap, Interpret, Fields;
  }

  // ---- building the map ---------------------------------------------------------------------------

  /** The extensions, then the numbered fields that are there, go into one map, which is written in key order. */
  method EncodeEnvelope(e: Envelope) returns (b: Bytes)
    requires Writable(e)
    ensures b == Encode(e)
  {
    hide FieldOf;
    var m := CollectExtensions(e.ext);
    for k := 0 to 9
      invariant m == FieldsTo(e, k)
    {
      var f := FieldOf(e, k);
      if f.Some? {
        m := m[k := f.value];
      }
    }
    FieldsKeys(e);
    b := WriteMap(m);
  }

  method CollectExtensions(ext: map<nat, Bytes>) returns (m: map<nat, Bytes>)
    ensures m == Extensions(ext)
  {
    m := map[];
    var todo := ext.Keys;
    while todo != {}
      invariant todo <= ext.Keys
      invariant forall k :: k in m <==> k in ext && k !in todo && k >= EXTENSION_MIN
      invariant forall k :: k in m ==> m[k] == ext[k]
    {
      var k :| k in todo;
      if k >= EXTENSION_MIN {
        m := m[k := ext[k]];
      }
      todo := todo - {k};
    }
  }
}
