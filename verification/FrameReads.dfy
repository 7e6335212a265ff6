/**
 What a receiver makes of frames: which frames decode at all, and that the
 frames of a message, decoded, carry its text in numbered parts.
 */
module FrameReads {
  import opened Common
  import opened Utf8
  import opened Cbor
  import opened Envelope
  import opened FrameText
  import opened Frames
  import Split

  // ---- which frames are accepted -----------------------------------------------------------------------

  /** The required fields are there and readable, of version 1, and the id is within its limit. */
  predicate HasRequired(m: map<nat, Bytes>, lim: Limits) {
    && KEY_V in m && KEY_T in m && KEY_ID in m && KEY_TS in m && KEY_SRC in m
    && DecodeInt(m[KEY_V]) == Some(1)
    && DecodeInt(m[KEY_T]).Some? && DecodeInt(m[KEY_T]).value >= 0
    && DecodeInt(m[KEY_TS]).Some? && DecodeInt(m[KEY_TS]).value >= 0
    && DecodeBytes(m[KEY_ID]).Some? && (lim.id == 0 || |DecodeBytes(m[KEY_ID]).value| <= lim.id)
    && DecodeBytes(m[KEY_SRC]).Some?
  }

  /** Whatever else is there is readable, and the extensions are within their limit. */
  predicate OptionalFit(m: map<nat, Bytes>, lim: Limits) {
    && (KEY_ROOM in m ==> DecodeText(m[KEY_ROOM]).Some?)
    && (KEY_NICK in m ==> DecodeText(m[KEY_NICK]).Some?)
    && (KEY_DST in m ==> DecodeBytes(m[KEY_DST]).Some?)
    && (lim.ext == 0 || ExtBytes(Extensions(m), InOrder(Extensions(m).Keys)) <= lim.ext)
  }

  /** e says what the fields say. */
  ghost predicate SaysFields(e: Envelope, m: map<nat, Bytes>, lim: Limits)
    requires HasRequired(m, lim) && OptionalFit(m, lim)
  {
    && e.kind == DecodeInt(m[KEY_T]).value && e.ts == DecodeInt(m[KEY_TS]).value
    && e.id == DecodeBytes(m[KEY_ID]).value && e.src == DecodeBytes(m[KEY_SRC]).value
    && e.room == (if KEY_ROOM in m then DecodeText(m[KEY_ROOM]).value else [])
    && e.nick == (if KEY_NICK in m then DecodeText(m[KEY_NICK]).value else [])
    && e.dst == (if KEY_DST in m then DecodeBytes(m[KEY_DST]) else None)
    && e.body == (if KEY_BODY in m then m[KEY_BODY] else [])
    && (forall k :: k in e.ext <==> k in m && k >= 64) && (forall k :: k in e.ext ==> e.ext[k] == m[k])
  }

  lemma RequiredIff(m: map<nat, Bytes>, lim: Limits)
    ensures Missing(m).None? && CheckRequired(m, lim).None? <==> HasRequired(m, lim)
  {
    hide ReadHead, DecodeInt, DecodeString;
  }

  lemma OptionalIff(m: map<nat, Bytes>, lim: Limits)
    ensures CheckOptional(m, lim).None? <==> OptionalFit(m, lim)
  {
    hide DecodeText, DecodeBytes, ExtBytes, InOrder, Extensions;
  }

  /** A frame is accepted if and only if it is within the limit, a map, and its fields are as they should be; then it is read as they are. */
  lemma AcceptedIff(frame: Bytes, lim: Limits)
    ensures Decode(frame, lim).Good? <==>
            && (lim.frame == 0 || |frame| <= lim.frame) && ReadMap(frame).Ok?
            && HasRequired(ReadMap(frame).value, lim) && OptionalFit(ReadMap(frame).value, lim)
    ensures Decode(frame, lim).Good? ==> SaysFields(Decode(frame, lim).e, ReadMap(frame).value, lim)
  {
    if ReadMap(frame).Ok? {
      RequiredIff(ReadMap(frame).value, lim);
      OptionalIff(ReadMap(frame).value, lim);
      InterpretedSays(ReadMap(frame).value, lim);
    }
    hide ReadMap, Interpret, HasRequired, OptionalFit, SaysFields, CheckRequired, CheckOptional, Missing;
    assert ReadMap(frame).Ok? ==> (Interpret(ReadMap(frame).value, lim).Good? <==> HasRequired(ReadMap(frame).value, lim) && OptionalFit(ReadMap(frame).value, lim));
  }

  lemma InterpretedSays(m: map<nat, Bytes>, lim: Limits)
    requires Missing(m).None? && CheckRequired(m, lim).None? <==> HasRequired(m, lim)
    requires CheckOptional(m, lim).None? <==> OptionalFit(m, lim)
    ensures Interpret(m, lim).Good? <==> HasRequired(m, lim) && OptionalFit(m, lim)
    ensures Interpret(m, lim).Good? ==> SaysFields(Interpret(m, lim).e, m, lim)
  {
    hide ReadHead, DecodeInt, DecodeString, ExtBytes, InOrder, CheckRequired, CheckOptional, Missing;
  }

  // ---- the number of a part ---------------------------------------------------------------------------------

  /** What decimal digits say. */
  function Number(digits: Bytes): nat {
    if digits == [] then 0
    else 10 * Number(digits[..|digits| - 1]) + (if digits[|digits| - 1] >= 48 then digits[|digits| - 1] - 48 else 0)
  }

  predicate Digits(s: Bytes) {
    s != [] && forall k :: 0 <= k < |s| ==> 48 <= s[k] <= 57
  }

  lemma {:induction false} DecimalReads(n: nat)
    ensures Digits(Split.Decimal(n)) && Number(Split.Decimal(n)) == n
  {
    var d := Split.Decimal(n);
    if n < 10 {
      assert d[..0] == [];
    } else {
      DecimalReads(n / 10);
      assert d[..|d| - 1] == Split.Decimal(n / 10);
    }
  }

  /** s is `before`, the number i, a slash, the number n, and `after`. */
  ghost predicate Numbers(s: Bytes, before: Bytes, i: nat, n: nat, after: Bytes) {
    exists a: Bytes, b: Bytes :: Digits(a) && Digits(b) && Number(a) == i && Number(b) == n && s == before + a + [47] + b + after
  }

  /** " (i/n)" after a part of a frame, and "(i/n) " before one sent by LXMF. */
  lemma MarksRead(i: nat, n: nat)
    ensures Numbers(Mark(i, n), [32, 40], i, n, [41])
    ensures Numbers(Split.Mark(i, n), [40], i, n, [41, 32])
  {
    DecimalReads(i);
    DecimalReads(n);
    hide Number, Digits, Split.Decimal;
    var a, b := Split.Decimal(i), Split.Decimal(n);
    assert Mark(i, n) == [32, 40] + a + [47] + b + [41];
    assert Split.Mark(i, n) == [40] + a + [47] + b + [41, 32];
  }

  // ---- a message, read back -----------------------------------------------------------------------------------

  /** A message the hub stores, in an envelope without a body: within the limits, and fit to be sent. */
  ghost predicate Sendable(e: Envelope) {
    && Bounded(e) && e.ts < I64 && Valid(e.room) && Valid(e.nick)
    && forall k :: k in e.ext ==> IsItem(e.ext[k], MAX_LEVELS - 1)
  }

  lemma SendableWellFormed(e: Envelope, text: Bytes)
    requires Sendable(e) && |text| < U64 && e.body == TextBody(text)
    ensures WellFormed(e)
  {
    BoundedWritable(e);
    FieldsCount(e, 9);
    StringIsItem(3, text, MAX_LEVELS - 1);
    hide IsItem, ExtBytes, InOrder, FieldOf, Valid, Total;
  }

  /** The frame decodes to an envelope like e with this id and text. */
  ghost predicate ReadsAs(frame: Bytes, e: Envelope, id: Bytes, text: Bytes) {
    && Decode(frame, NO_LIMITS).Good?
    && Decode(frame, NO_LIMITS).e == e.(id := id, body := Decode(frame, NO_LIMITS).e.body)
    && DecodeText(Decode(frame, NO_LIMITS).e.body) == Some(text)
  }

  lemma FrameReadsAs(e: Envelope, id: Bytes, text: Bytes)
    requires Sendable(e) && (|id| <= 8 || id == e.id) && |text| < U64 && Valid(text)
    ensures Writable(e.(id := id, body := TextBody(text))) && ReadsAs(Encode(e.(id := id, body := TextBody(text))), e, id, text)
  {
    hide Sendable, Encode, Decode, WellFormed, Valid, TextBody;
    var d := e.(id := id, body := TextBody(text));
    SendableSame(e, id, TextBody(text));
    SendableWellFormed(d, text);
    WritableIs(d);
    EncodeThenDecode(d);
    TextBack(text);
  }

  lemma SendableSame(e: Envelope, id: Bytes, body: Bytes)
    requires Sendable(e) && (|id| <= 8 || id == e.id)
    ensures Sendable(e.(id := id, body := body))
  {
    FrameBounded(e, id, body);
    hide Bounded, IsItem, Valid;
  }

  lemma TextBack(text: Bytes)
    requires |text| < U64 && Valid(text)
    ensures DecodeText(TextBody(text)) == Some(text)
  {
    StringBack(3, text);
    hide Valid, DecodeString, WriteString;
  }

  lemma WritableIs(e: Envelope)
    requires WellFormed(e)
    ensures Writable(e)
  {
  }

  lemma PartTextValid(ps: seq<Bytes>, i: nat)
    requires i < |ps| && Valid(ps[i])
    ensures Valid(PartText(ps, i))
  {
    hide Valid, Split.Decimal;
    if |ps| > 1 {
      AsciiValid(Mark(i + 1, |ps|));
      ValidConcat(ps[i], Mark(i + 1, |ps|));
    }
  }

  /** e with the empty text and room for an id of eight bytes, and what of a text it leaves room for. */
  ghost predicate OneFrame(e: Envelope, body: Bytes, maxBody: nat)
    requires Writable(Probe(e))
  {
    |body| <= maxBody && |body| + 2 + |Encode(Probe(e))| <= 431
  }

  /** What the frames of a message say, one by one: the text and everything else in one frame, or numbered parts under ids of their own, without extensions. */
  ghost predicate FramesSay(e: Envelope, body: Bytes, maxBody: nat, ids: nat -> Bytes, frames: seq<Bytes>)
    requires Writable(Probe(e))
  {
    if OneFrame(e, body, maxBody) then |frames| == 1 && ReadsAs(frames[0], e, e.id, body)
    else
      exists ps: seq<Bytes> :: |ps| == |frames| && Rejoins(body, ps) &&
        forall i :: 0 <= i < |ps| ==> PartSays(e, ps, ids, i, frames[i])
  }

  ghost predicate PartSays(e: Envelope, ps: seq<Bytes>, ids: nat -> Bytes, i: nat, frame: Bytes)
    requires i < |ps|
  {
    if |ps| == 1 then ReadsAs(frame, e.(ext := map[]), e.id, ps[0])
    else exists mark: Bytes :: Numbers(mark, [32, 40], i + 1, |ps|, [41]) && ReadsAs(frame, e.(ext := map[]), ids(i + 1), ps[i] + mark)
  }

  lemma {:induction false} FittingAt(c: Envelope, ps: seq<Bytes>, ids: nat -> Bytes, k: nat)
    requires k <= |ps|
    requires forall i :: 0 <= i < |ps| ==> |PartText(ps, i)| < U64 && Writable(PartEnvelope(c, ps, ids, i))
    requires forall i :: 0 <= i < |ps| ==> |Encode(PartEnvelope(c, ps, ids, i))| <= 431
    ensures |Fitting(c, ps, ids, k)| == k
    ensures forall i :: 0 <= i < k ==> Fitting(c, ps, ids, k)[i] == Encode(PartEnvelope(c, ps, ids, i))
  {
    hide PartText, PartEnvelope, Encode, Writable;
    if k > 0 {
      FittingAt(c, ps, ids, k - 1);
      assert |Encode(PartEnvelope(c, ps, ids, k - 1))| <= 431;
    }
  }

  lemma BareSendable(e: Envelope)
    requires Sendable(e)
    ensures Sendable(Bare(e)) && Bare(e) == e.(ext := map[])
  {
    BareBounded(e);
    hide Bounded, IsItem, Valid;
  }

  /** The budget is the room there is. */
  lemma BudgetIsRoom(e: Envelope, body: Bytes, maxBody: nat)
    requires Bounded(e) && maxBody >= 64
    ensures Writable(Probe(e)) && (|body| <= BodyBudget(e, maxBody) <==> OneFrame(e, body, maxBody))
  {
    hide Bounded, Encode, Probe;
    ProbeBounded(e);
  }

  /** One part's frame. */
  lemma PartReads(e: Envelope, ps: seq<Bytes>, ids: nat -> Bytes, i: nat)
    requires Sendable(e) && i < |ps| && Valid(ps[i]) && |PartText(ps, i)| < U64 && |ids(i + 1)| == 8
    ensures Writable(PartEnvelope(e, ps, ids, i))
    ensures |ps| == 1 ==> ReadsAs(Encode(PartEnvelope(e, ps, ids, i)), e, e.id, ps[0])
    ensures |ps| > 1 ==> ReadsAs(Encode(PartEnvelope(e, ps, ids, i)), e, ids(i + 1), ps[i] + Mark(i + 1, |ps|))
  {
    hide Sendable, Valid, Encode, ReadsAs, Writable, Mark, TextBody;
    PartTextValid(ps, i);
    if |ps| == 1 {
      OneText(ps);
      FrameReadsAs(e, e.id, ps[0]);
    } else {
      FrameReadsAs(e, ids(i + 1), PartText(ps, i));
    }
  }

  lemma OneText(ps: seq<Bytes>)
    requires |ps| == 1
    ensures PartText(ps, 0) == ps[0]
  {
  }

  /**
   Whatever message the hub stores, its frames fit the link and can all be
   read: either one frame with everything, if and only if there is room for it,
   or parts that say which of how many they are and together hold the text.
   */
  lemma FramesReadBack(e: Envelope, body: Bytes, maxBody: nat, ids: nat -> Bytes)
    requires Sendable(e) && maxBody >= 64 && |body| <= 2000 && Valid(body) && (forall k :: |ids(k)| == 8)
    ensures Writable(Probe(e)) && Writable(Probe(Bare(e)))
    ensures var c, ps := Carrier(e, body, maxBody), PartsOf(e, body, maxBody);
            && (forall i :: 0 <= i < |ps| ==> |PartText(ps, i)| < U64 && Writable(PartEnvelope(c, ps, ids, i)))
            && FramesSay(e, body, maxBody, ids, Fitting(c, ps, ids, |ps|))
  {
    hide Sendable, Bounded, Valid, Encode, Probe, BodyBudget, PartText, PartEnvelope, Fitting, Rejoins, SplitText, ReadsAs, Mark, Numbers, OneFrame, Writable;
    SendableBounded(e);
    PartsFit(e, body, maxBody);
    BudgetIsRoom(e, body, maxBody);
    BareSendable(e);
    var c, ps := Carrier(e, body, maxBody), PartsOf(e, body, maxBody);
    assert Sendable(c);
    forall i | 0 <= i < |ps|
      ensures |PartText(ps, i)| < U64 && Writable(PartEnvelope(c, ps, ids, i)) && |Encode(PartEnvelope(c, ps, ids, i))| <= 431
      ensures |ps| == 1 ==> ReadsAs(Encode(PartEnvelope(c, ps, ids, i)), c, c.id, ps[0])
      ensures |ps| > 1 ==> ReadsAs(Encode(PartEnvelope(c, ps, ids, i)), c, ids(i + 1), ps[i] + Mark(i + 1, |ps|))
      ensures Numbers(Mark(i + 1, |ps|), [32, 40], i + 1, |ps|, [41])
    {
      EveryFrameFits(e, body, maxBody, ids, i);
      PartReads(c, ps, ids, i);
      MarksRead(i + 1, |ps|);
    }
    FittingAt(c, ps, ids, |ps|);
    var frames := Fitting(c, ps, ids, |ps|);
    if OneFrame(e, body, maxBody) {
      assert ps == [body] && c == e;
    } else {
      forall i | 0 <= i < |ps|
        ensures PartSays(e, ps, ids, i, frames[i])
      {
      }
    }
  }

  lemma SendableBounded(e: Envelope)
    requires Sendable(e)
    ensures Bounded(e)
  {
  }

  // ---- where a text is cut -----------------------------------------------------------------------------------

  /** A piece is cut after the last space within the limit if that is past the middle, and at a character otherwise. */
  lemma CutAfterWord(text: Bytes, limit: nat)
    requires |text| > limit
    ensures var cut, full := CutPoint(text, limit), Split.BackToRune(text, limit);
            && cut <= full
            && (forall k :: limit / 2 < k < full && text[k] == SPACE ==> k < cut && text[cut - 1] == SPACE)
            && ((forall k :: limit / 2 < k < full ==> text[k] != SPACE) ==> cut == full)
  {
    var full := Split.BackToRune(text, limit);
    var sp := AfterLastSpace(text[..full]);
    forall k | sp <= k < full
      ensures text[k] != SPACE
    {
      assert text[..full][k] != SPACE;
    }
    if sp > 0 {
      assert text[..full][sp - 1] == SPACE;
    }
  }

  /** The first character after the cut that is no space, or the end. */
  predicate GoesOnFrom(text: Bytes, cut: nat, from: nat) {
    cut <= from <= |text| && (forall k :: cut <= k < from ==> text[k] == SPACE) && (from < |text| ==> text[from] != SPACE)
  }

  lemma StartsWithoutSpace(text: Bytes)
    ensures TrimLeft(text) != [] ==> TrimLeft(text)[0] != SPACE
  {
  }

  lemma FrontOf(rest: Bytes)
    ensures var gone := |rest| - |TrimLeft(rest)|;
            && 0 <= gone && rest[gone..] == TrimLeft(rest) && (forall k :: 0 <= k < gone ==> rest[k] == SPACE)
            && (rest[gone..] != [] ==> rest[gone..][0] != SPACE)
  {
    StartsWithoutSpace(rest);
  }

  /** The rest of a text after its spaces. */
  lemma TailFrom(text: Bytes, cut: nat)
    requires cut <= |text|
    ensures var from := |text| - |TrimLeft(text[cut..])|; GoesOnFrom(text, cut, from) && text[from..] == TrimLeft(text[cut..])
  {
    hide TrimLeft, GoesOnFrom;
    FrontOf(text[cut..]);
    ShiftFrom(text, cut, |text[cut..]| - |TrimLeft(text[cut..])|);
  }

  lemma ShiftFrom(text: Bytes, cut: nat, gone: nat)
    requires cut + gone <= |text| && (forall k :: 0 <= k < gone ==> text[cut..][k] == SPACE)
    requires text[cut..][gone..] != [] ==> text[cut..][gone..][0] != SPACE
    ensures GoesOnFrom(text, cut, cut + gone) && text[cut + gone..] == text[cut..][gone..]
  {
    forall k | cut <= k < cut + gone
      ensures text[k] == SPACE
    {
      assert text[cut..][k - cut] == text[k];
    }
    assert cut + gone < |text| ==> text[cut..][gone..][0] == text[cut + gone];
  }

  lemma HeadOf(text: Bytes, cut: nat)
    requires cut <= |text|
    ensures var head := TrimRight(text[..cut]);
            && |head| <= cut && head == text[..|head|] && (forall k :: |head| <= k < cut ==> text[k] == SPACE)
            && (head != [] ==> head[|head| - 1] != SPACE)
  {
    var all := text[..cut];
    var head := TrimRight(all);
    TrimmedEnd(all);
    hide TrimRight;
    assert all[..|head|] == text[..|head|];
    forall k | |head| <= k < cut
      ensures text[k] == SPACE
    {
      assert all[k] == SPACE;
    }
  }

  /** The piece is what comes before the cut, less the spaces at its end; the next begins after the spaces there. */
  lemma FirstPiece(text: Bytes, limit: nat)
    requires |text| > limit && CutPoint(text, limit) > 0
    ensures var cut, ps := CutPoint(text, limit), Pieces(text, limit);
            && ps != [] && |ps[0]| <= cut && ps[0] == text[..|ps[0]|]
            && (forall k :: |ps[0]| <= k < cut ==> text[k] == SPACE)
            && (ps[0] != [] ==> ps[0][|ps[0]| - 1] != SPACE)
            && exists from: nat :: GoesOnFrom(text, cut, from) && ps[1..] == Pieces(text[from..], limit)
  {
    hide CutPoint, TrimRight, TrimLeft;
    var cut := CutPoint(text, limit);
    HeadOf(text, cut);
    TailFrom(text, cut);
    var from := |text| - |TrimLeft(text[cut..])|;
    assert Pieces(text, limit) == [TrimRight(text[..cut])] + Pieces(TrimLeft(text[cut..]), limit);
    hide Pieces;
    assert GoesOnFrom(text, cut, from);
  }

  lemma TrimmedEnd(text: Bytes)
    ensures TrimRight(text) != [] ==> TrimRight(text)[|TrimRight(text)| - 1] != SPACE
  {
  }
}
