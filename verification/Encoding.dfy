/** Account images as bytes: mandate layouts, usage reports and the committed plan terms. */
module Encoding {
  import opened Base
  import opened Pricing

  type byte = u8

  // ---------------------------------------------------------------- fields at fixed offsets

  function Width(offsets: seq<nat>, i: nat): int
    requires i + 1 < |offsets|
  {
    var end: int := offsets[i + 1];
    end - offsets[i]
  }

  /** A layout: part `i` lies between offsets `i` and `i + 1`, the first part at the start. */
  predicate Layout(offsets: seq<nat>) {
    |offsets| > 0 && offsets[0] == 0 && forall i :: 0 <= i < |offsets| - 1 ==> Width(offsets, i) >= 0
  }

  /** Each part has the width the layout gives it. */
  predicate Fits(parts: seq<seq<byte>>, offsets: seq<nat>) {
    |parts| + 1 == |offsets| && forall i :: 0 <= i < |parts| ==> |parts[i]| == Width(offsets, i)
  }

  function Concat(parts: seq<seq<byte>>): seq<byte> {
    if parts == [] then [] else Concat(parts[..|parts| - 1]) + parts[|parts| - 1]
  }

  lemma {:induction false} EndsWithin(offsets: seq<nat>, i: nat, n: nat)
    requires Layout(offsets) && i <= n < |offsets|
    ensures offsets[i] <= offsets[n]
    decreases n - i
  {
    if i < n {
      assert Width(offsets, i) >= 0;
      EndsWithin(offsets, i + 1, n);
    }
  }

  function Slice(data: seq<byte>, offsets: seq<nat>, i: nat): (part: seq<byte>)
    requires Layout(offsets) && offsets[|offsets| - 1] <= |data| && i + 1 < |offsets|
    ensures |part| == Width(offsets, i)
  {
    assert Width(offsets, i) >= 0;
    EndsWithin(offsets, i + 1, |offsets| - 1);
    data[offsets[i]..offsets[i + 1]]
  }

  /** The inverse of concatenation: the parts a layout finds in the data. */
  function Cut(data: seq<byte>, offsets: seq<nat>): (parts: seq<seq<byte>>)
    requires Layout(offsets) && offsets[|offsets| - 1] <= |data|
    ensures Fits(parts, offsets)
  {
    seq(|offsets| - 1, i requires 0 <= i < |offsets| - 1 => Slice(data, offsets, i))
  }

  lemma {:induction false} ConcatLength(parts: seq<seq<byte>>, offsets: seq<nat>)
    requires Layout(offsets) && Fits(parts, offsets)
    ensures |Concat(parts)| == offsets[|parts|]
  {
    if parts != [] {
      Shorter(parts, offsets);
      ConcatLength(parts[..|parts| - 1], offsets[..|parts|]);
      assert |parts[|parts| - 1]| == Width(offsets, |parts| - 1);
    }
  }

  lemma {:induction false} Shorter(parts: seq<seq<byte>>, offsets: seq<nat>)
    requires Layout(offsets) && Fits(parts, offsets) && parts != []
    ensures Layout(offsets[..|parts|]) && Fits(parts[..|parts| - 1], offsets[..|parts|])
  {
    forall i | 0 <= i < |parts| - 1
      ensures Width(offsets[..|parts|], i) == Width(offsets, i) == |parts[i]|
    {
    }
  }

  /** Part `i` sits between its offsets in the concatenation, whatever follows. */
  lemma {:induction false} PartAt(parts: seq<seq<byte>>, offsets: seq<nat>, rest: seq<byte>, i: nat)
    requires Layout(offsets) && Fits(parts, offsets) && i < |parts|
    ensures offsets[i] <= offsets[i + 1] <= |Concat(parts)|
    ensures (Concat(parts) + rest)[offsets[i]..offsets[i + 1]] == parts[i]
  {
    ConcatLength(parts, offsets);
    assert |parts[i]| == Width(offsets, i);
    Shorter(parts, offsets);
    var shorter := parts[..|parts| - 1];
    ConcatLength(shorter, offsets[..|parts|]);
    if i < |parts| - 1 {
      PartAt(shorter, offsets[..|parts|], parts[|parts| - 1] + rest, i);
      assert Concat(parts) + rest == Concat(shorter) + (parts[|parts| - 1] + rest);
    }
  }

  lemma {:induction false} CutConcat(parts: seq<seq<byte>>, offsets: seq<nat>, rest: seq<byte>)
    requires Layout(offsets) && Fits(parts, offsets)
    ensures |Concat(parts)| == offsets[|parts|] && Cut(Concat(parts) + rest, offsets) == parts
  {
    ConcatLength(parts, offsets);
    forall i | 0 <= i < |parts|
      ensures Slice(Concat(parts) + rest, offsets, i) == parts[i]
    {
      PartAt(parts, offsets, rest, i);
    }
  }

  /** Replacing a one-byte part is the same as patching its byte in place. */
  lemma {:induction false} PatchOnePart(parts: seq<seq<byte>>, offsets: seq<nat>, i: nat, value: byte)
    requires Layout(offsets) && Fits(parts, offsets) && i < |parts| && Width(offsets, i) == 1
    ensures offsets[i] < |Concat(parts)|
    ensures Concat(parts[i := [value]]) == Concat(parts)[offsets[i] := value]
  {
    PartAt(parts, offsets, [], i);
    Shorter(parts, offsets);
    var n := |parts| - 1;
    ConcatLength(parts[..n], offsets[..n + 1]);
    if i < n {
      assert Width(offsets[..n + 1], i) == 1;
      PatchOnePart(parts[..n], offsets[..n + 1], i, value);
      assert parts[i := [value]][..n] == parts[..n][i := [value]];
    } else {
      assert parts[i := [value]][..n] == parts[..n];
    }
  }

  // ---------------------------------------------------------------- little-endian integers

  function ToBytes(x: nat, n: nat): (r: seq<byte>)
    ensures |r| == n
  {
    if n == 0 then [] else [x % 256] + ToBytes(x / 256, n - 1)
  }

  function FromBytes(data: seq<byte>): nat {
    if data == [] then 0 else data[0] + 256 * FromBytes(data[1..])
  }

  function Power256(n: nat): nat {
    if n == 0 then 1 else 256 * Power256(n - 1)
  }

  lemma {:induction false} RoundTripBytes(x: nat, n: nat)
    requires x < Power256(n)
    ensures FromBytes(ToBytes(x, n)) == x
  {
    if n > 0 {
      RoundTripBytes(x / 256, n - 1);
    }
  }

  lemma EightBytes()
    ensures Power256(8) == U64_MAX + 1
  {
    assert Power256(4) == 0x1_0000_0000;
  }

  function U64Bytes(x: u64): seq<byte> { ToBytes(x, 8) }

  /** Two's complement. */
  function I64Bytes(x: i64): seq<byte> { ToBytes(if x < 0 then x + U64_MAX + 1 else x, 8) }

  function U64Of(data: seq<byte>): nat { FromBytes(data) }

  function I64Of(data: seq<byte>): int {
    if FromBytes(data) > I64_MAX then FromBytes(data) - U64_MAX - 1 else FromBytes(data)
  }

  lemma IntegersRoundTrip(x: u64, y: i64)
    ensures U64Of(U64Bytes(x)) == x && I64Of(I64Bytes(y)) == y
  {
    EightBytes();
    RoundTripBytes(x, 8);
    RoundTripBytes(if y < 0 then y + U64_MAX + 1 else y, 8);
  }

  /** Conversely, every run of bytes is the image of the number it reads as. */
  lemma {:induction false} BytesOf(data: seq<byte>)
    ensures FromBytes(data) < Power256(|data|) && ToBytes(FromBytes(data), |data|) == data
  {
    if data != [] {
      BytesOf(data[1..]);
      LowestByte(data[0], FromBytes(data[1..]), Power256(|data| - 1));
      assert data == [data[0]] + data[1..];
    }
  }

  lemma LowestByte(low: byte, rest: nat, bound: nat)
    requires rest < bound
    ensures var x := low + 256 * rest; x % 256 == low && x / 256 == rest && x < 256 * bound
  {
  }

  lemma {:induction false} ConcatCut(data: seq<byte>, offsets: seq<nat>, n: nat)
    requires Layout(offsets) && offsets[|offsets| - 1] <= |data| && n < |offsets|
    ensures offsets[n] <= |data| && Concat(Cut(data, offsets)[..n]) == data[..offsets[n]]
  {
    EndsWithin(offsets, n, |offsets| - 1);
    if n > 0 {
      ConcatCut(data, offsets, n - 1);
      var parts := Cut(data, offsets);
      assert parts[..n][..n - 1] == parts[..n - 1];
      assert Width(offsets, n - 1) >= 0;
      assert data[..offsets[n - 1]] + data[offsets[n - 1]..offsets[n]] == data[..offsets[n]];
    }
  }

  lemma {:induction false} ConcatAllCut(data: seq<byte>, offsets: seq<nat>)
    requires Layout(offsets) && offsets[|offsets| - 1] <= |data|
    ensures Concat(Cut(data, offsets)) == data[..offsets[|offsets| - 1]]
  {
    ConcatCut(data, offsets, |offsets| - 1);
    assert Cut(data, offsets)[..|offsets| - 1] == Cut(data, offsets);
  }

  /** Fixed-width parts can be read back from their concatenation, so it determines them. */
  lemma {:induction false} ConcatInjective(p: seq<seq<byte>>, q: seq<seq<byte>>, offsets: seq<nat>)
    requires Layout(offsets) && Fits(p, offsets) && Fits(q, offsets) && Concat(p) == Concat(q)
    ensures p == q
  {
    CutConcat(p, offsets, []);
    CutConcat(q, offsets, []);
    assert Concat(p) + [] == Concat(q) + [];
  }

  // ---------------------------------------------------------------- mandates

  datatype MandateStatus = Active | Cancelled | Expired

  datatype BillingType = Flat | Usage

  type Address = a: seq<byte> | |a| == 32 witness ToBytes(0, 32)

  /** The fields both layouts share, in order; they are all a legacy account has. */
  datatype Legacy = Legacy(
    subscriber: Address, plan: Address, merchant: Address,
    amount: u64, frequency: u64, startDate: i64, expiry: i64, maxPulls: u64, pullsExecuted: u64,
    nextPaymentDue: i64, lastPullAt: i64, lastBillingRecordedPull: u64,
    validationRequestNonce: u64, billingRequestNonce: u64,
    status: MandateStatus, bump: u8, billingType: BillingType)

  type Eight = a: seq<byte> | |a| == 8 witness ToBytes(0, 8)
  type Seven = a: seq<byte> | |a| == 7 witness ToBytes(0, 7)

  /** The fields only the current layout has. */
  datatype Extension = Extension(
    mandateIndex: u64, version: u8, creditBalance: u64,
    pendingNewPlan: Address, pendingEffectiveAt: i64, pendingChangeType: u8, pendingNonce: Eight, reserved: Seven)

  datatype Mandate = Mandate(base: Legacy, ext: Extension)

  datatype Loaded = LoadedCurrent(mandate: Mandate) | LoadedLegacy(legacy: Legacy)

  const CURRENT_ACCOUNT_VERSION: u8 := 1

  const LEGACY_OFFSETS: seq<nat> :=
    [0, 32, 64, 96, 104, 112, 120, 128, 136, 144, 152, 160, 168, 176, 184, 185, 186, 187]
  const EXTENSION_OFFSETS: seq<nat> := [0, 8, 9, 17, 49, 57, 58, 66, 73]
  const LEGACY_SIZE := 195
  const MANDATE_SIZE := 268

  function StatusByte(s: MandateStatus): byte {
    match s case Active => 0 case Cancelled => 1 case Expired => 2
  }

  function BillingTypeByte(t: BillingType): byte {
    match t case Flat => 0 case Usage => 1
  }

  function LegacyParts(m: Legacy): (parts: seq<seq<byte>>)
    ensures Fits(parts, LEGACY_OFFSETS)
  {
    [m.subscriber, m.plan, m.merchant,
     U64Bytes(m.amount), U64Bytes(m.frequency), I64Bytes(m.startDate), I64Bytes(m.expiry),
     U64Bytes(m.maxPulls), U64Bytes(m.pullsExecuted), I64Bytes(m.nextPaymentDue), I64Bytes(m.lastPullAt),
     U64Bytes(m.lastBillingRecordedPull), U64Bytes(m.validationRequestNonce), U64Bytes(m.billingRequestNonce),
     [StatusByte(m.status)], [m.bump], [BillingTypeByte(m.billingType)]]
  }

  function ExtensionParts(e: Extension): (parts: seq<seq<byte>>)
    ensures Fits(parts, EXTENSION_OFFSETS)
  {
    [U64Bytes(e.mandateIndex), [e.version], U64Bytes(e.creditBalance), e.pendingNewPlan,
     I64Bytes(e.pendingEffectiveAt), [e.pendingChangeType], e.pendingNonce, e.reserved]
  }

  function Bounded(x: int): u64 {
    if 0 <= x <= U64_MAX then x else 0
  }

  function BoundedSigned(x: int): i64 {
    if -I64_MAX - 1 <= x <= I64_MAX then x else 0
  }

  function U64At(part: seq<byte>): u64 { Bounded(U64Of(part)) }
  function I64At(part: seq<byte>): i64 { BoundedSigned(I64Of(part)) }

  /** Deserialization fails only on an unknown enum tag. */
  function ParseLegacy(p: seq<seq<byte>>): Result<Legacy>
    requires Fits(p, LEGACY_OFFSETS)
  {
    if p[14][0] > 2 || p[16][0] > 1 then Err(InvalidAccountData)
    else
      Ok(Legacy(p[0], p[1], p[2], U64At(p[3]), U64At(p[4]), I64At(p[5]), I64At(p[6]), U64At(p[7]), U64At(p[8]),
                I64At(p[9]), I64At(p[10]), U64At(p[11]), U64At(p[12]), U64At(p[13]),
                if p[14][0] == 0 then Active else if p[14][0] == 1 then Cancelled else Expired,
                p[15][0],
                if p[16][0] == 0 then Flat else Usage))
  }

  function ParseExtension(p: seq<seq<byte>>): Extension
    requires Fits(p, EXTENSION_OFFSETS)
  {
    Extension(U64At(p[0]), p[1][0], U64At(p[2]), p[3], I64At(p[4]), p[5][0], p[6], p[7])
  }

  lemma ReadBack(x: u64, y: i64)
    ensures U64At(U64Bytes(x)) == x && I64At(I64Bytes(y)) == y
  {
    IntegersRoundTrip(x, y);
  }

  lemma ReadExact(part: seq<byte>)
    requires |part| == 8
    ensures U64Bytes(U64At(part)) == part && I64Bytes(I64At(part)) == part
  {
    EightBytes();
    BytesOf(part);
  }

  /** Parts that parse are those of the mandate they parse as. */
  lemma PartsOfLegacy(p: seq<seq<byte>>)
    requires Fits(p, LEGACY_OFFSETS) && ParseLegacy(p).Ok?
    ensures LegacyParts(ParseLegacy(p).value) == p
  {
    hide U64At, I64At, U64Bytes, I64Bytes;
    forall i | 3 <= i < 14
      ensures |p[i]| == 8 && U64Bytes(U64At(p[i])) == p[i] && I64Bytes(I64At(p[i])) == p[i]
    {
      assert Width(LEGACY_OFFSETS, i) == 8;
      ReadExact(p[i]);
    }
    assert Width(LEGACY_OFFSETS, 14) == 1 && Width(LEGACY_OFFSETS, 15) == 1 && Width(LEGACY_OFFSETS, 16) == 1;
    assert p[14] == [p[14][0]] && p[15] == [p[15][0]] && p[16] == [p[16][0]];
  }

  lemma PartsOfExtension(p: seq<seq<byte>>)
    requires Fits(p, EXTENSION_OFFSETS)
    ensures ExtensionParts(ParseExtension(p)) == p
  {
    hide U64At, I64At, U64Bytes, I64Bytes;
    assert Width(EXTENSION_OFFSETS, 0) == 8 && Width(EXTENSION_OFFSETS, 2) == 8 && Width(EXTENSION_OFFSETS, 4) == 8;
    assert Width(EXTENSION_OFFSETS, 1) == 1 && Width(EXTENSION_OFFSETS, 5) == 1;
    ReadExact(p[0]);
    ReadExact(p[2]);
    ReadExact(p[4]);
    assert p[1] == [p[1][0]] && p[5] == [p[5][0]];
  }

  lemma ParseLegacyParts(m: Legacy)
    ensures ParseLegacy(LegacyParts(m)) == Ok(m)
  {
    hide U64At, I64At, U64Bytes, I64Bytes;
    ReadBack(m.amount, m.startDate);
    ReadBack(m.frequency, m.expiry);
    ReadBack(m.maxPulls, m.nextPaymentDue);
    ReadBack(m.pullsExecuted, m.lastPullAt);
    ReadBack(m.lastBillingRecordedPull, 0);
    ReadBack(m.validationRequestNonce, 0);
    ReadBack(m.billingRequestNonce, 0);
  }

  lemma ParseExtensionParts(e: Extension)
    ensures ParseExtension(ExtensionParts(e)) == e
  {
    hide U64At, I64At, U64Bytes, I64Bytes;
    ReadBack(e.mandateIndex, e.pendingEffectiveAt);
    ReadBack(e.creditBalance, 0);
  }

  lemma Layouts()
    ensures Layout(LEGACY_OFFSETS) && Layout(EXTENSION_OFFSETS)
  {
  }

  function Zeros(n: nat): seq<byte> {
    seq(n, _ => 0)
  }

  /** The serialized account, discriminator first. */
  function Body(disc: Eight, m: Mandate, legacyLayout: bool): seq<byte> {
    disc + Concat(LegacyParts(m.base)) + if legacyLayout then [] else Concat(ExtensionParts(m.ext))
  }

  lemma BodyLength(disc: Eight, m: Mandate, legacyLayout: bool)
    ensures |Body(disc, m, legacyLayout)| == if legacyLayout then LEGACY_SIZE else MANDATE_SIZE
  {
    Layouts();
    ConcatLength(LegacyParts(m.base), LEGACY_OFFSETS);
    ConcatLength(ExtensionParts(m.ext), EXTENSION_OFFSETS);
  }

  /** What a buffer of `n` bytes holds after the write; too short a buffer is an error. */
  function Image(disc: Eight, m: Mandate, legacyLayout: bool, n: nat): Result<seq<byte>> {
    var body := Body(disc, m, legacyLayout);
    if |body| > n then Err(InvalidAccountData) else Ok(body + Zeros(n - |body|))
  }

  predicate OnlyZeros(data: seq<byte>) {
    forall i :: 0 <= i < |data| ==> data[i] == 0
  }

  /** Reading an account as the current layout, whatever its version. */
  function TryCurrent(data: seq<byte>): Result<Mandate> {
    if |data| < MANDATE_SIZE then Err(InvalidAccountData)
    else
      Layouts();
      var legacy :- ParseLegacy(Cut(data[8..], LEGACY_OFFSETS));
      Ok(Mandate(legacy, ParseExtension(Cut(data[LEGACY_SIZE..], EXTENSION_OFFSETS))))
  }

  /** The current layout first, by its version byte; otherwise the legacy layout, zero padded. */
  function Load(disc: Eight, data: seq<byte>): Result<Loaded> {
    if !(disc <= data) then Err(InvalidAccountData)
    else if TryCurrent(data).Ok? && TryCurrent(data).value.ext.version == CURRENT_ACCOUNT_VERSION then
      Ok(LoadedCurrent(TryCurrent(data).value))
    else if |data| < LEGACY_SIZE then Err(InvalidAccountData)
    else
      Layouts();
      var legacy :- ParseLegacy(Cut(data[8..], LEGACY_OFFSETS));
      var _ :- Need(OnlyZeros(data[LEGACY_SIZE..]), InvalidAccountData);
      Ok(LoadedLegacy(legacy))
  }

  lemma {:induction false} CutLegacy(disc: Eight, m: Legacy, rest: seq<byte>)
    ensures var data := disc + Concat(LegacyParts(m)) + rest;
            && |data| == LEGACY_SIZE + |rest| && data[LEGACY_SIZE..] == rest && disc <= data
            && Cut(data[8..], LEGACY_OFFSETS) == LegacyParts(m)
  {
    Layouts();
    var data := disc + Concat(LegacyParts(m)) + rest;
    CutConcat(LegacyParts(m), LEGACY_OFFSETS, rest);
    assert data[8..] == Concat(LegacyParts(m)) + rest;
  }

  /** Round trip: whatever is written, in either layout and in any buffer long enough, loads back as the
      same mandate in the same layout; writing fails exactly when the buffer is too short. */
  lemma MandateRoundTrip(disc: Eight, m: Mandate, legacyLayout: bool, n: nat)
    requires !legacyLayout ==> m.ext.version == CURRENT_ACCOUNT_VERSION
    ensures Image(disc, m, legacyLayout, n).Ok? <==> n >= if legacyLayout then LEGACY_SIZE else MANDATE_SIZE
    ensures Image(disc, m, legacyLayout, n).Ok? ==>
              var data := Image(disc, m, legacyLayout, n).value;
              |data| == n && Load(disc, data) == Ok(if legacyLayout then LoadedLegacy(m.base) else LoadedCurrent(m))
  {
    hide LegacyParts, ExtensionParts, ParseLegacy, ParseExtension, Concat, Cut, Layout;
    BodyLength(disc, m, legacyLayout);
    if Image(disc, m, legacyLayout, n).Ok? {
      var data := Image(disc, m, legacyLayout, n).value;
      ParseLegacyParts(m.base);
      if legacyLayout {
        var rest := Zeros(n - LEGACY_SIZE);
        assert data == disc + Concat(LegacyParts(m.base)) + rest;
        CutLegacy(disc, m.base, rest);
        if n >= MANDATE_SIZE {
          ZeroExtension(rest);
        }
      } else {
        var rest := Concat(ExtensionParts(m.ext)) + Zeros(n - MANDATE_SIZE);
        assert data == disc + Concat(LegacyParts(m.base)) + rest;
        CutLegacy(disc, m.base, rest);
        CutConcat(ExtensionParts(m.ext), EXTENSION_OFFSETS, Zeros(n - MANDATE_SIZE));
        ParseExtensionParts(m.ext);
      }
    }
  }

  /** Nothing else loads: an account that loads is the image of the mandate it loads as, in that layout, followed by
      anything in the current layout and by zeros in the legacy one. */
  lemma LoadedIsStored(disc: Eight, data: seq<byte>)
    requires Load(disc, data).Ok?
    ensures match Load(disc, data).value
            case LoadedCurrent(m) =>
              && m.ext.version == CURRENT_ACCOUNT_VERSION && |data| >= MANDATE_SIZE
              && data[..MANDATE_SIZE] == disc + Concat(LegacyParts(m.base)) + Concat(ExtensionParts(m.ext))
            case LoadedLegacy(l) =>
              && |data| >= LEGACY_SIZE
              && data == disc + Concat(LegacyParts(l)) + Zeros(|data| - LEGACY_SIZE)
  {
    hide LegacyParts, ExtensionParts, ParseLegacy, ParseExtension, Concat, Cut, Layout;
    Layouts();
    if |data| >= LEGACY_SIZE && disc <= data {
      var p := Cut(data[8..], LEGACY_OFFSETS);
      ConcatAllCut(data[8..], LEGACY_OFFSETS);
      if ParseLegacy(p).Ok? {
        PartsOfLegacy(p);
      }
      assert data[..LEGACY_SIZE] == disc + data[8..][..187];
      if |data| >= MANDATE_SIZE {
        ConcatAllCut(data[LEGACY_SIZE..], EXTENSION_OFFSETS);
        PartsOfExtension(Cut(data[LEGACY_SIZE..], EXTENSION_OFFSETS));
        assert data[..MANDATE_SIZE] == data[..LEGACY_SIZE] + data[LEGACY_SIZE..][..73];
      }
      if OnlyZeros(data[LEGACY_SIZE..]) {
        assert data[LEGACY_SIZE..] == Zeros(|data| - LEGACY_SIZE);
      }
      assert data == data[..LEGACY_SIZE] + data[LEGACY_SIZE..];
    }
  }

  /** A current-layout image with another version is not read as current: it is refused, unless the whole
      extension is zero, when it is indistinguishable from a padded legacy account. */
  lemma OtherVersionsAreNotCurrent(disc: Eight, m: Mandate, n: nat)
    requires m.ext.version != CURRENT_ACCOUNT_VERSION && n >= MANDATE_SIZE
    ensures Image(disc, m, false, n).Ok?
    ensures Load(disc, Image(disc, m, false, n).value)
         == if OnlyZeros(Concat(ExtensionParts(m.ext))) then Ok(LoadedLegacy(m.base)) else Err(InvalidAccountData)
  {
    hide LegacyParts, ExtensionParts, ParseLegacy, ParseExtension, Concat, Cut, Layout;
    BodyLength(disc, m, false);
    ParseLegacyParts(m.base);
    var ext, pad := Concat(ExtensionParts(m.ext)), Zeros(n - MANDATE_SIZE);
    var rest := ext + pad;
    assert Image(disc, m, false, n).value == disc + Concat(LegacyParts(m.base)) + rest;
    CutLegacy(disc, m.base, rest);
    Layouts();
    CutConcat(ExtensionParts(m.ext), EXTENSION_OFFSETS, pad);
    ParseExtensionParts(m.ext);
    assert OnlyZeros(ext) ==> OnlyZeros(rest);
    assert OnlyZeros(rest) ==> OnlyZeros(ext) by {
      assert rest[..|ext|] == ext;
    }
  }

  lemma {:induction false} ZeroExtension(rest: seq<byte>)
    requires OnlyZeros(rest) && 73 <= |rest|
    ensures Layout(EXTENSION_OFFSETS) && ParseExtension(Cut(rest, EXTENSION_OFFSETS)).version == 0
  {
    Layouts();
    assert Cut(rest, EXTENSION_OFFSETS)[1] == Slice(rest, EXTENSION_OFFSETS, 1) == rest[8..9];
  }

  lemma {:induction false} ZeroAt(data: seq<byte>, i: nat)
    requires OnlyZeros(data) && i < |data|
    ensures data[i] == 0
  {
  }

  /** No image is read in the other layout: with room for both, the version byte alone decides. */
  lemma {:induction false} VersionByteDecides(disc: Eight, data: seq<byte>)
    requires Load(disc, data).Ok? && |data| >= MANDATE_SIZE
    ensures Load(disc, data).value.LoadedCurrent? <==> data[203] == CURRENT_ACCOUNT_VERSION
    ensures Load(disc, data).value.LoadedLegacy? ==> data[203] == 0
  {
    hide ParseLegacy, Concat, Layout, OnlyZeros;
    Layouts();
    var rest := data[LEGACY_SIZE..];
    if OnlyZeros(rest) {
      ZeroAt(rest, 8);
    }
    assert rest[8..9] == [data[203]];
    assert Cut(rest, EXTENSION_OFFSETS)[1] == Slice(rest, EXTENSION_OFFSETS, 1) == rest[8..9];
  }

  /** The hook reads mandates in the current layout only, without looking at the version: a legacy account
      is readable to it exactly when it has been enlarged, and then shows the same period. */
  lemma HookReadsLegacyIffEnlarged(disc: Eight, m: Mandate, n: nat)
    requires n >= LEGACY_SIZE
    ensures Image(disc, m, true, n).Ok?
    ensures TryCurrent(Image(disc, m, true, n).value).Ok? <==> n >= MANDATE_SIZE
    ensures n >= MANDATE_SIZE ==> TryCurrent(Image(disc, m, true, n).value).value.base == m.base
  {
    BodyLength(disc, m, true);
    ParseLegacyParts(m.base);
    var rest := Zeros(n - LEGACY_SIZE);
    assert Image(disc, m, true, n).value == disc + Concat(LegacyParts(m.base)) + rest;
    CutLegacy(disc, m.base, rest);
  }

  /** Overwrite the account: zero it, then serialize over the start. */
  method WriteMandate(data: array<byte>, disc: Eight, m: Mandate, legacyLayout: bool) returns (r: Result<()>)
    modifies data
    ensures match Image(disc, m, legacyLayout, data.Length)
            case Ok(image) => r == Ok(()) && data[..] == image
            case Err(e) => r == Err(e)
  {
    for i := 0 to data.Length
      invariant forall k :: 0 <= k < i ==> data[k] == 0
    {
      data[i] := 0;
    }
    var body := Body(disc, m, legacyLayout);
    var _ :- Need(|body| <= data.Length, InvalidAccountData);
    for i := 0 to |body|
      invariant forall k :: 0 <= k < i ==> data[k] == body[k]
      invariant forall k :: i <= k < data.Length ==> data[k] == 0
    {
      data[i] := body[i];
    }
    assert data[..] == body + Zeros(data.Length - |body|);
    return Ok(());
  }

  // ---------------------------------------------------------------- usage reports

  type Sixteen = a: seq<byte> | |a| == 16 witness ToBytes(0, 16)
  type Ciphertexts = a: seq<byte> | |a| == 416 witness ToBytes(0, 416)

  /** A usage report; the thirteen ciphertexts are kept as their 416 bytes. */
  datatype UsageReport = UsageReport(
    mandate: Address, merchant: Address, periodStart: i64, periodEnd: i64, ciphertexts: Ciphertexts,
    ciphertextCount: u8, nonce: Sixteen, pubKey: Address, settled: bool, createdAt: i64, bump: u8)

  const REPORT_OFFSETS: seq<nat> := [0, 8, 40, 72, 80, 88, 504, 505, 521, 553, 554, 562, 563]
  const SETTLED_OFFSET := 553

  function ReportParts(disc: Eight, r: UsageReport): (parts: seq<seq<byte>>)
    ensures Fits(parts, REPORT_OFFSETS)
  {
    [disc, r.mandate, r.merchant, I64Bytes(r.periodStart), I64Bytes(r.periodEnd), r.ciphertexts,
     [r.ciphertextCount], r.nonce, r.pubKey, [if r.settled then 1 else 0], I64Bytes(r.createdAt), [r.bump]]
  }

  function EncodeReport(disc: Eight, r: UsageReport): seq<byte> {
    Concat(ReportParts(disc, r))
  }

  function DecodeReport(disc: Eight, data: seq<byte>): Result<UsageReport> {
    if |data| < 563 then Err(PeriodMismatch)
    else
      var p := Cut(data, REPORT_OFFSETS);
      if p[0] != disc || p[9][0] > 1 then Err(PeriodMismatch)
      else
        Ok(UsageReport(p[1], p[2], I64At(p[3]), I64At(p[4]), p[5], p[6][0], p[7], p[8], p[9][0] == 1,
                       I64At(p[10]), p[11][0]))
  }

  lemma {:induction false} ReportRoundTrip(disc: Eight, r: UsageReport, rest: seq<byte>)
    ensures DecodeReport(disc, EncodeReport(disc, r) + rest) == Ok(r)
  {
    CutConcat(ReportParts(disc, r), REPORT_OFFSETS, rest);
    hide I64At, I64Bytes;
    ReadBack(0, r.periodStart);
    ReadBack(0, r.periodEnd);
    ReadBack(0, r.createdAt);
  }

  /** Nothing else decodes: an account that decodes starts with the image of the report it decodes as. */
  lemma DecodedIsStored(disc: Eight, data: seq<byte>)
    requires DecodeReport(disc, data).Ok?
    ensures |data| >= 563 && data[..563] == EncodeReport(disc, DecodeReport(disc, data).value)
  {
    hide U64At, I64At, U64Bytes, I64Bytes, Concat, Cut;
    var p := Cut(data, REPORT_OFFSETS);
    ConcatAllCut(data, REPORT_OFFSETS);
    assert Width(REPORT_OFFSETS, 3) == 8 && Width(REPORT_OFFSETS, 4) == 8 && Width(REPORT_OFFSETS, 10) == 8;
    assert Width(REPORT_OFFSETS, 6) == 1 && Width(REPORT_OFFSETS, 9) == 1 && Width(REPORT_OFFSETS, 11) == 1;
    ReadExact(p[3]);
    ReadExact(p[4]);
    ReadExact(p[10]);
    assert p[6] == [p[6][0]] && p[9] == [p[9][0]] && p[11] == [p[11][0]];
    assert ReportParts(disc, DecodeReport(disc, data).value) == p;
  }

  /** Patching one byte of the image is decoding it, settling the report, and encoding it again. */
  lemma PatchSettles(disc: Eight, r: UsageReport)
    ensures SETTLED_OFFSET < |EncodeReport(disc, r)|
    ensures EncodeReport(disc, r)[SETTLED_OFFSET := 1] == EncodeReport(disc, r.(settled := true))
    ensures DecodeReport(disc, EncodeReport(disc, r)[SETTLED_OFFSET := 1]) == Ok(r.(settled := true))
  {
    PatchOnePart(ReportParts(disc, r), REPORT_OFFSETS, 9, 1);
    assert ReportParts(disc, r)[9 := [1]] == ReportParts(disc, r.(settled := true));
    ReportRoundTrip(disc, r.(settled := true), []);
    assert EncodeReport(disc, r.(settled := true)) + [] == EncodeReport(disc, r.(settled := true));
  }

  /** The in-place patch: on the image of a report, exactly the settled flag changes. */
  method MarkUsageReportSettled(data: array<byte>) returns (r: Result<()>)
    modifies data
    ensures r == Need(data.Length > SETTLED_OFFSET, PeriodMismatch)
    ensures r.Err? ==> data[..] == old(data[..])
    ensures r.Ok? ==> data[..] == old(data[..])[SETTLED_OFFSET := 1]
    ensures forall disc: Eight, report :: old(data[..]) == EncodeReport(disc, report) ==>
              r.Ok? && data[..] == EncodeReport(disc, report.(settled := true))
  {
    ghost var before := data[..];
    forall disc: Eight, report | before == EncodeReport(disc, report)
      ensures SETTLED_OFFSET < |before|
              && before[SETTLED_OFFSET := 1] == EncodeReport(disc, report.(settled := true))
    {
      PatchSettles(disc, report);
    }
    var _ :- Need(data.Length > SETTLED_OFFSET, PeriodMismatch);
    data[SETTLED_OFFSET] := 1;
    return Ok(());
  }

  // ---------------------------------------------------------------- committed plan terms

  type FiveTiers = t: seq<Tier> | |t| == 5
    witness [NO_TIER, NO_TIER, NO_TIER, NO_TIER, NO_TIER]

  datatype PlanTerms = PlanTerms(
    plan: Address, merchant: Address, planId: u64, tiers: FiveTiers, tierCount: u8, maxCharge: u64, frequency: u64)

  const HEADER_OFFSETS: seq<nat> := [0, 32, 64, 72, 73, 81, 89]

  function TermsHeader(t: PlanTerms): (parts: seq<seq<byte>>)
    ensures Fits(parts, HEADER_OFFSETS)
  {
    [t.plan, t.merchant, U64Bytes(t.planId), [t.tierCount], U64Bytes(t.maxCharge), U64Bytes(t.frequency)]
  }

  function TierBytes(tiers: seq<Tier>): seq<byte> {
    if tiers == [] then []
    else TierBytes(tiers[..|tiers| - 1]) + U64Bytes(tiers[|tiers| - 1].upTo) + U64Bytes(tiers[|tiers| - 1].rate)
  }

  /** "vela-usage-plan-terms-v1", in ASCII. */
  const TERMS_TAG: seq<byte> :=
    [118, 101, 108, 97, 45, 117, 115, 97, 103, 101, 45, 112, 108, 97, 110, 45, 116, 101, 114, 109, 115, 45, 118, 49]

  /** The byte string that is hashed, after a constant tag. */
  function TermsBytes(tag: seq<byte>, t: PlanTerms): seq<byte> {
    tag + Concat(TermsHeader(t)) + TierBytes(t.tiers)
  }

  method BuildTermsBytes(tag: seq<byte>, t: PlanTerms) returns (bytes: seq<byte>)
    ensures bytes == TermsBytes(tag, t)
  {
    bytes := tag;
    bytes := bytes + t.plan;
    bytes := bytes + t.merchant;
    bytes := bytes + U64Bytes(t.planId);
    bytes := bytes + [t.tierCount];
    bytes := bytes + U64Bytes(t.maxCharge);
    bytes := bytes + U64Bytes(t.frequency);
    HeaderInFull(t);
    assert bytes == tag + Concat(TermsHeader(t)) + TierBytes(t.tiers[..0]);
    for i := 0 to 5
      invariant bytes == tag + Concat(TermsHeader(t)) + TierBytes(t.tiers[..i])
    {
      bytes := bytes + U64Bytes(t.tiers[i].upTo);
      bytes := bytes + U64Bytes(t.tiers[i].rate);
      assert t.tiers[..i + 1][..i] == t.tiers[..i];
    }
    assert t.tiers[..5] == t.tiers;
  }

  lemma HeaderInFull(t: PlanTerms)
    ensures Concat(TermsHeader(t)) == t.plan + t.merchant + U64Bytes(t.planId) + [t.tierCount]
                                      + U64Bytes(t.maxCharge) + U64Bytes(t.frequency)
  {
    hide U64Bytes;
    var p := TermsHeader(t);
    assert p[..0] == p[..1][..0] && p[..2][..1] == p[..1] && p[..3][..2] == p[..2] && p[..4][..3] == p[..3]
           && p[..5][..4] == p[..4] && p[..6] == p;
    assert Concat(p[..1]) == t.plan;
    assert Concat(p[..2]) == t.plan + t.merchant;
    assert Concat(p[..3]) == Concat(p[..2]) + U64Bytes(t.planId);
    assert Concat(p[..4]) == Concat(p[..3]) + [t.tierCount];
    assert Concat(p[..5]) == Concat(p[..4]) + U64Bytes(t.maxCharge);
  }

  lemma {:induction false} TierBytesLength(tiers: seq<Tier>)
    ensures |TierBytes(tiers)| == 16 * |tiers|
  {
    if tiers != [] {
      TierBytesLength(tiers[..|tiers| - 1]);
    }
  }

  lemma {:induction false} TierBytesInjective(a: seq<Tier>, b: seq<Tier>)
    requires |a| == |b| && TierBytes(a) == TierBytes(b)
    ensures a == b
  {
    if a != [] {
      var n := |a| - 1;
      TierBytesLength(a[..n]);
      TierBytesLength(b[..n]);
      LastTierBytes(a);
      LastTierBytes(b);
      hide TierBytes, U64Bytes;
      IntegersRoundTrip(a[n].upTo, 0);
      IntegersRoundTrip(b[n].upTo, 0);
      IntegersRoundTrip(a[n].rate, 0);
      IntegersRoundTrip(b[n].rate, 0);
      TierBytesInjective(a[..n], b[..n]);
      assert a == a[..n] + [a[n]] && b == b[..n] + [b[n]];
    }
  }

  lemma {:induction false} LastTierBytes(a: seq<Tier>)
    requires a != []
    ensures var n := |a| - 1;
            && |TierBytes(a)| == 16 * n + 16
            && TierBytes(a)[..16 * n] == TierBytes(a[..n])
            && TierBytes(a)[16 * n..16 * n + 8] == U64Bytes(a[n].upTo)
            && TierBytes(a)[16 * n + 8..] == U64Bytes(a[n].rate)
  {
    TierBytesLength(a);
    TierBytesLength(a[..|a| - 1]);
    hide U64Bytes;
  }

  /** Different terms are committed to by different byte strings. */
  lemma {:induction false} TermsBytesInjective(tag: seq<byte>, a: PlanTerms, b: PlanTerms)
    requires TermsBytes(tag, a) == TermsBytes(tag, b)
    ensures a == b
  {
    ConcatLength(TermsHeader(a), HEADER_OFFSETS);
    ConcatLength(TermsHeader(b), HEADER_OFFSETS);
    var k, n := |tag|, 89;
    assert TermsBytes(tag, a)[k..k + n] == Concat(TermsHeader(a));
    assert TermsBytes(tag, b)[k..k + n] == Concat(TermsHeader(b));
    assert TermsBytes(tag, a)[k + n..] == TierBytes(a.tiers) && TermsBytes(tag, b)[k + n..] == TierBytes(b.tiers);
    ConcatInjective(TermsHeader(a), TermsHeader(b), HEADER_OFFSETS);
    TierBytesInjective(a.tiers, b.tiers);
    HeaderInjective(a, b);
  }

  lemma HeaderInjective(a: PlanTerms, b: PlanTerms)
    requires TermsHeader(a) == TermsHeader(b)
    ensures a.(tiers := b.tiers) == b
  {
    hide U64Of, U64Bytes;
    var p, q := TermsHeader(a), TermsHeader(b);
    assert p[0] == q[0] && p[1] == q[1] && p[2] == q[2] && p[3] == q[3] && p[4] == q[4] && p[5] == q[5];
    IntegersRoundTrip(a.planId, 0);
    IntegersRoundTrip(b.planId, 0);
    IntegersRoundTrip(a.maxCharge, 0);
    IntegersRoundTrip(b.maxCharge, 0);
    IntegersRoundTrip(a.frequency, 0);
    IntegersRoundTrip(b.frequency, 0);
  }
}
