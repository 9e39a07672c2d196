/**
  Managed entity ids that are computed from the bridge port of a UNI and the tech profile, and the conversion of a
  bit string to bytes.  Arithmetic on ids is 16 bits wide.
*/
module EntityIds {
  import opened Words

  datatype Result<T> = Ok(value: T) | OutOfRange

  const TP_ID_START: uint16 := 64
  const TP_ID_END: uint16 := 256
  const TP_RANGE: uint16 := 192
  const MAX_UNI: uint16 := 256
  const MAPPER_BASE: uint16 := 0x1001
  const ANI_PORT_BASE: uint16 := 0x1001
  const UNI_PORT_BASE: uint16 := 0x201
  const MCAST_PORT_BASE: uint16 := 0xA01
  const VOIP_UNI_BASE: uint16 := 0x2001

  function Wrap(n: int): uint16 { n % 0x1_0000 }

  predicate Accepted(bp: uint16, tp: uint16) {
    TP_ID_START <= tp < TP_ID_END && bp <= MAX_UNI
  }

  /** base + bp * range + tp - start, every operation reduced to 16 bits. */
  function MixedRadix(base: uint16, bp: uint16, tp: uint16): uint16 {
    Wrap(Wrap(Wrap(base + Wrap(bp * TP_RANGE)) + tp) - TP_ID_START)
  }

  function MapperId(bp: uint16, tp: uint16): (r: Result<uint16>)
    ensures r.Ok? <==> Accepted(bp, tp)
    ensures r.Ok? ==> r.value - MAPPER_BASE == bp * TP_RANGE + (tp - TP_ID_START)
  {
    if tp < TP_ID_START || tp >= TP_ID_END then OutOfRange
    else if bp > MAX_UNI then OutOfRange
    else Ok(MixedRadix(MAPPER_BASE, bp, tp))
  }

  function AniPortId(bp: uint16, tp: uint16): (r: Result<uint16>)
    ensures r.Ok? <==> Accepted(bp, tp)
    ensures r.Ok? ==> r.value - ANI_PORT_BASE == bp * TP_RANGE + (tp - TP_ID_START)
  {
    if tp < TP_ID_START || tp >= TP_ID_END then OutOfRange
    else if bp > MAX_UNI then OutOfRange
    else Ok(MixedRadix(ANI_PORT_BASE, bp, tp))
  }

  function UniPortId(bp: uint16): (r: Result<uint16>)
    ensures r.Ok? <==> bp <= MAX_UNI
    ensures r.Ok? ==> r.value - UNI_PORT_BASE == bp
  {
    if bp > MAX_UNI then OutOfRange else Ok(Wrap(UNI_PORT_BASE + bp))
  }

  function McastPortId(bp: uint16): (r: Result<uint16>)
    ensures r.Ok? <==> bp <= MAX_UNI
    ensures r.Ok? ==> r.value - MCAST_PORT_BASE == bp
  {
    if bp > MAX_UNI then OutOfRange else Ok(Wrap(MCAST_PORT_BASE + bp))
  }

  function VoipUniId(bp: uint16): (r: Result<uint16>)
    ensures r.Ok? <==> bp <= MAX_UNI
    ensures r.Ok? ==> r.value - VOIP_UNI_BASE == bp
  {
    if bp > MAX_UNI then OutOfRange else Ok(Wrap(VOIP_UNI_BASE + bp))
  }

  function AniPortNo(tp: uint16): (r: Result<uint16>)
    ensures r.Ok? <==> TP_ID_START <= tp < TP_ID_END
    ensures r.Ok? ==> r.value < TP_RANGE && r.value + TP_ID_START == tp
  {
    if tp < TP_ID_START || tp >= TP_ID_END then OutOfRange else Ok(tp - TP_ID_START)
  }

  /** On accepted inputs no operation wraps, and dividing by the range gives both inputs back. */
  lemma {:induction false} IdInverse(bp: uint16, tp: uint16)
    requires Accepted(bp, tp)
    ensures AniPortId(bp, tp) == MapperId(bp, tp)
    ensures AniPortId(bp, tp).value == ANI_PORT_BASE + bp * TP_RANGE + (tp - TP_ID_START) <= 0xD0C0
    ensures bp == (AniPortId(bp, tp).value - ANI_PORT_BASE) / TP_RANGE
    ensures tp == (AniPortId(bp, tp).value - ANI_PORT_BASE) % TP_RANGE + TP_ID_START
    ensures AniPortNo(tp) == Ok((AniPortId(bp, tp).value - ANI_PORT_BASE) % TP_RANGE)
  {
    assert bp * TP_RANGE <= 256 * 192;
  }

  lemma {:induction false} IdInjective(bp1: uint16, tp1: uint16, bp2: uint16, tp2: uint16)
    requires Accepted(bp1, tp1) && Accepted(bp2, tp2)
    ensures AniPortId(bp1, tp1) == AniPortId(bp2, tp2) <==> bp1 == bp2 && tp1 == tp2
    ensures MapperId(bp1, tp1) == MapperId(bp2, tp2) <==> bp1 == bp2 && tp1 == tp2
  {
    IdInverse(bp1, tp1);
    IdInverse(bp2, tp2);
  }

  /** No bridge port id of one kind is an id of another kind, whatever the inputs. */
  lemma {:induction false} RangesDisjoint(bp: uint16, tp: uint16, uni: uint16, mcast: uint16)
    requires Accepted(bp, tp) && uni <= MAX_UNI && mcast <= MAX_UNI
    ensures UniPortId(uni).value < McastPortId(mcast).value < AniPortId(bp, tp).value
  {
    IdInverse(bp, tp);
  }

  /** Ids of voice UNIs do fall into the range of the mapper ids: which pair collides is given by the div/mod
      inverse. */
  lemma {:induction false} VoipSharesMapperRange(voip: uint16)
    requires voip <= MAX_UNI
    ensures VoipUniId(voip).Ok?
    ensures var offset := 0x1000 + voip;
            && Accepted(offset / TP_RANGE, offset % TP_RANGE + TP_ID_START)
            && VoipUniId(voip).value == MapperId(offset / TP_RANGE, offset % TP_RANGE + TP_ID_START).value
  {
    var offset := 0x1000 + voip;
    IdInverse(offset / TP_RANGE, offset % TP_RANGE + TP_ID_START);
  }

  // ---------------------------------------------------------------- bit strings

  predicate IsBit(c: char) { c == '0' || c == '1' }

  predicate Bits(s: string) {
    forall i | 0 <= i < |s| :: IsBit(s[i])
  }

  function Power2(n: nat): nat { if n == 0 then 1 else 2 * Power2(n - 1) }

  /** The number a bit string stands for, most significant bit first. */
  function Binary(s: string): nat {
    if s == "" then 0 else 2 * Binary(s[..|s| - 1]) + if s[|s| - 1] == '1' then 1 else 0
  }

  /** The number a byte sequence stands for, most significant byte first. */
  function Bytes(b: seq<nat>): nat {
    if b == [] then 0 else b[0] * Power2(8 * (|b| - 1)) + Bytes(b[1..])
  }

  lemma {:induction false} PowerSum(a: nat, b: nat)
    ensures Power2(a + b) == Power2(a) * Power2(b)
  {
    if a > 0 { PowerSum(a - 1, b); }
  }

  lemma {:induction false} BinaryConcat(a: string, b: string)
    ensures Binary(a + b) == Binary(a) * Power2(|b|) + Binary(b)
  {
    if b == "" {
      assert a + b == a;
    } else {
      var front := b[..|b| - 1];
      BinaryConcat(a, front);
      assert (a + b)[..|a + b| - 1] == a + front;
      assert Power2(|b|) == 2 * Power2(|front|);
      assert Binary(a) * Power2(|b|) == 2 * (Binary(a) * Power2(|front|));
    }
  }

  lemma {:induction false} BinaryBound(s: string)
    ensures Binary(s) < Power2(|s|)
  {
    if s != "" { BinaryBound(s[..|s| - 1]); }
  }

  /** Splits the string into bytes from its end; the value stays the same.  A character that is no bit panics. */
  method AsByteSlice(bits: string) returns (out: Result<seq<nat>>)
    ensures out.Ok? <==> Bits(bits)
    ensures out.Ok? ==> |out.value| == (|bits| + 7) / 8 && Bytes(out.value) == Binary(bits)
    ensures out.Ok? ==> forall i | 0 <= i < |out.value| :: out.value[i] < 256
  {
    var bytes: seq<nat> := [];
    var i := |bits|;
    while i > 0
      invariant i <= |bits| && Bits(TailFrom(bits, i)) && Bytes(bytes) == Binary(TailFrom(bits, i))
      invariant if i > 0 then |bytes| * 8 == |bits| - i else |bytes| == (|bits| + 7) / 8
      invariant forall k | 0 <= k < |bytes| :: bytes[k] < 256
    {
      var from := if i - 8 < 0 then 0 else i - 8;
      var chunk := bits[from..i];
      var clean := AllBits(chunk);
      if !clean {
        assert !Bits(bits);
        return OutOfRange;
      }
      ByteStep(bits, from, i, bytes);
      bytes := [Binary(chunk)] + bytes;
      i := i - 8;
    }
    return Ok(bytes);
  }

  /** The part of the string that was converted when the loop index is `i`. */
  function TailFrom(bits: string, i: int): string
    requires i <= |bits|
  {
    if i <= 0 then bits else bits[i..]
  }

  method AllBits(s: string) returns (ok: bool)
    ensures ok <==> Bits(s)
  {
    for k := 0 to |s|
      invariant forall j | 0 <= j < k :: IsBit(s[j])
    {
      if !IsBit(s[k]) { return false; }
    }
    return true;
  }

  lemma {:induction false} ByteStep(bits: string, from: nat, to: nat, bytes: seq<nat>)
    requires from < to <= |bits| && to - from <= 8 && |bits| - to == 8 * |bytes| && Bytes(bytes) == Binary(bits[to..])
    ensures Bytes([Binary(bits[from..to])] + bytes) == Binary(bits[from..]) && Binary(bits[from..to]) < 256
    ensures Bits(bits[from..to]) && Bits(bits[to..]) ==> Bits(bits[from..])
  {
    var chunk, rest := bits[from..to], bits[to..];
    assert bits[from..] == chunk + rest;
    BinaryConcat(chunk, rest);
    assert ([Binary(chunk)] + bytes)[1..] == bytes;
    BinaryBound(chunk);
    PowerSum(|chunk|, 8 - |chunk|);
    assert Power2(8) == 256;
    assert Power2(8 - |chunk|) >= 1;
  }
}
