/**
 * How an ocall's result reaches the guest: a tagged 64-bit integer, and for large results a second
 * call that fetches a buffer the host kept.
 */
module OcallReturns {
  import opened Common
  import opened ArgsStack
  import opened OcallArgs

  const NOT_FOUND: ErrorCode := 7

  // The tagged integer

  function Tagged(tag: Word, val: Word): bv64 {
    ((tag as bv64) << 32) | (val as bv64)
  }

  function EncodeRet(r: Result<Word, ErrorCode>): bv64 {
    match r
    case Ok(v) => Tagged(0, v)
    case Err(e) => Tagged(1, ToI32(Code(e)))
  }

  /** None when the guest panics on an unknown error code. */
  function DecodeRet(w: bv64): Option<Result<Word, ErrorCode>> {
    if High32(w) == 0 then Some(Ok(Low32(w)))
    else
      match FromI32(KCode, Low32(w))
      case Ok(Code(c)) => Some(Err(c))
      case _ => None
  }

  lemma TaggedHalves(tag: Word, val: Word)
    ensures High32(Tagged(tag, val)) == tag
    ensures Low32(Tagged(tag, val)) == val
  {
  }

  lemma HalvesTagged(w: bv64)
    ensures Tagged(High32(w), Low32(w)) == w
  {
  }

  lemma RetRoundTrip(r: Result<Word, ErrorCode>)
    ensures DecodeRet(EncodeRet(r)) == Some(r)
  {
    match r {
      case Ok(v) => TaggedHalves(0, v);
      case Err(e) =>
        TaggedHalves(1, ToI32(Code(e)));
        FromToI32(Code(e));
    }
    hide Tagged, High32, Low32;
  }

  /** An integer the guest accepts is the encoding of what it reads exactly when its tag is 0 or 1. */
  lemma RetEncodingIff(w: bv64)
    requires DecodeRet(w).Some?
    ensures EncodeRet(DecodeRet(w).value) == w <==> High32(w) <= 1
  {
    HalvesTagged(w);
    ToFromI32(KCode, Low32(w));
    TaggedHalves(1, Low32(w));
    hide Tagged, High32, Low32;
  }

  /** The guest's reading of a fast call whose result has the given kind. */
  function FastReturn(kind: ScalarKind, w: bv64): Option<Result<Scalar, ErrorCode>> {
    match DecodeRet(w)
    case None => None
    case Some(Err(e)) => Some(Err(e))
    case Some(Ok(v)) => Some(FromI32(kind, v))
  }

  lemma FastReturnRoundTrip(kind: ScalarKind, r: Result<Scalar, ErrorCode>)
    requires r.Ok? ==> ScalarKindOf(r.value) == kind
    ensures FastReturn(kind, EncodeRet(match r case Ok(x) => Ok(ToI32(x)) case Err(e) => Err(e))) == Some(r)
  {
    match r {
      case Ok(x) =>
        RetRoundTrip(Ok(ToI32(x)));
        FromToI32(x);
      case Err(e) => RetRoundTrip(Err(e));
    }
    hide DecodeRet, EncodeRet, FromI32, ToI32;
  }

  // The buffer

  /** A guest address survives the trip through a signed word. */
  lemma AddressRoundTrip(at: nat)
    requires at < TWO32
    ensures AsU32(AsI32(at)) == at
  {
  }

  // Integers and words, byte by byte

  function Packed(b0: bv8, b1: bv8, b2: bv8, b3: bv8): Word {
    ZeroExtend8(b0) | (ZeroExtend8(b1) << 8) | (ZeroExtend8(b2) << 16) | (ZeroExtend8(b3) << 24)
  }

  function Joined4(high: bv4, low: bv4): bv8 {
    ((high as bv8) << 4) | (low as bv8)
  }

  function High4(b: bv8): bv4 {
    (b >> 4) as bv4
  }

  function Low4(b: bv8): bv4 {
    (b & 0xF) as bv4
  }

  function ByteOf(n: nat): bv8
    requires n < 256
  {
    Joined4((n / 16) as bv4, (n % 16) as bv4)
  }

  function ByteValue(b: bv8): nat {
    16 * (High4(b) as int) + (Low4(b) as int)
  }

  /** The digit of `m` to base 256 that counts multiples of `weight`. */
  function Digit(m: nat, weight: nat): (d: nat)
    requires weight > 0
    ensures d < 256
  {
    m / weight % 256
  }

  function Total(d0: nat, d1: nat, d2: nat, d3: nat): nat {
    d0 + 256 * d1 + 65536 * d2 + 16777216 * d3
  }

  function WordOfDigits(d0: nat, d1: nat, d2: nat, d3: nat): Word
    requires d0 < 256 && d1 < 256 && d2 < 256 && d3 < 256
  {
    Packed(ByteOf(d0), ByteOf(d1), ByteOf(d2), ByteOf(d3))
  }

  function Unsigned(w: Word): nat {
    Total(ByteValue(Low8(w)), ByteValue(Low8(w >> 8)), ByteValue(Low8(w >> 16)), ByteValue(Low8(w >> 24)))
  }

  /** The word that holds an integer, cut to 32 bits. */
  function ToWord(n: int): Word {
    var m := AsU32(n);
    WordOfDigits(Digit(m, 1), Digit(m, 256), Digit(m, 65536), Digit(m, 16777216))
  }

  /** The signed integer in a word. */
  function FromWord(w: Word): int {
    AsI32(Unsigned(w))
  }

  lemma PackedBytes(b0: bv8, b1: bv8, b2: bv8, b3: bv8)
    ensures var w := Packed(b0, b1, b2, b3);
      Low8(w) == b0 && Low8(w >> 8) == b1 && Low8(w >> 16) == b2 && Low8(w >> 24) == b3
  {
  }

  lemma Joined4Halves(high: bv4, low: bv4)
    ensures High4(Joined4(high, low)) == high && Low4(Joined4(high, low)) == low
  {
  }

  lemma HalfByteRoundTrip(n: nat)
    requires n < 16
    ensures (n as bv4) as int == n
  {
  }

  lemma ByteRoundTrip(n: nat)
    requires n < 256
    ensures ByteValue(ByteOf(n)) == n
  {
    HalfByteRoundTrip(n / 16);
    HalfByteRoundTrip(n % 16);
    Joined4Halves((n / 16) as bv4, (n % 16) as bv4);
    hide Joined4, High4, Low4;
  }

  lemma DivTwice(m: nat, a: nat)
    requires a == 256 || a == 65536
    ensures m / a / 256 == m / (a * 256)
  {
  }

  lemma SplitDigit(m: nat)
    ensures m == m % 256 + 256 * (m / 256)
  {
  }

  lemma DigitsAddUp(m: nat)
    requires m < TWO32
    ensures Total(Digit(m, 1), Digit(m, 256), Digit(m, 65536), Digit(m, 16777216)) == m
  {
    DivTwice(m, 256);
    DivTwice(m, 65536);
    var m1, m2, m3 := m / 256, m / 65536, m / 16777216;
    assert m1 / 256 == m2 && m2 / 256 == m3 && m3 < 256;
    SplitDigit(m);
    SplitDigit(m1);
    SplitDigit(m2);
    assert Digit(m, 1) == m % 256 && Digit(m, 256) == m1 % 256 && Digit(m, 65536) == m2 % 256 && Digit(m, 16777216) == m3;
    hide Digit;
  }

  lemma SignedOfUnsigned(n: int)
    ensures AsI32(AsU32(n)) == AsI32(n)
  {
  }

  /** A word carries an integer as `as i32` would. */
  lemma WordRoundTrip(n: int)
    ensures FromWord(ToWord(n)) == AsI32(n)
  {
    var m := AsU32(n);
    DigitsAddUp(m);
    SignedOfUnsigned(n);
    UnsignedOfDigits(Digit(m, 1), Digit(m, 256), Digit(m, 65536), Digit(m, 16777216));
    hide AsI32, AsU32, Digit, Total, WordOfDigits, Unsigned;
  }

  lemma UnsignedOfDigits(d0: nat, d1: nat, d2: nat, d3: nat)
    requires d0 < 256 && d1 < 256 && d2 < 256 && d3 < 256
    ensures Unsigned(WordOfDigits(d0, d1, d2, d3)) == Total(d0, d1, d2, d3)
  {
    PackedBytes(ByteOf(d0), ByteOf(d1), ByteOf(d2), ByteOf(d3));
    hide Packed, ByteOf, ByteValue, Low8, Total;
    ByteRoundTrip(d0);
    ByteRoundTrip(d1);
    ByteRoundTrip(d2);
    ByteRoundTrip(d3);
  }

  /** What the guest stub of a call with encoded output ends in. */
  datatype Outcome = Returned(bytes: seq<bv8>) | Failed(error: ErrorCode) | Panicked

  /** The guest's reading of a returned integer that is no success: `?` passes an error on. */
  function Read(w: bv64): Outcome {
    match DecodeRet(w)
    case Some(Err(e)) => Failed(e)
    case _ => Panicked
  }

  /** The guest's reading of a success. */
  function ReadI32(w: bv64): int
    requires DecodeRet(w).Some? && DecodeRet(w).value.Ok?
  {
    FromWord(DecodeRet(w).value.value)
  }

  lemma SignedRetRoundTrip(n: int)
    ensures var w := EncodeRet(Ok(ToWord(n)));
      DecodeRet(w).Some? && DecodeRet(w).value.Ok? && ReadI32(w) == AsI32(n)
  {
    RetRoundTrip(Ok(ToWord(n)));
    WordRoundTrip(n);
    hide EncodeRet, DecodeRet, ToWord, FromWord, AsI32;
  }

  /** The host's side of a guest: the kept return value and the guest's memory. */
  class OcallEnv {
    var tempReturnValue: Option<seq<bv8>>
    const memory: array<bv8>

    /** No vector is longer than `isize::MAX` bytes. */
    ghost predicate Valid()
      reads this
    {
      tempReturnValue.Some? ==> |tempReturnValue.value| < TWO31 * TWO32
    }

    constructor (memory: array<bv8>)
      ensures Valid() && tempReturnValue == None && this.memory == memory
    {
      tempReturnValue := None;
      this.memory := memory;
    }

    method PutReturn(rv: seq<bv8>) returns (len: nat)
      requires |rv| < TWO31 * TWO32
      modifies this
      ensures Valid() && tempReturnValue == Some(rv) && len == |rv|
    {
      len := |rv|;
      tempReturnValue := Some(rv);
    }

    method TakeReturn() returns (rv: Option<seq<bv8>>)
      modifies this
      ensures Valid() && rv == old(tempReturnValue) && tempReturnValue == None
    {
      rv := tempReturnValue;
      tempReturnValue := None;
    }

    /** Call 0: hands the kept value over once, and only to a buffer of exactly its length. */
    method GetReturn(p0: int, p1: int) returns (r: Result<int, ErrorCode>)
      requires Valid() && -TWO31 <= p0 < TWO31 && -TWO31 <= p1 < TWO31
      modifies this, memory
      ensures Valid() && tempReturnValue == None
      ensures old(tempReturnValue).None? ==> r == Err(NOT_FOUND)
      ensures old(tempReturnValue).Some? ==>
        (r.Ok? <==> |old(tempReturnValue).value| == p1 && AsU32(p0) + p1 <= memory.Length)
      ensures old(tempReturnValue).Some? && r.Err? ==> r == Err(INVALID_PARAMETER)
      ensures r.Err? ==> memory[..] == old(memory[..])
      ensures r.Ok? ==> r.value == p1 && 0 <= p1 && AsU32(p0) + p1 <= memory.Length
      ensures r.Ok? ==> memory[..] == old(memory[..AsU32(p0)]) + old(tempReturnValue).value
                                      + old(memory[AsU32(p0) + p1..])
    {
      var buffer := TakeReturn();
      if buffer.None? {
        return Err(NOT_FOUND);
      }
      var len := AsUsize(p1);
      if |buffer.value| != len {
        return Err(INVALID_PARAMETER);
      }
      var at, size := AsU32(p0), AsU32(p1);
      if at + size > memory.Length {
        return Err(INVALID_PARAMETER);
      }
      CopyIn(at, buffer.value, size);
      r := Ok(AsI32(size));
    }

    /** Overwrites guest memory in place from `at`. */
    method CopyIn(at: nat, bytes: seq<bv8>, size: nat)
      requires |bytes| == size && at + size <= memory.Length
      modifies memory
      ensures memory[..] == old(memory[..at]) + bytes + old(memory[at + size..])
    {
      var i := 0;
      while i < size
        invariant 0 <= i <= size
        invariant memory[..at] == old(memory[..at])
        invariant memory[at..at + i] == bytes[..i]
        invariant memory[at + i..] == old(memory[at + i..])
      {
        memory[at + i] := bytes[i];
        i := i + 1;
      }
    }

    /**
     * The guest stub of a call with encoded output. `result` is what the call computes and `at` is where
     * the guest's allocator places the buffer.
     */
    method CallEncodedOutput(result: Result<seq<bv8>, ErrorCode>, at: nat) returns (outcome: Outcome)
      requires Valid() && at < TWO32
      requires result.Ok? ==> |result.value| < TWO31 * TWO32
      requires result.Ok? ==> at + AsI32(|result.value|) <= memory.Length
      modifies this, memory
      ensures Valid()
      ensures result.Err? ==> outcome == Failed(result.error) && memory[..] == old(memory[..])
      ensures result.Ok? ==> (outcome == Returned(result.value) <==> |result.value| < TWO31)
      ensures outcome.Returned? ==> outcome.bytes == result.value && tempReturnValue == None
      ensures outcome.Returned? ==> at + |result.value| <= memory.Length && memory[..at] == old(memory[..at])
      ensures outcome.Returned? ==> memory[at + |result.value|..] == old(memory[at + |result.value|..])
      ensures !outcome.Returned? ==> memory[..] == old(memory[..])
      ensures result.Err? ==> tempReturnValue == old(tempReturnValue)
      ensures result.Ok? ==> tempReturnValue == if AsI32(|result.value|) < 0 then Some(result.value) else None
      ensures result.Ok? && |result.value| >= TWO31 ==>
        outcome == (if AsI32(|result.value|) < 0 then Panicked else Failed(INVALID_PARAMETER))
    {
      hide AsI32, AsU32, EncodeRet, DecodeRet, ToWord, FromWord;
      if result.Err? {
        outcome := Read(EncodeRet(Err(result.error)));
        RetRoundTrip(Err(result.error));
        return;
      }
      var kept := PutReturn(result.value);
      SignedRetRoundTrip(kept);
      var len := ReadI32(EncodeRet(Ok(ToWord(kept))));
      if len < 0 {
        return Panicked;
      }
      AddressRoundTrip(at);
      var ret := GetReturn(AsI32(at), len);
      if ret.Err? {
        RetRoundTrip(Err(ret.error));
        return Read(EncodeRet(Err(ret.error)));
      }
      SignedRetRoundTrip(ret.value);
      if ReadI32(EncodeRet(Ok(ToWord(ret.value)))) != len {
        return Panicked;
      }
      outcome := Returned(memory[at..at + len]);
    }
  }
}
