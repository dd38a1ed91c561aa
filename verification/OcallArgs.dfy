/**
 * Typed ocall arguments on top of the argument stack: what the guest stub encodes and the host
 * dispatcher decodes.
 */
module OcallArgs {
  import opened Common
  import opened ArgsStack

  /** `OcallError`: every byte is a code except 6. */
  type ErrorCode = c: bv8 | c != 6

  const INVALID_PARAMETER: ErrorCode := 3
  const INVALID_ENCODING: ErrorCode := 4

  datatype Level = Error | Warn | Info | Debug | Trace

  datatype Scalar =
    | I8(i8: bv8) | I16(i16: bv16) | U8(u8: bv8) | U16(u16: bv16)
    | I32(i32: bv32) | U32(u32: bv32)
    | Bool(b: bool) | Nothing | LogLevel(level: Level) | Code(code: ErrorCode)

  /** An argument of an ocall; a byte slice or a string is its place in guest memory. */
  datatype Arg =
    | One(scalar: Scalar)
    | Bytes(at: Word, len: Word)
    | Str(at: Word, len: Word)
    | Wide(bits: bv64)

  datatype ScalarKind = KI8 | KI16 | KU8 | KU16 | KI32 | KU32 | KBool | KNothing | KLevel | KCode

  datatype Kind = KOne(scalar: ScalarKind) | KBytes | KStr | KWide

  /** What the host learns from guest memory: which slices it may borrow, and which hold UTF-8. */
  datatype Memory = Memory(borrows: (Word, Word) -> bool, utf8: (Word, Word) -> bool)

  // One word

  function SignExtend8(b: bv8): Word {
    if b < 0x80 then b as Word else (b as Word) | 0xFFFF_FF00
  }

  function SignExtend16(b: bv16): Word {
    if b < 0x8000 then b as Word else (b as Word) | 0xFFFF_0000
  }

  function ZeroExtend8(b: bv8): Word {
    b as Word
  }

  function ZeroExtend16(b: bv16): Word {
    b as Word
  }

  function Low8(w: Word): bv8 {
    (w & 0xFF) as bv8
  }

  function Low16(w: Word): bv16 {
    (w & 0xFFFF) as bv16
  }

  /** Signed comparison of two words. */
  predicate SignedLess(a: Word, b: Word) {
    (a ^ 0x8000_0000) < (b ^ 0x8000_0000)
  }

  function ToI32(x: Scalar): Word {
    match x
    case I8(v) => SignExtend8(v)
    case I16(v) => SignExtend16(v)
    case U8(v) => ZeroExtend8(v)
    case U16(v) => ZeroExtend16(v)
    case I32(v) => v
    case U32(v) => v
    case Bool(v) => if v then 1 else 0
    case Nothing => 0
    case LogLevel(Error) => 1
    case LogLevel(Warn) => 2
    case LogLevel(Info) => 3
    case LogLevel(Debug) => 4
    case LogLevel(Trace) => 5
    case Code(c) => ZeroExtend8(c)
  }

  function FromI32(kind: ScalarKind, w: Word): Result<Scalar, ErrorCode> {
    match kind
    case KI8 =>
      if SignedLess(0x7F, w) || SignedLess(w, 0xFFFF_FF80) then Err(INVALID_ENCODING) else Ok(I8(Low8(w)))
    case KI16 =>
      if SignedLess(0x7FFF, w) || SignedLess(w, 0xFFFF_8000) then Err(INVALID_ENCODING) else Ok(I16(Low16(w)))
    case KU8 => if w > 0xFF then Err(INVALID_ENCODING) else Ok(U8(Low8(w)))
    case KU16 => if w > 0xFFFF then Err(INVALID_ENCODING) else Ok(U16(Low16(w)))
    case KI32 => Ok(I32(w))
    case KU32 => Ok(U32(w))
    case KBool => if w == 0 then Ok(Bool(false)) else if w == 1 then Ok(Bool(true)) else Err(INVALID_ENCODING)
    case KNothing => if w == 0 then Ok(Nothing) else Err(INVALID_ENCODING)
    case KLevel =>
      if w == 1 then Ok(LogLevel(Error))
      else if w == 2 then Ok(LogLevel(Warn))
      else if w == 3 then Ok(LogLevel(Info))
      else if w == 4 then Ok(LogLevel(Debug))
      else if w == 5 then Ok(LogLevel(Trace))
      else Err(INVALID_ENCODING)
    case KCode => if w > 0xFF || w == 6 then Err(INVALID_ENCODING) else Ok(Code(Low8(w)))
  }

  function ScalarKindOf(x: Scalar): ScalarKind {
    match x
    case I8(_) => KI8
    case I16(_) => KI16
    case U8(_) => KU8
    case U16(_) => KU16
    case I32(_) => KI32
    case U32(_) => KU32
    case Bool(_) => KBool
    case Nothing => KNothing
    case LogLevel(_) => KLevel
    case Code(_) => KCode
  }

  lemma Extended8(b: bv8)
    ensures Low8(SignExtend8(b)) == b == Low8(ZeroExtend8(b))
    ensures ZeroExtend8(b) <= 0xFF && (b != 6 ==> ZeroExtend8(b) != 6)
    ensures !SignedLess(0x7F, SignExtend8(b)) && !SignedLess(SignExtend8(b), 0xFFFF_FF80)
  {
  }

  lemma Extended16(b: bv16)
    ensures Low16(SignExtend16(b)) == b == Low16(ZeroExtend16(b))
    ensures ZeroExtend16(b) <= 0xFFFF
    ensures !SignedLess(0x7FFF, SignExtend16(b)) && !SignedLess(SignExtend16(b), 0xFFFF_8000)
  {
  }

  lemma Narrowed8(w: Word)
    requires w <= 0xFF
    ensures ZeroExtend8(Low8(w)) == w
  {
  }

  lemma Narrowed16(w: Word)
    requires w <= 0xFFFF
    ensures ZeroExtend16(Low16(w)) == w
  {
  }

  lemma NarrowedSigned8(w: Word)
    requires !SignedLess(0x7F, w) && !SignedLess(w, 0xFFFF_FF80)
    ensures SignExtend8(Low8(w)) == w
  {
  }

  lemma InRange16(w: Word)
    requires !SignedLess(0x7FFF, w) && !SignedLess(w, 0xFFFF_8000)
    ensures w <= 0x7FFF || w >= 0xFFFF_8000
  {
  }

  lemma Negative16(w: Word)
    requires w >= 0xFFFF_8000
    ensures Low16(w) >= 0x8000
    ensures (Low16(w) as Word) | 0xFFFF_0000 == w
  {
  }

  lemma Positive16(w: Word)
    requires w <= 0x7FFF
    ensures Low16(w) < 0x8000
    ensures Low16(w) as Word == w
  {
  }

  lemma NarrowedSigned16(w: Word)
    requires !SignedLess(0x7FFF, w) && !SignedLess(w, 0xFFFF_8000)
    ensures SignExtend16(Low16(w)) == w
  {
    InRange16(w);
    hide SignedLess, Low16;
    if w <= 0x7FFF {
      Positive16(w);
    } else {
      Negative16(w);
    }
  }

  lemma FromToI32(x: Scalar)
    ensures FromI32(ScalarKindOf(x), ToI32(x)) == Ok(x)
  {
    hide Low8, Low16, ZeroExtend8, ZeroExtend16, SignExtend8, SignExtend16, SignedLess;
    match x {
      case I8(v) => Extended8(v);
      case U8(v) => Extended8(v);
      case Code(v) => Extended8(v);
      case I16(v) => Extended16(v);
      case U16(v) => Extended16(v);
      case _ =>
    }
  }

  /** Decoding accepts exactly the encodings of the kind, so two words never decode alike. */
  lemma ToFromI32(kind: ScalarKind, w: Word)
    ensures FromI32(kind, w).Ok? ==> ScalarKindOf(FromI32(kind, w).value) == kind && ToI32(FromI32(kind, w).value) == w
    ensures FromI32(kind, w).Err? ==> FromI32(kind, w).error == INVALID_ENCODING
  {
    hide Low8, Low16, ZeroExtend8, ZeroExtend16, SignExtend8, SignExtend16, SignedLess;
    if FromI32(kind, w).Ok? {
      match kind {
        case KI8 => NarrowedSigned8(w);
        case KI16 => NarrowedSigned16(w);
        case KU8 => Narrowed8(w);
        case KU16 => Narrowed16(w);
        case KCode => Narrowed8(w);
        case KLevel =>
        case _ =>
      }
    }
  }

  // Two words for a 64-bit integer

  function Low32(v: bv64): Word {
    (v & 0xFFFF_FFFF) as Word
  }

  function High32(v: bv64): Word {
    ((v >> 32) & 0xFFFF_FFFF) as Word
  }

  function SignExtend32(w: Word): bv64 {
    WithSign(w as bv64)
  }

  /** Copies bit 31 into the upper half. */
  function WithSign(x: bv64): bv64 {
    if x & 0x8000_0000 == 0 then x else x | 0xFFFF_FFFF_0000_0000
  }

  /** The host's way of putting the halves together: a bitwise and of the two extended words. */
  function Joined(low: Word, high: Word): bv64 {
    (SignExtend32(high) << 32) & SignExtend32(low)
  }

  function Received64(v: bv64): bv64 {
    Joined(Low32(v), High32(v))
  }

  lemma Halves(v: bv64)
    ensures Low32(v) as bv64 == v & 0xFFFF_FFFF
    ensures High32(v) as bv64 == v >> 32
  {
  }

  lemma HighMask(v: bv64)
    ensures (v >> 32) << 32 == v & 0xFFFF_FFFF_0000_0000
  {
  }

  lemma SignedHighMask(v: bv64)
    ensures ((v >> 32) | 0xFFFF_FFFF_0000_0000) << 32 == v & 0xFFFF_FFFF_0000_0000
  {
  }

  lemma LowSign(v: bv64)
    ensures WithSign(v & 0xFFFF_FFFF) & 0xFFFF_FFFF_0000_0000
         == if v & 0x8000_0000 == 0 then 0 else 0xFFFF_FFFF_0000_0000
  {
  }

  lemma AndAssociates(v: bv64, m: bv64, x: bv64)
    ensures (v & m) & x == v & (x & m)
  {
  }

  lemma JoinedHalves(v: bv64)
    ensures Received64(v) == (WithSign(v >> 32) << 32) & WithSign(v & 0xFFFF_FFFF)
  {
    Halves(v);
    hide WithSign, Low32, High32;
  }

  lemma ShiftedHigh(v: bv64, high: bv64)
    requires high == v >> 32 || high == (v >> 32) | 0xFFFF_FFFF_0000_0000
    ensures high << 32 == v & 0xFFFF_FFFF_0000_0000
  {
    if high == v >> 32 {
      HighMask(v);
    } else {
      SignedHighMask(v);
    }
  }

  lemma MaskedBySign(v: bv64, sign: bv64)
    requires sign & 0xFFFF_FFFF_0000_0000 == if v & 0x8000_0000 == 0 then 0 else 0xFFFF_FFFF_0000_0000
    ensures (v & 0xFFFF_FFFF_0000_0000) & sign
         == if v & 0x8000_0000 == 0 then 0 else v & 0xFFFF_FFFF_0000_0000
  {
    AndAssociates(v, 0xFFFF_FFFF_0000_0000, sign);
  }

  /** What arrives of a 64-bit argument: its high half if bit 31 is set, and zero otherwise. */
  lemma WideArrives(v: bv64)
    ensures Received64(v) == if v & 0x8000_0000 == 0 then 0 else v & 0xFFFF_FFFF_0000_0000
  {
    JoinedHalves(v);
    ShiftedHigh(v, WithSign(v >> 32));
    LowSign(v);
    MaskedBySign(v, WithSign(v & 0xFFFF_FFFF));
    hide WithSign, Received64;
  }

  lemma WideSurvivesIffZero(v: bv64)
    ensures Received64(v) == v <==> v == 0
  {
    WideArrives(v);
    hide Received64;
  }
}
