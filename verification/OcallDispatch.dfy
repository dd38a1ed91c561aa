/**
 * One ocall with unencoded input, end to end: the guest stub pushes the arguments in order and dumps
 * them into the call's words, the host dispatcher loads the words, pops the arguments in reverse and
 * then converts them in order.
 */
module OcallDispatch {
  import opened Common
  import opened ArgsStack
  import opened OcallArgs

  // Guest

  function EncodeArg(arg: Arg): Stack {
    match arg
    case One(x) => OneWord(ToI32(x))
    case Bytes(at, len) => Pair(OneWord(len), OneWord(at))
    case Str(at, len) => Pair(OneWord(len), OneWord(at))
    case Wide(v) => Pair(OneWord(Low32(v)), OneWord(High32(v)))
  }

  function PushAll(args: seq<Arg>): Stack {
    if args == [] then Unit
    else Pair(EncodeArg(args[|args| - 1]), PushAll(args[..|args| - 1]))
  }

  // Host

  function KindOf(arg: Arg): Kind {
    match arg
    case One(x) => KOne(ScalarKindOf(x))
    case Bytes(_, _) => KBytes
    case Str(_, _) => KStr
    case Wide(_) => KWide
  }

  function Kinds(args: seq<Arg>): (r: seq<Kind>)
    ensures |r| == |args|
    ensures forall i :: 0 <= i < |args| ==> r[i] == KindOf(args[i])
  {
    seq(|args|, i requires 0 <= i < |args| => KindOf(args[i]))
  }

  function ArgShape(kind: Kind): Shape {
    if kind.KOne? then WordShape else PairShape(WordShape, WordShape)
  }

  function StackShape(kinds: seq<Kind>): Shape {
    if kinds == [] then UnitShape
    else PairShape(ArgShape(kinds[|kinds| - 1]), StackShape(kinds[..|kinds| - 1]))
  }

  datatype Repr = RWord(w: Word) | RSlice(at: Word, len: Word) | RWide(v: bv64)

  /** `decode_arg`: a slice the host cannot borrow is refused here. */
  function PopArg(kind: Kind, s: Stack, mem: Memory): Result<Repr, ErrorCode>
    requires ShapeOf(s) == ArgShape(kind)
  {
    match kind
    case KOne(_) => Ok(RWord(s.w))
    case KWide =>
      assert ShapeOf(s.a) == ShapeOf(s.b) == WordShape;
      Ok(RWide(Joined(s.a.w, s.b.w)))
    case _ =>
      assert ShapeOf(s.a) == ShapeOf(s.b) == WordShape;
      if mem.borrows(s.b.w, s.a.w) then Ok(RSlice(s.b.w, s.a.w)) else Err(INVALID_PARAMETER)
  }

  function PopAll(kinds: seq<Kind>, s: Stack, mem: Memory): (r: Result<seq<Repr>, ErrorCode>)
    requires ShapeOf(s) == StackShape(kinds)
    ensures r.Ok? ==> |r.value| == |kinds|
  {
    if kinds == [] then Ok([])
    else
      match PopArg(kinds[|kinds| - 1], s.a, mem)
      case Err(e) => Err(e)
      case Ok(repr) =>
        match PopAll(kinds[..|kinds| - 1], s.b, mem)
        case Err(e) => Err(e)
        case Ok(reprs) => Ok(reprs + [repr])
  }

  /** `decode_repr`: the conversion to the argument's type. */
  function Extract(kind: Kind, repr: Repr, mem: Memory): Result<Arg, ErrorCode> {
    match (kind, repr)
    case (KOne(k), RWord(w)) => (match FromI32(k, w) case Ok(x) => Ok(One(x)) case Err(e) => Err(e))
    case (KBytes, RSlice(at, len)) => Ok(Bytes(at, len))
    case (KStr, RSlice(at, len)) => if mem.utf8(at, len) then Ok(Str(at, len)) else Err(INVALID_ENCODING)
    case (KWide, RWide(v)) => Ok(Wide(v))
    case _ => Err(INVALID_ENCODING)
  }

  function ExtractAll(kinds: seq<Kind>, reprs: seq<Repr>, mem: Memory): Result<seq<Arg>, ErrorCode>
    requires |kinds| == |reprs|
  {
    if kinds == [] then Ok([])
    else
      match Extract(kinds[0], reprs[0], mem)
      case Err(e) => Err(e)
      case Ok(arg) =>
        match ExtractAll(kinds[1..], reprs[1..], mem)
        case Err(e) => Err(e)
        case Ok(args) => Ok([arg] + args)
  }

  function Decode(kinds: seq<Kind>, words: seq<Word>, mem: Memory): Result<seq<Arg>, ErrorCode> {
    LoadTakesNArgs(StackShape(kinds), words);
    match Load(StackShape(kinds), words)
    case None => Err(INVALID_PARAMETER)
    case Some((s, _)) =>
      match PopAll(kinds, s, mem)
      case Err(e) => Err(e)
      case Ok(reprs) => ExtractAll(kinds, reprs, mem)
  }

  // Round trip

  /** The guest passes slices of its own memory, and strings are UTF-8. */
  ghost predicate OwnsSlice(arg: Arg, mem: Memory) {
    match arg
    case Bytes(at, len) => mem.borrows(at, len)
    case Str(at, len) => mem.borrows(at, len) && mem.utf8(at, len)
    case _ => true
  }

  ghost predicate OwnsSlices(args: seq<Arg>, mem: Memory) {
    forall i :: 0 <= i < |args| ==> OwnsSlice(args[i], mem)
  }

  /** What the host receives of an argument. */
  function Arrived(arg: Arg): Arg {
    if arg.Wide? then Wide(Received64(arg.bits)) else arg
  }

  function AllArrived(args: seq<Arg>): (r: seq<Arg>)
    ensures |r| == |args|
    ensures forall i :: 0 <= i < |args| ==> r[i] == Arrived(args[i])
  {
    seq(|args|, i requires 0 <= i < |args| => Arrived(args[i]))
  }

  function ReprOf(arg: Arg): Repr {
    match arg
    case One(x) => RWord(ToI32(x))
    case Bytes(at, len) => RSlice(at, len)
    case Str(at, len) => RSlice(at, len)
    case Wide(v) => RWide(Received64(v))
  }

  function Reprs(args: seq<Arg>): (r: seq<Repr>)
    ensures |r| == |args|
    ensures forall i :: 0 <= i < |args| ==> r[i] == ReprOf(args[i])
  {
    seq(|args|, i requires 0 <= i < |args| => ReprOf(args[i]))
  }

  lemma EncodedShape(arg: Arg)
    ensures ShapeOf(EncodeArg(arg)) == ArgShape(KindOf(arg))
  {
    match arg {
      case One(_) =>
      case Bytes(_, _) =>
      case Str(_, _) =>
      case Wide(_) =>
    }
  }

  lemma {:induction false} PushedShape(args: seq<Arg>)
    ensures ShapeOf(PushAll(args)) == StackShape(Kinds(args))
  {
    if args != [] {
      var n := |args| - 1;
      PushedShape(args[..n]);
      EncodedShape(args[n]);
      assert Kinds(args[..n]) == Kinds(args)[..n];
    }
  }

  lemma PopOne(arg: Arg, mem: Memory)
    requires OwnsSlice(arg, mem)
    ensures ShapeOf(EncodeArg(arg)) == ArgShape(KindOf(arg))
    ensures PopArg(KindOf(arg), EncodeArg(arg), mem) == Ok(ReprOf(arg))
  {
  }

  lemma {:induction false} PopPushed(args: seq<Arg>, mem: Memory)
    requires OwnsSlices(args, mem)
    ensures ShapeOf(PushAll(args)) == StackShape(Kinds(args))
    ensures PopAll(Kinds(args), PushAll(args), mem) == Ok(Reprs(args))
  {
    PushedShape(args);
    if args != [] {
      var n := |args| - 1;
      PopPushed(args[..n], mem);
      PopOne(args[n], mem);
      assert Kinds(args[..n]) == Kinds(args)[..n];
      assert Reprs(args) == Reprs(args[..n]) + [ReprOf(args[n])];
      hide EncodeArg, PopArg, ReprOf, KindOf, ArgShape;
    }
  }

  lemma ExtractOne(arg: Arg, mem: Memory)
    requires OwnsSlice(arg, mem)
    ensures Extract(KindOf(arg), ReprOf(arg), mem) == Ok(Arrived(arg))
  {
    if arg.One? {
      FromToI32(arg.scalar);
      hide FromI32, ToI32, ScalarKindOf;
    }
  }

  lemma {:induction false} ExtractPopped(args: seq<Arg>, mem: Memory)
    requires OwnsSlices(args, mem)
    ensures ExtractAll(Kinds(args), Reprs(args), mem) == Ok(AllArrived(args))
  {
    if args == [] {
      assert AllArrived(args) == [];
    } else {
      ExtractOne(args[0], mem);
      ExtractPopped(args[1..], mem);
      assert Kinds(args)[1..] == Kinds(args[1..]) && Reprs(args)[1..] == Reprs(args[1..]);
      assert AllArrived(args) == [Arrived(args[0])] + AllArrived(args[1..]);
      hide Extract, ReprOf, Arrived, KindOf;
    }
  }

  /** Whatever fits the call's words, however many there are, reaches the host, in order, each 64-bit value as `Received64`. */
  lemma ArgsArrive(args: seq<Arg>, mem: Memory, size: nat)
    requires NArgs(ShapeOf(PushAll(args))) <= size
    requires OwnsSlices(args, mem)
    ensures Decode(Kinds(args), Dump(PushAll(args), size), mem) == Ok(AllArrived(args))
  {
    PopPushed(args, mem);
    ExtractPopped(args, mem);
    LoadDump(PushAll(args), size);
    hide PushAll, PopAll, ExtractAll, Load, Dump, Kinds, Reprs, AllArrived, StackShape, ShapeOf, NArgs;
  }

  /** The arguments come back unchanged if and only if every 64-bit argument among them is zero. */
  lemma ArgsRoundTripIff(args: seq<Arg>, mem: Memory, size: nat)
    requires NArgs(ShapeOf(PushAll(args))) <= size
    requires OwnsSlices(args, mem)
    ensures Decode(Kinds(args), Dump(PushAll(args), size), mem) == Ok(args)
      <==> forall i :: 0 <= i < |args| && args[i].Wide? ==> args[i].bits == 0
  {
    ArgsArrive(args, mem, size);
    AllArriveIff(args);
    hide Decode, PushAll, Kinds, Dump, AllArrived;
  }

  lemma AllArriveIff(args: seq<Arg>)
    ensures AllArrived(args) == args <==> forall i :: 0 <= i < |args| && args[i].Wide? ==> args[i].bits == 0
  {
    forall i | 0 <= i < |args|
      ensures AllArrived(args)[i] == args[i] <==> (args[i].Wide? ==> args[i].bits == 0)
    {
      if args[i].Wide? {
        WideSurvivesIffZero(args[i].bits);
      }
    }
    hide Received64;
  }

  // Only encodings are accepted

  lemma ExtractedOne(kind: Kind, s: Stack, arg: Arg, mem: Memory)
    requires ShapeOf(s) == ArgShape(kind) && !kind.KWide?
    requires PopArg(kind, s, mem).Ok?
    requires Extract(kind, PopArg(kind, s, mem).value, mem) == Ok(arg)
    ensures KindOf(arg) == kind && EncodeArg(arg) == s && OwnsSlice(arg, mem)
  {
    if kind.KOne? {
      ToFromI32(kind.scalar, s.w);
      hide FromI32, ToI32;
    } else {
      assert ShapeOf(s.a) == ShapeOf(s.b) == WordShape;
    }
  }

  lemma {:induction false} ExtractedEach(kinds: seq<Kind>, reprs: seq<Repr>, mem: Memory)
    requires |kinds| == |reprs|
    requires ExtractAll(kinds, reprs, mem).Ok?
    ensures |ExtractAll(kinds, reprs, mem).value| == |kinds|
    ensures forall i :: 0 <= i < |kinds| ==>
      Extract(kinds[i], reprs[i], mem) == Ok(ExtractAll(kinds, reprs, mem).value[i])
  {
    if kinds != [] {
      ExtractedEach(kinds[1..], reprs[1..], mem);
      hide Extract;
    }
  }

  lemma {:induction false} PushPopped(kinds: seq<Kind>, s: Stack, args: seq<Arg>, mem: Memory)
    requires ShapeOf(s) == StackShape(kinds) && |args| == |kinds|
    requires forall i :: 0 <= i < |kinds| ==> !kinds[i].KWide?
    requires PopAll(kinds, s, mem).Ok?
    requires forall i :: 0 <= i < |kinds| ==> Extract(kinds[i], PopAll(kinds, s, mem).value[i], mem) == Ok(args[i])
    ensures Kinds(args) == kinds && PushAll(args) == s && OwnsSlices(args, mem)
  {
    if kinds != [] {
      var n := |kinds| - 1;
      var reprs := PopAll(kinds, s, mem).value;
      assert reprs[..n] == PopAll(kinds[..n], s.b, mem).value;
      assert Extract(kinds[n], reprs[n], mem) == Ok(args[n]);
      ExtractedOne(kinds[n], s.a, args[n], mem);
      hide Extract, PopArg, EncodeArg, OwnsSlice, KindOf;
      PushPopped(kinds[..n], s.b, args[..n], mem);
      hide PopAll, StackShape, Kinds, OwnsSlices;
      EachSnoc(kinds, args, mem);
    }
  }

  lemma EachSnoc(kinds: seq<Kind>, args: seq<Arg>, mem: Memory)
    requires |args| == |kinds| > 0
    requires var n := |args| - 1;
      && Kinds(args[..n]) == kinds[..n] && KindOf(args[n]) == kinds[n]
      && OwnsSlices(args[..n], mem) && OwnsSlice(args[n], mem)
    ensures Kinds(args) == kinds && OwnsSlices(args, mem)
  {
    var n := |args| - 1;
    hide OwnsSlice, KindOf;
    forall i | 0 <= i < |args|
      ensures KindOf(args[i]) == kinds[i] && OwnsSlice(args[i], mem)
    {
      if i < n {
        assert args[..n][i] == args[i] && kinds[..n][i] == Kinds(args[..n])[i];
      }
    }
  }

  /** Without 64-bit arguments, words are accepted only if they are the encoding of what they decode to. */
  lemma OnlyEncodingsAccepted(kinds: seq<Kind>, words: seq<Word>, mem: Memory)
    requires forall i :: 0 <= i < |kinds| ==> !kinds[i].KWide?
    requires Decode(kinds, words, mem).Ok?
    ensures var args := Decode(kinds, words, mem).value;
      var n := NArgs(StackShape(kinds));
      && Kinds(args) == kinds && OwnsSlices(args, mem)
      && n <= |words| && ShapeOf(PushAll(args)) == StackShape(kinds)
      && Dump(PushAll(args), |words|)[..n] == words[..n]
  {
    var shape := StackShape(kinds);
    LoadTakesNArgs(shape, words);
    DumpLoad(shape, words);
    var s := Load(shape, words).value.0;
    var reprs := PopAll(kinds, s, mem).value;
    ExtractedEach(kinds, reprs, mem);
    PushPopped(kinds, s, ExtractAll(kinds, reprs, mem).value, mem);
    hide PopAll, ExtractAll, Extract, Load, Dump, StackShape, Kinds, PushAll, OwnsSlices;
  }

  // Which error a refused call gets

  /** Where the words of argument `i` begin. */
  function Offset(kinds: seq<Kind>, i: nat): nat
    requires i <= |kinds|
  {
    NArgs(StackShape(kinds[..i]))
  }

  /** Argument `i` is a slice, given by its address and its length, that the host cannot borrow. */
  ghost predicate Unborrowable(kinds: seq<Kind>, words: seq<Word>, mem: Memory, i: nat) {
    && i < |kinds| && (kinds[i].KBytes? || kinds[i].KStr?)
    && var o := Offset(kinds, i);
       o + 1 < |words| && !mem.borrows(words[o], words[o + 1])
  }

  lemma {:induction false} OffsetsRise(kinds: seq<Kind>, i: nat)
    requires i < |kinds|
    ensures Offset(kinds, i) + NArgs(ArgShape(kinds[i])) <= NArgs(StackShape(kinds))
    decreases |kinds|
  {
    var n := |kinds| - 1;
    assert kinds[..n + 1] == kinds;
    if i < n {
      OffsetsRise(kinds[..n], i);
      assert kinds[..n][..i] == kinds[..i];
    }
  }

  /** The last argument comes after the words of the others. */
  lemma LoadedLast(kinds: seq<Kind>, words: seq<Word>)
    requires kinds != [] && NArgs(StackShape(kinds)) <= |words|
    ensures var n := |kinds| - 1;
      var o := NArgs(StackShape(kinds[..n]));
      && Load(StackShape(kinds), words).Some? && o <= |words|
      && Load(StackShape(kinds[..n]), words).Some? && Load(ArgShape(kinds[n]), words[o..]).Some?
      && Load(StackShape(kinds), words).value.0
         == Pair(Load(ArgShape(kinds[n]), words[o..]).value.0, Load(StackShape(kinds[..n]), words).value.0)
  {
    var n := |kinds| - 1;
    var last, rest := ArgShape(kinds[n]), StackShape(kinds[..n]);
    assert StackShape(kinds) == PairShape(last, rest);
    hide StackShape, ArgShape;
    LoadTakesNArgs(rest, words);
    LoadTakesNArgs(last, words[NArgs(rest)..]);
  }

  lemma PopFailsIff(kind: Kind, words: seq<Word>, mem: Memory)
    requires NArgs(ArgShape(kind)) <= |words|
    ensures Load(ArgShape(kind), words).Some?
    ensures var s := Load(ArgShape(kind), words).value.0;
      && ShapeOf(s) == ArgShape(kind)
      && (PopArg(kind, s, mem).Err? ==> PopArg(kind, s, mem).error == INVALID_PARAMETER)
      && (PopArg(kind, s, mem).Err? <==> (kind.KBytes? || kind.KStr?) && !mem.borrows(words[0], words[1]))
  {
    LoadTakesNArgs(ArgShape(kind), words);
    if !kind.KOne? {
      assert Load(WordShape, words) == Some((OneWord(words[0]), words[1..]));
      assert Load(WordShape, words[1..]) == Some((OneWord(words[1]), words[1..][1..]));
    }
  }

  lemma {:induction false} PopAllFailsIff(kinds: seq<Kind>, words: seq<Word>, mem: Memory)
    requires NArgs(StackShape(kinds)) <= |words|
    ensures Load(StackShape(kinds), words).Some?
    ensures var s := Load(StackShape(kinds), words).value.0;
      && ShapeOf(s) == StackShape(kinds)
      && (PopAll(kinds, s, mem).Err? ==> PopAll(kinds, s, mem).error == INVALID_PARAMETER)
      && (PopAll(kinds, s, mem).Err? <==> exists i: nat :: Unborrowable(kinds, words, mem, i))
    decreases |kinds|
  {
    LoadTakesNArgs(StackShape(kinds), words);
    if kinds != [] {
      var n := |kinds| - 1;
      var o := Offset(kinds, n);
      OffsetsRise(kinds, n);
      LoadedLast(kinds, words);
      PopFailsIff(kinds[n], words[o..], mem);
      PopAllFailsIff(kinds[..n], words, mem);
      UnborrowableLast(kinds, words, mem);
      UnborrowableSnoc(kinds, words, mem);
      hide PopArg, Unborrowable, Load, NArgs, ArgShape;
    }
  }

  lemma UnborrowableBefore(kinds: seq<Kind>, words: seq<Word>, mem: Memory, n: nat, i: nat)
    requires i < n <= |kinds|
    ensures Unborrowable(kinds[..n], words, mem, i) <==> Unborrowable(kinds, words, mem, i)
  {
    assert kinds[..n][..i] == kinds[..i];
    hide StackShape, NArgs;
  }

  lemma UnborrowableLast(kinds: seq<Kind>, words: seq<Word>, mem: Memory)
    requires kinds != [] && NArgs(StackShape(kinds)) <= |words|
    ensures var n := |kinds| - 1;
      var o := Offset(kinds, n);
      && o + NArgs(ArgShape(kinds[n])) <= |words|
      && (Unborrowable(kinds, words, mem, n) <==>
        (kinds[n].KBytes? || kinds[n].KStr?) && !mem.borrows(words[o..][0], words[o..][1]))
  {
    var n := |kinds| - 1;
    OffsetsRise(kinds, n);
    assert NArgs(ArgShape(kinds[n])) == if kinds[n].KOne? then 1 else 2;
    hide StackShape, NArgs, ArgShape, Offset;
  }

  /** Some argument is out of reach exactly if one of the first is, or the last. */
  lemma UnborrowableSnoc(kinds: seq<Kind>, words: seq<Word>, mem: Memory)
    requires kinds != []
    ensures var n := |kinds| - 1;
      (exists i: nat :: Unborrowable(kinds, words, mem, i)) <==>
        || (exists i: nat :: Unborrowable(kinds[..n], words, mem, i))
        || Unborrowable(kinds, words, mem, n)
  {
    var n := |kinds| - 1;
    forall i: nat
      ensures Unborrowable(kinds[..n], words, mem, i) <==> i < n && Unborrowable(kinds, words, mem, i)
      ensures Unborrowable(kinds, words, mem, i) ==> i <= n
    {
      if i < n {
        UnborrowableBefore(kinds, words, mem, n, i);
      }
    }
    hide Unborrowable;
  }

  lemma {:induction false} ExtractAllFails(kinds: seq<Kind>, reprs: seq<Repr>, mem: Memory)
    requires |kinds| == |reprs|
    ensures ExtractAll(kinds, reprs, mem).Err? ==> ExtractAll(kinds, reprs, mem).error == INVALID_ENCODING
  {
    if kinds != [] {
      ExtractAllFails(kinds[1..], reprs[1..], mem);
    }
  }

  /**
   * A call is refused for its parameters exactly when words are missing or one of its slices is outside the
   * guest's memory, before any value is looked at; every other refusal is for the encoding of a value.
   */
  lemma DecodeErrors(kinds: seq<Kind>, words: seq<Word>, mem: Memory)
    ensures Decode(kinds, words, mem) == Err(INVALID_PARAMETER) <==>
      |words| < NArgs(StackShape(kinds)) || exists i: nat :: Unborrowable(kinds, words, mem, i)
    ensures Decode(kinds, words, mem).Err? ==> Decode(kinds, words, mem).error in {INVALID_PARAMETER, INVALID_ENCODING}
  {
    LoadTakesNArgs(StackShape(kinds), words);
    if NArgs(StackShape(kinds)) <= |words| {
      PopAllFailsIff(kinds, words, mem);
      var s := Load(StackShape(kinds), words).value.0;
      var popped := PopAll(kinds, s, mem);
      if popped.Ok? {
        ExtractAllFails(kinds, popped.value, mem);
      }
    }
    hide PopAll, ExtractAll, Load, StackShape, NArgs, Unborrowable;
  }
}
