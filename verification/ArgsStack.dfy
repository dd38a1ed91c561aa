/**
 * Ocall arguments: the guest pushes typed arguments onto a nested pair, dumps it into a fixed buffer
 * of machine words, and the host loads the words back and pops the arguments in reverse. Words and
 * integers are bit vectors, so casts and shifts are those of the machine.
 */
module ArgsStack {
  import opened Common

  type Word = bv32

  // Packing

  /** The type of a stack, which fixes how many words it takes. */
  datatype Shape = UnitShape | WordShape | PairShape(a: Shape, b: Shape)

  datatype Stack = Unit | OneWord(w: Word) | Pair(a: Stack, b: Stack)

  function NArgs(shape: Shape): nat {
    match shape
    case UnitShape => 0
    case WordShape => 1
    case PairShape(a, b) => NArgs(a) + NArgs(b)
  }

  function ShapeOf(s: Stack): Shape {
    match s
    case Unit => UnitShape
    case OneWord(_) => WordShape
    case Pair(a, b) => PairShape(ShapeOf(a), ShapeOf(b))
  }

  /** Reads the words of a stack off the front: the second component of a pair comes first. */
  function Load(shape: Shape, buf: seq<Word>): Option<(Stack, seq<Word>)> {
    match shape
    case UnitShape => Some((Unit, buf))
    case WordShape => if buf == [] then None else Some((OneWord(buf[0]), buf[1..]))
    case PairShape(a, b) =>
      match Load(b, buf)
      case None => None
      case Some((sb, rest)) =>
        match Load(a, rest)
        case None => None
        case Some((sa, rest')) => Some((Pair(sa, sb), rest'))
  }

  function Zeros(n: nat): seq<Word> {
    seq(n, _ => 0)
  }

  /** Overwrites `buf` from position `at`, as `copy_from_slice` does on a sub-slice. */
  function Copied(buf: seq<Word>, at: nat, words: seq<Word>): (r: seq<Word>)
    requires at + |words| <= |buf|
    ensures |r| == |buf|
  {
    buf[..at] + words + buf[at + |words|..]
  }

  function Dump(s: Stack, size: nat): (r: seq<Word>)
    requires NArgs(ShapeOf(s)) <= size
    ensures |r| == size
  {
    match s
    case Unit => Zeros(size)
    case OneWord(w) => Zeros(size)[0 := w]
    case Pair(a, b) =>
      var nb := NArgs(ShapeOf(b));
      var na := NArgs(ShapeOf(a));
      Copied(Copied(Zeros(size), 0, Dump(b, size)[..nb]), nb, Dump(a, size)[..na])
  }

  /** The words of a stack in the order they travel. */
  function Words(s: Stack): (r: seq<Word>)
    ensures |r| == NArgs(ShapeOf(s))
  {
    match s
    case Unit => []
    case OneWord(w) => [w]
    case Pair(a, b) => Words(b) + Words(a)
  }

  /** A dump is the words of the stack followed by zeros, whatever the size of the buffer. */
  lemma {:induction false} DumpIsWords(s: Stack, size: nat)
    requires NArgs(ShapeOf(s)) <= size
    ensures Dump(s, size) == Words(s) + Zeros(size - |Words(s)|)
  {
    match s {
      case Unit =>
      case OneWord(w) =>
      case Pair(a, b) =>
        var na, nb := NArgs(ShapeOf(a)), NArgs(ShapeOf(b));
        DumpIsWords(a, size);
        DumpIsWords(b, size);
        assert Dump(b, size)[..nb] == Words(b) && Dump(a, size)[..na] == Words(a);
        assert Dump(s, size) == Copied(Copied(Zeros(size), 0, Words(b)), nb, Words(a));
        hide Dump, Words, NArgs, ShapeOf;
        CopiedTwice(size, Words(b), Words(a));
    }
  }

  lemma CopiedTwice(size: nat, x: seq<Word>, y: seq<Word>)
    requires |x| + |y| <= size
    ensures Copied(Copied(Zeros(size), 0, x), |x|, y) == x + y + Zeros(size - (|x| + |y|))
  {
    assert Copied(Zeros(size), 0, x) == x + Zeros(size - |x|);
  }

  /** Loading succeeds exactly when there are enough words, and takes exactly that many. */
  lemma {:induction false} LoadTakesNArgs(shape: Shape, buf: seq<Word>)
    ensures Load(shape, buf).Some? <==> NArgs(shape) <= |buf|
    ensures Load(shape, buf).Some? ==> Load(shape, buf).value.1 == buf[NArgs(shape)..]
    ensures Load(shape, buf).Some? ==> ShapeOf(Load(shape, buf).value.0) == shape
  {
    match shape {
      case UnitShape =>
      case WordShape =>
      case PairShape(a, b) =>
        LoadTakesNArgs(b, buf);
        if NArgs(b) <= |buf| {
          LoadTakesNArgs(a, buf[NArgs(b)..]);
        }
    }
  }

  /** What is loaded, written as words again, is what was read. */
  lemma {:induction false} LoadIsWords(shape: Shape, buf: seq<Word>)
    requires Load(shape, buf).Some?
    ensures buf == Words(Load(shape, buf).value.0) + Load(shape, buf).value.1
  {
    match shape {
      case UnitShape =>
      case WordShape =>
      case PairShape(a, b) =>
        LoadIsWords(b, buf);
        LoadIsWords(a, Load(b, buf).value.1);
    }
  }

  /** The words of a stack, followed by anything, load as that stack. */
  lemma {:induction false} LoadWords(s: Stack, rest: seq<Word>)
    ensures Load(ShapeOf(s), Words(s) + rest) == Some((s, rest))
  {
    match s {
      case Unit => assert Words(s) + rest == rest;
      case OneWord(w) =>
      case Pair(a, b) =>
        LoadWords(b, Words(a) + rest);
        LoadWords(a, rest);
        assert Words(s) + rest == Words(b) + (Words(a) + rest);
    }
  }

  /** A stack that fits the buffer comes back from it unchanged. */
  lemma LoadDump(s: Stack, size: nat)
    requires NArgs(ShapeOf(s)) <= size
    ensures Load(ShapeOf(s), Dump(s, size)) == Some((s, Dump(s, size)[NArgs(ShapeOf(s))..]))
  {
    DumpIsWords(s, size);
    LoadWords(s, Zeros(size - |Words(s)|));
  }

  /** Dumping what was loaded gives back the words it was loaded from. */
  lemma DumpLoad(shape: Shape, buf: seq<Word>)
    requires NArgs(shape) <= |buf|
    ensures Load(shape, buf).Some? && ShapeOf(Load(shape, buf).value.0) == shape
    ensures Dump(Load(shape, buf).value.0, |buf|)[..NArgs(shape)] == buf[..NArgs(shape)]
  {
    LoadTakesNArgs(shape, buf);
    LoadIsWords(shape, buf);
    DumpIsWords(Load(shape, buf).value.0, |buf|);
    hide Load, Dump;
  }
}
