/** Batch-size specifications and the text patterns that stand for them: what the parser computes,
    on what is left of the text at each moment. */
module BatchSpec {

  datatype Kind = Fixed | Range

  datatype Spec = Spec(kind: Kind, min: int, max: int)

  const INT_MAX: int := 0x7fff_ffff
  const LONG_MAX: int := 0x7fff_ffff_ffff_ffff

  /** A specification that can be parsed. */
  predicate Valid(x: Spec) {
    0 <= x.min <= x.max <= INT_MAX && (x.kind.Fixed? ==> x.min == x.max)
  }

  /** The reasons for rejecting a pattern. */
  datatype Why =
    | OutOfRange | NegativeOrLarge | UnexpectedEnd | MinExpected | CommaExpected | MaxExpected | ParenExpected
    | NegativeSize | MinAboveMax | SpecExpected | EmptyList | CloseExpected | Trailing
    | NoThreads | EmptyPattern | WrongCount

  /** A value and the text after it; or no integer here; or the pattern is rejected. */
  datatype Outcome<+T> = Parsed(value: T, rest: string) | Absent | Died(why: Why)

  // ---- characters ----------------------------------------------------------------------------

  /** `isspace` in the C locale. */
  predicate IsSpace(c: char) { c == ' ' || ('\t' <= c <= '\r') }

  predicate IsDigit(c: char) { '0' <= c <= '9' }

  /** The character under the cursor; a C string ends with NUL. */
  function First(r: string): char { if |r| == 0 then '\0' else r[0] }

  /** `skip_ws` */
  function Skip(r: string): (s: string)
    ensures |s| <= |r| && !IsSpace(First(s))
  {
    if IsSpace(First(r)) then Skip(r[1..]) else r
  }

  function Digits(r: string): (d: string)
    ensures |d| <= |r| && d == r[..|d|] && !IsDigit(First(r[|d|..]))
    ensures forall i | 0 <= i < |d| :: IsDigit(d[i])
  {
    if IsDigit(First(r)) then [r[0]] + Digits(r[1..]) else []
  }

  /** The number that decimal digits denote. */
  function Value(d: string): int {
    if |d| == 0 then 0 else 10 * Value(d[..|d| - 1]) + (d[|d| - 1] as int - '0' as int)
  }

  // ---- integers ------------------------------------------------------------------------------

  datatype Conversion = NoConversion | Converted(value: int, erange: bool, rest: string)

  predicate IsSign(c: char) { c == '+' || c == '-' }

  function AfterSign(a: string): (b: string)
    ensures |b| <= |a|
  {
    if IsSign(First(a)) then a[1..] else a
  }

  function Signed(v: int, negative: bool): int { if negative then -v else v }

  /** The subject sequence of `strtol`: a sign or none, then digits. */
  function Subject(a: string): (c: Conversion)
    ensures c.Converted? ==> |c.rest| < |a|
  {
    var b := AfterSign(a);
    var d := Digits(b);
    var v := Signed(Value(d), First(a) == '-');
    if |d| == 0 then NoConversion
    else if v > LONG_MAX then Converted(LONG_MAX, true, b[|d|..])
    else if v < -LONG_MAX - 1 then Converted(-LONG_MAX - 1, true, b[|d|..])
    else Converted(v, false, b[|d|..])
  }

  /** `strtol` in base 10, with a 64-bit `long`: section 7.22.1.4 of ISO/IEC 9899:2011. */
  function Strtol(r: string): (c: Conversion)
    ensures c.Converted? ==> |c.rest| < |r|
  {
    Subject(Skip(r))
  }

  /** `parse_int_token` */
  function IntToken(r: string): (o: Outcome<int>)
    ensures o.Parsed? ==> 0 <= o.value <= INT_MAX && |o.rest| < |r|
  {
    var a := Skip(r);
    if First(a) == '\0' then Absent
    else
      match Strtol(a)
      case NoConversion => Absent
      case Converted(v, erange, rest) =>
        if erange then Died(OutOfRange) else if v < 0 || v > INT_MAX then Died(NegativeOrLarge) else Parsed(v, rest)
  }

  // ---- specifications ------------------------------------------------------------------------

  /** The tuple from its closing parenthesis on. */
  function TupleClose(min: int, max: int, r: string): (o: Outcome<Spec>)
    requires 0 <= min <= INT_MAX && 0 <= max <= INT_MAX
    ensures !o.Absent?
    ensures o.Parsed? ==> Valid(o.value) && |o.rest| < |r|
  {
    if First(r) != ')' then Died(ParenExpected)
    else if min < 0 || max < 0 then Died(NegativeSize)
    else if min > max then Died(MinAboveMax)
    else Parsed(Spec(Range, min, max), r[1..])
  }

  /** The tuple from its comma on. */
  function TupleMax(min: int, r: string): (o: Outcome<Spec>)
    requires 0 <= min <= INT_MAX
    ensures !o.Absent?
    ensures o.Parsed? ==> Valid(o.value) && |o.rest| < |r|
  {
    if First(r) != ',' then Died(CommaExpected)
    else
      match IntToken(r[1..])
      case Died(why) => Died(why)
      case Absent => Died(MaxExpected)
      case Parsed(max, r3) => TupleClose(min, max, Skip(r3))
  }

  /** The tuple after its opening parenthesis. */
  function TupleTail(r: string): (o: Outcome<Spec>)
    ensures !o.Absent?
    ensures o.Parsed? ==> Valid(o.value) && |o.rest| < |r|
  {
    match IntToken(r)
    case Died(why) => Died(why)
    case Absent => Died(MinExpected)
    case Parsed(min, r1) => TupleMax(min, Skip(r1))
  }

  /** `parse_spec` */
  function ReadSpec(r: string): (o: Outcome<Spec>)
    ensures !o.Absent?
    ensures o.Parsed? ==> Valid(o.value) && |o.rest| < |r|
  {
    var a := Skip(r);
    if First(a) == '\0' then Died(UnexpectedEnd)
    else if a[0] == '(' then TupleTail(a[1..])
    else
      match IntToken(a)
      case Died(why) => Died(why)
      case Absent => Died(SpecExpected)
      case Parsed(v, rest) => Parsed(Spec(Fixed, v, v), rest)
  }

  // ---- lists ---------------------------------------------------------------------------------

  predicate AllValid(xs: seq<Spec>) { forall i | 0 <= i < |xs| :: Valid(xs[i]) }

  ghost predicate Consumes(read: string -> Outcome<Spec>) {
    forall r: string :: read(r).Parsed? ==> |read(r).rest| < |r|
  }

  /** Elements separated by commas, up to and with the closing bracket. */
  function Elements(read: string -> Outcome<Spec>, r: string, close: char): (o: Outcome<seq<Spec>>)
    requires Consumes(read)
    ensures !o.Absent? && (o.Parsed? ==> |o.value| > 0)
    decreases |r|
  {
    match read(r)
    case Died(why) => Died(why)
    case Absent => Died(SpecExpected)
    case Parsed(x, r1) =>
      var r2 := Skip(r1);
      if First(r2) == ',' then
        match Elements(read, Skip(r2[1..]), close)
        case Died(why) => Died(why)
        case Absent => assert false; Died(SpecExpected)
        case Parsed(xs, rest) => Parsed([x] + xs, rest)
      else if |r2| > 0 && r2[0] == close then Parsed([x], r2[1..])
      else Died(CloseExpected)
  }

  lemma {:induction false} ElementsValid(read: string -> Outcome<Spec>, r: string, close: char)
    requires Consumes(read) && Elements(read, r, close).Parsed?
    requires forall r: string :: read(r).Parsed? ==> Valid(read(r).value)
    ensures AllValid(Elements(read, r, close).value)
    decreases |r|
  {
    var r2 := Skip(read(r).rest);
    if First(r2) == ',' { ElementsValid(read, Skip(r2[1..]), close); }
  }

  /** `parse_spec_list`, whose text begins with the opening bracket. */
  function ReadList(r: string, close: char): (o: Outcome<seq<Spec>>)
    ensures !o.Absent? && (o.Parsed? ==> |o.value| > 0)
  {
    var a := Skip(if |r| > 0 then r[1..] else r);
    if First(a) == close then Died(EmptyList)
    else
      match Elements(ReadSpec, a, close)
      case Died(why) => Died(why)
      case Absent => assert false; Died(SpecExpected)
      case Parsed(xs, rest) => if First(Skip(rest)) != '\0' then Died(Trailing) else Parsed(xs, "")
  }

  lemma ListValid(r: string, close: char)
    requires ReadList(r, close).Parsed?
    ensures AllValid(ReadList(r, close).value)
  {
    ElementsValid(ReadSpec, Skip(if |r| > 0 then r[1..] else r), close);
  }

  // ---- patterns ------------------------------------------------------------------------------

  /** Thread t gets element t % len. */
  function Cycled(xs: seq<Spec>, n: nat): (ys: seq<Spec>)
    requires |xs| > 0
    ensures |ys| == n && forall t | 0 <= t < n :: ys[t] == xs[t % |xs|]
  {
    seq(n, t requires 0 <= t < n => xs[t % |xs|])
  }

  /** `[x0,x1,...]`: the list repeats. */
  function ReadRepeating(a: string, n: nat): (o: Outcome<seq<Spec>>)
    ensures !o.Absent? && (o.Parsed? ==> |o.value| == n)
  {
    match ReadList(a, ']')
    case Died(why) => Died(why)
    case Absent => assert false; Died(SpecExpected)
    case Parsed(xs, _) => Parsed(Cycled(xs, n), "")
  }

  /** `{x0,x1,...}`: one element per thread. */
  function ReadExplicit(a: string, n: nat): (o: Outcome<seq<Spec>>)
    ensures !o.Absent? && (o.Parsed? ==> |o.value| == n)
  {
    match ReadList(a, '}')
    case Died(why) => Died(why)
    case Absent => assert false; Died(SpecExpected)
    case Parsed(xs, _) => if |xs| != n then Died(WrongCount) else Parsed(xs, "")
  }

  /** One specification for all threads. */
  function ReadSame(a: string, n: nat): (o: Outcome<seq<Spec>>)
    ensures !o.Absent? && (o.Parsed? ==> |o.value| == n)
  {
    match ReadSpec(a)
    case Died(why) => Died(why)
    case Absent => assert false; Died(SpecExpected)
    case Parsed(x, rest) => if First(Skip(rest)) != '\0' then Died(Trailing) else Parsed(Cycled([x], n), "")
  }

  /** `parse_batch_size_pattern`: one specification per thread. */
  function ReadPattern(text: string, n: int): (o: Outcome<seq<Spec>>)
    ensures !o.Absent? && (o.Parsed? ==> |o.value| == n > 0)
  {
    var a := Skip(text);
    if n <= 0 then Died(NoThreads)
    else if First(a) == '\0' then Died(EmptyPattern)
    else if First(a) == '[' then ReadRepeating(a, n)
    else if First(a) == '{' then ReadExplicit(a, n)
    else ReadSame(a, n)
  }

  /** Every accepted pattern gives each of the n threads a usable specification. */
  lemma PatternValid(text: string, n: int)
    requires ReadPattern(text, n).Parsed?
    ensures |ReadPattern(text, n).value| == n && AllValid(ReadPattern(text, n).value)
  {
    var a := Skip(text);
    if First(a) == '[' { ListValid(a, ']'); } else if First(a) == '{' { ListValid(a, '}'); }
  }

  // ---- printing ------------------------------------------------------------------------------

  function Decimal(n: nat): (d: string)
    ensures |d| > 0 && Value(d) == n && forall i | 0 <= i < |d| :: IsDigit(d[i])
  {
    var c := ('0' as int + n % 10) as char;
    if n < 10 then [c] else Decimal(n / 10) + [c]
  }

  /** `%d` */
  function PrintInt(n: int): string { if n < 0 then "-" + Decimal(-n) else Decimal(n) }

  /** `print_batch_spec` */
  function Print(x: Spec): string {
    match x.kind
    case Fixed => PrintInt(x.min)
    case Range => "(" + PrintInt(x.min) + "," + PrintInt(x.max) + ")"
  }
}
