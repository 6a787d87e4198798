/** Printing and parsing are inverse, and a printed specification is sampled within its bounds. */
module BatchSpecPrint {
  import opened Division
  import opened BatchSpec
  import opened BatchSpecGrammar
  import opened BatchSpecLimits

  function Plain(n: nat): Numeral { Numeral("", "", Decimal(n)) }

  lemma PlainNumeral(n: nat)
    requires n <= INT_MAX
    ensures IsNumeral(Plain(n)) && Number(Plain(n)) == n && NumeralText(Plain(n)) == PrintInt(n)
  {
    DigitsDenote(Decimal(n));
    assert "" + ("" + Decimal(n)) == Decimal(n);
  }

  /** The text that `print_batch_spec` prints. */
  function Printed(x: Spec): SpecText
    requires Valid(x)
  {
    match x.kind
    case Fixed => One(Plain(x.min))
    case Range => Tuple("", Plain(x.min), "", Plain(x.max), "")
  }

  lemma PrintedText(x: Spec)
    requires Valid(x)
    ensures IsSpecText(Printed(x)) && Text(Printed(x)) == Print(x) && Meaning(Printed(x)) == x
  {
    PlainNumeral(x.min);
    PlainNumeral(x.max);
    if x.kind.Range? { TupleText(PrintInt(x.min), PrintInt(x.max)); }
  }

  /** A tuple without white space. */
  lemma TupleText(a: string, b: string)
    ensures "" + ("(" + (a + ("" + ("," + (b + ("" + ")")))))) == "(" + a + "," + b + ")"
  {
    var end := b + ")";
    var inner := a + ("," + end);
    assert "" + ")" == ")";
    assert "" + ("," + end) == "," + end;
    assert "" + ("(" + inner) == "(" + inner;
    Regroup("(", a, "," + end);
    Regroup("(" + a, ",", end);
    Regroup("(" + a + ",", b, ")");
  }

  /** Round trip: a printed specification parses back to itself, for every thread. */
  lemma PrintThenParse(x: Spec, n: nat)
    requires Valid(x) && n > 0
    ensures ReadPattern(Print(x), n).Parsed? && |ReadPattern(Print(x), n).value| == n
    ensures forall t | 0 <= t < n :: ReadPattern(Print(x), n).value[t] == x
  {
    PrintedText(x);
    PatternIsRead(Same(Printed(x), ""), n);
    assert Print(x) + "" == Print(x);
  }

  /** Comma-joined printed specifications. */
  function Joined(xs: seq<Spec>): string {
    if |xs| == 0 then "" else Print(xs[0]) + (if |xs| == 1 then "" else "," + Joined(xs[1..]))
  }

  function PrintedItems(xs: seq<Spec>): (items: seq<Item>)
    requires AllValid(xs)
    ensures |items| == |xs| && forall i | 0 <= i < |xs| :: items[i] == Item(Printed(xs[i]), "")
  {
    seq(|xs|, i requires 0 <= i < |xs| => Item(Printed(xs[i]), ""))
  }

  lemma PrintedAreItems(xs: seq<Spec>)
    requires AllValid(xs)
    ensures AreItems(PrintedItems(xs)) && Meanings(PrintedItems(xs)) == xs
  {
    forall i | 0 <= i < |xs| ensures IsSpecText(Printed(xs[i])) && Meaning(Printed(xs[i])) == xs[i] {
      PrintedText(xs[i]);
    }
  }

  lemma {:induction false} PrintedItemsText(xs: seq<Spec>, close: char)
    requires |xs| > 0 && AllValid(xs)
    ensures ItemsText(PrintedItems(xs), close) == Joined(xs) + [close]
    decreases |xs|
  {
    PrintedText(xs[0]);
    if |xs| > 1 {
      PrintedItemsText(xs[1..], close);
      assert PrintedItems(xs)[1..] == PrintedItems(xs[1..]);
      JoinOne(Print(xs[0]), Joined(xs[1..]), close);
    } else {
      JoinNone(Print(xs[0]), close);
    }
  }

  lemma JoinNone(a: string, close: char)
    ensures a + ("" + [close]) == a + "" + [close]
  {
  }

  lemma JoinOne(a: string, b: string, close: char)
    ensures a + ("" + ("," + (b + [close]))) == a + ("," + b) + [close]
  {
  }

  /** A printed list between brackets. */
  function Bracketed(open: char, xs: seq<Spec>, close: char): string { [open] + (Joined(xs) + [close]) }

  lemma BracketedIsRead(open: char, xs: seq<Spec>, close: char)
    requires |xs| > 0 && AllValid(xs) && IsClose(close)
    ensures ReadList(Bracketed(open, xs, close), close) == Parsed(xs, "")
  {
    PrintedAreItems(xs);
    PrintedItemsText(xs, close);
    ListIsRead(open, PrintedItems(xs), close, "");
    assert Joined(xs) + [close] + "" == Joined(xs) + [close];
  }

  /** Round trip for `[...]`: thread t gets element t % len. */
  lemma PrintThenParseRepeating(xs: seq<Spec>, n: nat)
    requires |xs| > 0 && AllValid(xs) && n > 0
    ensures var o := ReadPattern(Bracketed('[', xs, ']'), n);
            o.Parsed? && |o.value| == n && forall t | 0 <= t < n :: o.value[t] == xs[t % |xs|]
  {
    BracketedIsRead('[', xs, ']');
    assert Skip(Bracketed('[', xs, ']')) == Bracketed('[', xs, ']');
  }

  /** Round trip for `{...}`: the list itself, exactly when it has one element per thread. */
  lemma PrintThenParseExplicit(xs: seq<Spec>, n: nat)
    requires |xs| > 0 && AllValid(xs) && n > 0
    ensures ReadPattern(Bracketed('{', xs, '}'), n) == if |xs| == n then Parsed(xs, "") else Died(WrongCount)
  {
    BracketedIsRead('{', xs, '}');
    assert Skip(Bracketed('{', xs, '}')) == Bracketed('{', xs, '}');
  }

  // ---- sampling ------------------------------------------------------------------------------

  datatype Sampled = Size(v: int) | Overflow

  /** `batch_spec_sample`, given what `rand_r` returns; the subtraction and the addition are on
      `int`, whose overflow has no defined result. */
  function Sample(x: Spec, r: nat): Sampled
    requires Valid(x)
  {
    if x.kind.Fixed? then Size(x.min)
    else if x.min == x.max then Size(x.min)
    else if x.max - x.min + 1 > INT_MAX then Overflow
    else Size(x.min + r % (x.max - x.min + 1))
  }

  /** Sampling overflows exactly when the range has more values than `int` can count; otherwise the
      sample is within bounds. */
  lemma SampleInRange(x: Spec, r: nat)
    requires Valid(x)
    ensures Sample(x, r).Overflow? <==> x.max - x.min == 2147483647
    ensures Sample(x, r).Size? ==> x.min <= Sample(x, r).v <= x.max
  {
  }

  /** Every draw: the draw and the sample's distance from the minimum differ by a multiple of the
      number of sizes; with the bounds this fixes the sample. */
  lemma SampleIsResidue(x: Spec, r: nat, v: int)
    requires Valid(x) && x.max - x.min < 2147483647
    ensures Sample(x, r) == Size(v) <==> x.min <= v <= x.max && (r - (v - x.min)) % (x.max - x.min + 1) == 0
  {
    var span, d := x.max - x.min + 1, v - x.min;
    if x.min < x.max {
      Residue(r, d, span);
    } else {
      assert r - d == span * (r - d);
    }
  }

  lemma LargestRange()
    ensures Print(Spec(Range, 0, 2147483647)) == "(0,2147483647)"
  {
    OneDigit(0);
    LargestInt();
  }

  /** A pattern that the parser accepts and whose sampling overflows. */
  lemma OverflowExists(n: nat, r: nat)
    requires n > 0
    ensures var o := ReadPattern("(0,2147483647)", n);
            && o.Parsed? && |o.value| == n
            && forall t | 0 <= t < n :: o.value[t] == Spec(Range, 0, 2147483647) && Sample(o.value[t], r).Overflow?
  {
    LargestRange();
    PrintThenParse(Spec(Range, 0, 2147483647), n);
  }

  /** Every size between the bounds can be drawn, and by a return value of `rand_r` that is an `int`. */
  lemma SampleReaches(x: Spec, v: int)
    requires Valid(x) && x.max - x.min < 2147483647 && x.min <= v <= x.max
    ensures 0 <= v - x.min <= 2147483647 && Sample(x, v - x.min) == Size(v)
  {
    if x.kind.Range? { Remainder(v - x.min, x.max - x.min + 1); }
  }
}
