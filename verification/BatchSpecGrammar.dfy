/** The language of the patterns, given independently of the parser: a pattern is accepted exactly
    when it is laid out as one of these texts, and it means what the layout says. */
module BatchSpecGrammar {
  import opened BatchSpec

  // ---- characters and numbers ----------------------------------------------------------------

  /** White space: blank, tab, newline, vertical tab, form feed, carriage return. */
  predicate IsBlank(c: char) {
    c == ' ' || c == '\t' || c == '\n' || c == '\U{B}' || c == '\U{C}' || c == '\r'
  }

  predicate IsFigure(c: char) {
    || c == '0' || c == '1' || c == '2' || c == '3' || c == '4'
    || c == '5' || c == '6' || c == '7' || c == '8' || c == '9'
  }

  function Figure(c: char): nat {
    match c
    case '1' => 1
    case '2' => 2
    case '3' => 3
    case '4' => 4
    case '5' => 5
    case '6' => 6
    case '7' => 7
    case '8' => 8
    case '9' => 9
    case _ => 0
  }

  function Power(k: nat): nat { if k == 0 then 1 else 10 * Power(k - 1) }

  /** What a string of figures stands for, by place. */
  function Denotes(d: string): nat {
    if |d| == 0 then 0 else Figure(d[0]) * Power(|d| - 1) + Denotes(d[1..])
  }

  lemma {:induction false} OneFigureMore(d: string, c: char)
    ensures Denotes(d + [c]) == 10 * Denotes(d) + Figure(c)
  {
    if |d| == 0 {
      assert (d + [c])[1..] == d && Power(0) == 1;
    } else {
      OneFigureMore(d[1..], c);
      assert (d + [c])[1..] == d[1..] + [c];
      assert Figure(d[0]) * (10 * Power(|d| - 1)) == 10 * (Figure(d[0]) * Power(|d| - 1));
    }
  }

  /** The parser's reading of digits gives that number. */
  lemma {:induction false} ValueDenotes(d: string)
    requires forall i | 0 <= i < |d| :: IsFigure(d[i])
    ensures Value(d) == Denotes(d) && forall i | 0 <= i < |d| :: IsDigit(d[i])
  {
    if |d| > 0 {
      var front := d[..|d| - 1];
      ValueDenotes(front);
      OneFigureMore(front, d[|d| - 1]);
      assert d == front + [d[|d| - 1]];
    }
  }

  lemma DigitsDenote(d: string)
    requires forall i | 0 <= i < |d| :: IsDigit(d[i])
    ensures Value(d) == Denotes(d) && forall i | 0 <= i < |d| :: IsFigure(d[i])
  {
    forall i | 0 <= i < |d| ensures IsFigure(d[i]) { DigitIsFigure(d[i]); }
    ValueDenotes(d);
  }

  lemma DigitIsFigure(c: char)
    ensures IsDigit(c) <==> IsFigure(c)
    ensures IsSpace(c) <==> IsBlank(c)
  {
  }

  // ---- texts ---------------------------------------------------------------------------------

  predicate IsGap(g: string) { forall i | 0 <= i < |g| :: IsBlank(g[i]) }

  datatype Numeral = Numeral(gap: string, sign: string, digits: string)

  function Number(m: Numeral): int {
    var v: int := Denotes(m.digits);
    if m.sign == "-" then -v else v
  }

  function NumeralText(m: Numeral): string { m.gap + (m.sign + m.digits) }

  /** White space, an optional sign, digits; and the value is an acceptable size. */
  predicate IsNumeral(m: Numeral) {
    && IsGap(m.gap) && (m.sign == "" || m.sign == "+" || m.sign == "-")
    && |m.digits| > 0 && (forall i | 0 <= i < |m.digits| :: IsFigure(m.digits[i]))
    && 0 <= Number(m) <= 2147483647
  }

  /** One specification: `n`, or `(min,max)`; white space may precede every token. */
  datatype SpecText =
    | One(n: Numeral)
    | Tuple(before: string, min: Numeral, beforeComma: string, max: Numeral, beforeParen: string)

  predicate IsSpecText(x: SpecText) {
    match x
    case One(n) => IsNumeral(n)
    case Tuple(g, min, h, max, k) =>
      IsGap(g) && IsNumeral(min) && IsGap(h) && IsNumeral(max) && IsGap(k) && Number(min) <= Number(max)
  }

  function Text(x: SpecText): string {
    match x
    case One(n) => NumeralText(n)
    case Tuple(g, min, h, max, k) => g + ("(" + (NumeralText(min) + (h + ("," + (NumeralText(max) + (k + ")"))))))
  }

  function Meaning(x: SpecText): Spec {
    match x
    case One(n) => Spec(Fixed, Number(n), Number(n))
    case Tuple(_, min, _, max, _) => Spec(Range, Number(min), Number(max))
  }

  // ---- tokens are read -----------------------------------------------------------------------

  lemma {:induction false} SkipGap(g: string, r: string)
    requires IsGap(g) && !IsSpace(First(r))
    ensures Skip(g + r) == r
  {
    if |g| == 0 {
      assert g + r == r;
    } else {
      assert (g + r)[1..] == g[1..] + r;
      SkipGap(g[1..], r);
    }
  }

  lemma {:induction false} DigitsRead(d: string, r: string)
    requires (forall i | 0 <= i < |d| :: IsDigit(d[i])) && !IsDigit(First(r))
    ensures Digits(d + r) == d
  {
    if |d| == 0 {
      assert d + r == r;
    } else {
      assert (d + r)[1..] == d[1..] + r;
      DigitsRead(d[1..], r);
    }
  }

  lemma FirstAndRest(a: string)
    requires |a| > 0
    ensures a == [a[0]] + a[1..]
  {
  }

  lemma Regroup(a: string, b: string, c: string)
    ensures a + b + c == a + (b + c)
  {
  }

  lemma SignRead(sign: string, b: string)
    requires (sign == "" || sign == "+" || sign == "-") && IsDigit(First(b))
    ensures var a := sign + b;
            && AfterSign(a) == b && (First(a) == '-' <==> sign == "-")
            && !IsSpace(First(a)) && First(a) != '\0' && First(a) != '('
  {
    if sign == "" { assert sign + b == b; } else { assert (sign + b)[1..] == b; }
  }

  lemma SubjectRead(sign: string, d: string, r: string)
    requires (sign == "" || sign == "+" || sign == "-") && |d| > 0 && (forall i | 0 <= i < |d| :: IsDigit(d[i]))
    requires -LONG_MAX <= Signed(Value(d), sign == "-") <= LONG_MAX && !IsDigit(First(r))
    ensures Subject(sign + (d + r)) == Converted(Signed(Value(d), sign == "-"), false, r)
  {
    SignRead(sign, d + r);
    DigitsRead(d, r);
    SubjectParts(sign + (d + r), sign, d, r);
  }

  lemma SubjectParts(a: string, sign: string, d: string, r: string)
    requires AfterSign(a) == d + r && Digits(d + r) == d && |d| > 0 && (First(a) == '-' <==> sign == "-")
    requires -LONG_MAX <= Signed(Value(d), sign == "-") <= LONG_MAX
    ensures Subject(a) == Converted(Signed(Value(d), sign == "-"), false, r)
  {
    assert (d + r)[|d|..] == r;
  }

  lemma NumeralValue(m: Numeral)
    requires IsNumeral(m)
    ensures Signed(Value(m.digits), m.sign == "-") == Number(m)
    ensures forall i | 0 <= i < |m.digits| :: IsDigit(m.digits[i])
  {
    ValueDenotes(m.digits);
  }

  /** White space in front of a number is passed over. */
  lemma GapBeforeToken(g: string, a: string)
    requires IsGap(g) && !IsSpace(First(a))
    ensures IntToken(g + a) == IntToken(a)
  {
    SkipGap(g, a);
  }

  lemma TokenRead(sign: string, d: string, r: string)
    requires (sign == "" || sign == "+" || sign == "-") && |d| > 0 && (forall i | 0 <= i < |d| :: IsDigit(d[i]))
    requires 0 <= Signed(Value(d), sign == "-") <= 2147483647 && !IsDigit(First(r))
    ensures IntToken(sign + (d + r)) == Parsed(Signed(Value(d), sign == "-"), r)
  {
    SignRead(sign, d + r);
    SubjectRead(sign, d, r);
  }

  lemma NumeralRead(m: Numeral, r: string)
    requires IsNumeral(m) && !IsDigit(First(r))
    ensures IntToken(NumeralText(m) + r) == Parsed(Number(m), r)
  {
    NumeralValue(m);
    Regroup(m.gap, m.sign + m.digits, r);
    Regroup(m.sign, m.digits, r);
    SignRead(m.sign, m.digits + r);
    GapBeforeToken(m.gap, m.sign + (m.digits + r));
    TokenRead(m.sign, m.digits, r);
  }

  /** Every text of a specification is parsed as what it means, and exactly that much is read. */
  lemma SpecIsRead(x: SpecText, r: string)
    requires IsSpecText(x) && (x.One? ==> !IsDigit(First(r)))
    ensures ReadSpec(Text(x) + r) == Parsed(Meaning(x), r)
  {
    match x
    case One(n) => OneIsRead(n, r);
    case Tuple(g, min, h, max, k) =>
      var t := NumeralText(min) + (h + ("," + (NumeralText(max) + (k + ")"))));
      Regroup(g, "(" + t, r);
      Regroup("(", t, r);
      SkipGap(g, "(" + (t + r));
      assert ("(" + (t + r))[1..] == t + r;
      TupleIsRead(min, h, max, k, r);
  }

  lemma OneIsRead(n: Numeral, r: string)
    requires IsNumeral(n) && !IsDigit(First(r))
    ensures ReadSpec(NumeralText(n) + r) == Parsed(Spec(Fixed, Number(n), Number(n)), r)
  {
    var m := n.(gap := "");
    Regroup(n.gap, n.sign + n.digits, r);
    Regroup(n.sign, n.digits, r);
    SignRead(n.sign, n.digits + r);
    SkipGap(n.gap, n.sign + (n.digits + r));
    NumeralRead(m, r);
    assert NumeralText(m) == n.sign + n.digits;
  }

  lemma TupleIsRead(min: Numeral, h: string, max: Numeral, k: string, r: string)
    requires IsNumeral(min) && IsGap(h) && IsNumeral(max) && IsGap(k) && Number(min) <= Number(max)
    ensures TupleTail(NumeralText(min) + (h + ("," + (NumeralText(max) + (k + ")")))) + r)
            == Parsed(Spec(Range, Number(min), Number(max)), r)
  {
    var last := NumeralText(max) + (k + ")");
    Regroup(NumeralText(min), h + ("," + last), r);
    Regroup(h, "," + last, r);
    Regroup(",", last, r);
    SkipGap(h, "," + (last + r));
    GapNotDigit(h, "," + (last + r));
    NumeralRead(min, h + ("," + (last + r)));
    assert ("," + (last + r))[1..] == last + r;
    Regroup(NumeralText(max), k + ")", r);
    Regroup(k, ")", r);
    SkipGap(k, ")" + r);
    GapNotDigit(k, ")" + r);
    NumeralRead(max, k + (")" + r));
    assert (")" + r)[1..] == r;
  }

  lemma GapNotDigit(g: string, r: string)
    requires IsGap(g) && !IsDigit(First(r))
    ensures !IsDigit(First(g + r))
  {
    assert |g| == 0 ==> g + r == r;
    assert |g| > 0 ==> First(g + r) == g[0];
  }

  // ---- what is read is such a text -----------------------------------------------------------

  lemma {:induction false} Skipped(r: string) returns (g: string)
    ensures IsGap(g) && r == g + Skip(r)
  {
    if IsSpace(First(r)) {
      var h := Skipped(r[1..]);
      g := [r[0]] + h;
    } else {
      g := "";
    }
  }

  lemma SignFound(a: string) returns (sign: string)
    ensures a == sign + AfterSign(a) && (sign == "" || sign == "+" || sign == "-") && (First(a) == '-' <==> sign == "-")
  {
    sign := if IsSign(First(a)) then [a[0]] else "";
  }

  lemma SubjectFound(a: string) returns (sign: string, d: string)
    requires Subject(a).Converted? && !Subject(a).erange
    ensures (sign == "" || sign == "+" || sign == "-") && |d| > 0 && forall i | 0 <= i < |d| :: IsDigit(d[i])
    ensures Subject(a).value == Signed(Value(d), sign == "-") && !IsDigit(First(Subject(a).rest))
    ensures a == sign + (d + Subject(a).rest)
  {
    sign := SignFound(a);
    d := Digits(AfterSign(a));
    assert AfterSign(a) == d + AfterSign(a)[|d|..];
  }

  lemma NumeralFound(r: string) returns (m: Numeral)
    requires IntToken(r).Parsed?
    ensures IsNumeral(m) && Number(m) == IntToken(r).value && r == NumeralText(m) + IntToken(r).rest
    ensures !IsDigit(First(IntToken(r).rest))
  {
    var g := Skipped(r);
    var sign, d := SubjectFound(Skip(r));
    DigitsDenote(d);
    m := Numeral(g, sign, d);
    Regroup(sign, d, IntToken(r).rest);
    Regroup(g, sign + d, IntToken(r).rest);
  }

  lemma Widened(g: string, m: Numeral) returns (w: Numeral)
    requires IsGap(g) && IsNumeral(m)
    ensures IsNumeral(w) && Number(w) == Number(m) && NumeralText(w) == g + NumeralText(m)
  {
    w := m.(gap := g + m.gap);
    Regroup(g, m.gap, m.sign + m.digits);
  }

  lemma OneFound(r: string, g: string) returns (x: SpecText)
    requires IntToken(r).Parsed? && IsGap(g)
    ensures IsSpecText(x) && x.One? && Meaning(x) == Spec(Fixed, IntToken(r).value, IntToken(r).value)
    ensures g + r == Text(x) + IntToken(r).rest && !IsDigit(First(IntToken(r).rest))
  {
    var m := NumeralFound(r);
    var w := Widened(g, m);
    x := One(w);
    Regroup(g, NumeralText(m), IntToken(r).rest);
  }

  /** Whatever is parsed as a specification is one of its texts, followed by the rest. */
  lemma SpecFound(r: string) returns (x: SpecText)
    requires ReadSpec(r).Parsed?
    ensures IsSpecText(x) && Meaning(x) == ReadSpec(r).value && r == Text(x) + ReadSpec(r).rest
    ensures x.One? ==> !IsDigit(First(ReadSpec(r).rest))
  {
    var g := Skipped(r);
    var a := Skip(r);
    if a[0] == '(' {
      x := TupleFound(a[1..], g);
      FirstAndRest(a);
    } else {
      x := OneFound(a, g);
    }
  }

  /** The text from a comma or parenthesis on. */
  lemma MarkFound(r: string, c: char) returns (g: string)
    requires First(Skip(r)) == c && c != '\0'
    ensures IsGap(g) && r == g + ([c] + Skip(r)[1..])
  {
    g := Skipped(r);
    FirstAndRest(Skip(r));
  }

  /** The tuple after its first number. */
  lemma TupleEndFound(min: int, r: string) returns (h: string, max: Numeral, k: string)
    requires 0 <= min <= INT_MAX && TupleMax(min, Skip(r)).Parsed?
    ensures IsGap(h) && IsNumeral(max) && IsGap(k)
    ensures min <= Number(max) && TupleMax(min, Skip(r)).value == Spec(Range, min, Number(max))
    ensures r == h + ("," + (NumeralText(max) + (k + (")" + TupleMax(min, Skip(r)).rest))))
  {
    h := MarkFound(r, ',');
    var r2 := Skip(r)[1..];
    max := NumeralFound(r2);
    k := MarkFound(IntToken(r2).rest, ')');
  }

  lemma TupleFound(r: string, g: string) returns (x: SpecText)
    requires TupleTail(r).Parsed? && IsGap(g)
    ensures IsSpecText(x) && x.Tuple? && Meaning(x) == TupleTail(r).value
    ensures g + ("(" + r) == Text(x) + TupleTail(r).rest
  {
    var min := NumeralFound(r);
    var h, max, k := TupleEndFound(Number(min), IntToken(r).rest);
    x := Tuple(g, min, h, max, k);
    TupleJoins(g, NumeralText(min), h, NumeralText(max), k, TupleTail(r).rest);
  }

  lemma TupleJoins(g: string, a: string, h: string, b: string, k: string, r: string)
    ensures g + ("(" + (a + (h + ("," + (b + (k + (")" + r))))))) == g + ("(" + (a + (h + ("," + (b + (k + ")")))))) + r
  {
    Regroup(k, ")", r);
    Regroup(b, k + ")", r);
    Regroup(",", b + (k + ")"), r);
    Regroup(h, "," + (b + (k + ")")), r);
    Regroup(a, h + ("," + (b + (k + ")"))), r);
    Regroup("(", a + (h + ("," + (b + (k + ")")))), r);
    Regroup(g, "(" + (a + (h + ("," + (b + (k + ")"))))), r);
  }

  // ---- lists ---------------------------------------------------------------------------------

  /** An element of a list, and the white space before the comma or bracket after it. */
  datatype Item = Item(x: SpecText, after: string)

  predicate AreItems(items: seq<Item>) {
    forall i | 0 <= i < |items| :: IsSpecText(items[i].x) && IsGap(items[i].after)
  }

  /** What follows the first item: the closing bracket, or a comma and the other items. */
  function ItemsTail(items: seq<Item>, close: char): string
    requires |items| > 0
    decreases |items|, 0
  {
    if |items| == 1 then [close] else "," + ItemsText(items[1..], close)
  }

  function ItemsText(items: seq<Item>, close: char): string
    requires |items| > 0
    decreases |items|, 1
  {
    Text(items[0].x) + (items[0].after + ItemsTail(items, close))
  }

  function Meanings(items: seq<Item>): (xs: seq<Spec>)
    ensures |xs| == |items| && forall i | 0 <= i < |items| :: xs[i] == Meaning(items[i].x)
  {
    seq(|items|, i requires 0 <= i < |items| => Meaning(items[i].x))
  }

  predicate IsClose(c: char) { c == ']' || c == '}' }

  ghost predicate ReadsText(read: string -> Outcome<Spec>, x: SpecText) {
    forall r: string :: !IsDigit(First(r)) ==> read(Text(x) + r) == Parsed(Meaning(x), r)
  }

  predicate IsTextOf(x: SpecText, r: string, v: Spec, rest: string) {
    IsSpecText(x) && Meaning(x) == v && r == Text(x) + rest
  }

  predicate IgnoresGap(read: string -> Outcome<Spec>, r: string) { read(Skip(r)) == read(r) }

  ghost predicate HasText(read: string -> Outcome<Spec>, r: string) {
    read(r).Parsed? ==> exists x :: IsTextOf(x, r, read(r).value, read(r).rest)
  }

  /** The reader reads exactly the texts of specifications, and does not mind white space before them. */
  ghost predicate ReadsTexts(read: string -> Outcome<Spec>) {
    && Consumes(read)
    && (forall r: string :: IgnoresGap(read, r))
    && (forall x: SpecText | IsSpecText(x) :: ReadsText(read, x))
    && (forall r: string :: HasText(read, r))
  }

  lemma SpecsAreRead()
    ensures ReadsTexts(ReadSpec)
  {
    forall r: string ensures IgnoresGap(ReadSpec, r) { assert Skip(Skip(r)) == Skip(r); }
    forall x: SpecText, r: string | IsSpecText(x) && !IsDigit(First(r))
      ensures ReadSpec(Text(x) + r) == Parsed(Meaning(x), r)
    {
      SpecIsRead(x, r);
    }
    forall r: string ensures HasText(ReadSpec, r) {
      if ReadSpec(r).Parsed? {
        var x := SpecFound(r);
        assert IsTextOf(x, r, ReadSpec(r).value, ReadSpec(r).rest);
      }
    }
  }

  lemma SkipFirst(read: string -> Outcome<Spec>, r: string, close: char)
    requires Consumes(read) && IgnoresGap(read, r)
    ensures Elements(read, Skip(r), close) == Elements(read, r, close)
  {
  }

  lemma ItemIsRead(read: string -> Outcome<Spec>, x: SpecText, after: string, t: string, r: string)
    requires ReadsText(read, x) && IsGap(after) && |t| > 0 && !IsSpace(t[0]) && !IsDigit(t[0])
    ensures read(Text(x) + (after + t) + r) == Parsed(Meaning(x), after + (t + r))
    ensures Skip(after + (t + r)) == t + r && First(t + r) == t[0]
  {
    Regroup(Text(x), after + t, r);
    Regroup(after, t, r);
    GapNotDigit(after, t + r);
    SkipGap(after, t + r);
  }

  lemma LastElement(read: string -> Outcome<Spec>, r: string, close: char, rest: string)
    requires Consumes(read) && read(r).Parsed? && IsClose(close) && Skip(read(r).rest) == [close] + rest
    ensures Elements(read, r, close) == Parsed([read(r).value], rest)
  {
    assert ([close] + rest)[1..] == rest;
  }

  lemma NextElement(read: string -> Outcome<Spec>, r: string, close: char, more: string)
    requires Consumes(read) && read(r).Parsed? && Skip(read(r).rest) == "," + more && IgnoresGap(read, more)
    ensures var o := Elements(read, more, close);
            && Elements(read, r, close).Parsed? == o.Parsed?
            && (o.Parsed? ==> Elements(read, r, close) == Parsed([read(r).value] + o.value, o.rest))
  {
    assert ("," + more)[1..] == more;
    SkipFirst(read, more, close);
  }

  lemma MeaningsStep(items: seq<Item>)
    requires |items| > 0
    ensures Meanings(items) == [Meaning(items[0].x)] + Meanings(items[1..])
  {
  }

  lemma LastItemRead(read: string -> Outcome<Spec>, x: SpecText, after: string, close: char, r: string)
    requires Consumes(read) && ReadsText(read, x) && IsGap(after) && IsClose(close)
    ensures Elements(read, Text(x) + (after + [close]) + r, close) == Parsed([Meaning(x)], r)
  {
    ItemIsRead(read, x, after, [close], r);
    LastElement(read, Text(x) + (after + [close]) + r, close, r);
  }

  lemma NextItemRead(read: string -> Outcome<Spec>, x: SpecText, after: string, more: string, xs: seq<Spec>,
    close: char, r: string)
    requires Consumes(read) && ReadsText(read, x) && IsGap(after)
    requires IgnoresGap(read, more + r) && Elements(read, more + r, close) == Parsed(xs, r)
    ensures Elements(read, Text(x) + (after + ("," + more)) + r, close) == Parsed([Meaning(x)] + xs, r)
  {
    ItemIsRead(read, x, after, "," + more, r);
    Regroup(",", more, r);
    NextElement(read, Text(x) + (after + ("," + more)) + r, close, more + r);
  }

  /** The items of a list are read, up to and with the closing bracket. */
  lemma {:induction false} ItemsAreRead(read: string -> Outcome<Spec>, items: seq<Item>, close: char, r: string)
    requires ReadsTexts(read) && |items| > 0 && AreItems(items) && IsClose(close)
    ensures Elements(read, ItemsText(items, close) + r, close) == Parsed(Meanings(items), r)
    decreases |items|
  {
    MeaningsStep(items);
    assert ReadsText(read, items[0].x);
    if |items| == 1 {
      assert Meanings(items) == [Meaning(items[0].x)];
      LastItemRead(read, items[0].x, items[0].after, close, r);
    } else {
      ItemsAreRead(read, items[1..], close, r);
      NextItemRead(read, items[0].x, items[0].after, ItemsText(items[1..], close), Meanings(items[1..]), close, r);
    }
  }

  lemma ItemFound(read: string -> Outcome<Spec>, r: string) returns (item: Item)
    requires ReadsTexts(read) && read(r).Parsed?
    ensures IsSpecText(item.x) && IsGap(item.after) && Meaning(item.x) == read(r).value
    ensures r == Text(item.x) + (item.after + Skip(read(r).rest))
  {
    assert HasText(read, r);
    var x :| IsTextOf(x, r, read(r).value, read(r).rest);
    var after := Skipped(read(r).rest);
    item := Item(x, after);
  }

  lemma ItemJoins(item: Item, t: string, rest: string)
    ensures Text(item.x) + (item.after + (t + rest)) == Text(item.x) + (item.after + t) + rest
  {
    Regroup(item.after, t, rest);
    Regroup(Text(item.x), item.after + t, rest);
  }

  lemma LastOrNext(read: string -> Outcome<Spec>, r: string, close: char)
    requires Consumes(read) && Elements(read, r, close).Parsed?
    ensures read(r).Parsed? && |Skip(read(r).rest)| > 0 && |Skip(read(r).rest)| < |r|
    ensures Skip(read(r).rest)[0] == ',' || Skip(read(r).rest)[0] == close
  {
  }

  lemma Cons(item: Item, more: seq<Item>, close: char, rest: string) returns (items: seq<Item>)
    requires |more| > 0 && AreItems(more) && IsSpecText(item.x) && IsGap(item.after)
    ensures |items| > 0 && AreItems(items) && Meanings(items) == [Meaning(item.x)] + Meanings(more)
    ensures ItemsText(items, close) + rest == Text(item.x) + (item.after + ("," + (ItemsText(more, close) + rest)))
  {
    items := [item] + more;
    assert items[1..] == more;
    MeaningsStep(items);
    Regroup(",", ItemsText(more, close), rest);
    ItemJoins(item, "," + ItemsText(more, close), rest);
  }

  /** And whatever is read as a list is the text of such items. */
  lemma {:induction false} ItemsFound(read: string -> Outcome<Spec>, r: string, close: char) returns (items: seq<Item>)
    requires ReadsTexts(read) && Elements(read, r, close).Parsed? && IsClose(close)
    ensures |items| > 0 && AreItems(items) && Meanings(items) == Elements(read, r, close).value
    ensures r == ItemsText(items, close) + Elements(read, r, close).rest
    decreases |r|
  {
    LastOrNext(read, r, close);
    var item := ItemFound(read, r);
    var t := Skip(read(r).rest);
    assert t == [t[0]] + t[1..];
    if t[0] == ',' {
      NextElement(read, r, close, t[1..]);
      var more := ItemsFound(read, t[1..], close);
      items := Cons(item, more, close, Elements(read, r, close).rest);
    } else {
      LastElement(read, r, close, t[1..]);
      items := [item];
      MeaningsStep(items);
      ItemJoins(item, [close], t[1..]);
    }
  }

  // ---- patterns ------------------------------------------------------------------------------

  /** A whole pattern: one specification for all threads; a list that repeats; a list with one
      element per thread. */
  datatype Pattern =
    | Same(x: SpecText, after: string)
    | Repeating(before: string, items: seq<Item>, after: string)
    | Explicit(before: string, items: seq<Item>, after: string)

  predicate IsPattern(p: Pattern, n: int) {
    match p
    case Same(x, after) => n > 0 && IsSpecText(x) && IsGap(after)
    case Repeating(before, items, after) => n > 0 && IsGap(before) && |items| > 0 && AreItems(items) && IsGap(after)
    case Explicit(before, items, after) => |items| == n > 0 && IsGap(before) && AreItems(items) && IsGap(after)
  }

  function PatternText(p: Pattern): string {
    match p
    case Same(x, after) => Text(x) + after
    case Repeating(before, items, after) =>
      if |items| == 0 then "" else before + ("[" + (ItemsText(items, ']') + after))
    case Explicit(before, items, after) => if |items| == 0 then "" else before + ("{" + (ItemsText(items, '}') + after))
  }

  /** What thread t gets. */
  function ThreadMeaning(p: Pattern, t: nat): Spec {
    match p
    case Same(x, _) => Meaning(x)
    case Repeating(_, items, _) => if |items| == 0 then Spec(Fixed, 0, 0) else Meaning(items[t % |items|].x)
    case Explicit(_, items, _) => if t < |items| then Meaning(items[t].x) else Spec(Fixed, 0, 0)
  }

  /** The parser's result is one specification per thread, as the pattern says. */
  predicate Gives(o: Outcome<seq<Spec>>, p: Pattern, n: int) {
    o.Parsed? && |o.value| == n && forall t | 0 <= t < n :: o.value[t] == ThreadMeaning(p, t)
  }

  lemma {:induction false} GapIsSkipped(g: string)
    requires IsGap(g)
    ensures Skip(g) == ""
  {
    SkipGap(g, "");
    assert g + "" == g;
  }

  lemma SpecBegins(x: SpecText, r: string)
    requires IsSpecText(x)
    ensures First(Skip(Text(x) + r)) != '\0' && First(Skip(Text(x) + r)) != '[' && First(Skip(Text(x) + r)) != '{'
  {
    match x
    case One(n) =>
      Regroup(n.gap, n.sign + n.digits, r);
      Regroup(n.sign, n.digits, r);
      SignRead(n.sign, n.digits + r);
      SkipGap(n.gap, n.sign + (n.digits + r));
      assert First(n.sign + (n.digits + r)) == if n.sign == "" then n.digits[0] else n.sign[0];
    case Tuple(g, min, h, max, k) =>
      var t := NumeralText(min) + (h + ("," + (NumeralText(max) + (k + ")"))));
      Regroup(g, "(" + t, r);
      Regroup("(", t, r);
      SkipGap(g, "(" + (t + r));
  }

  /** What follows an opening bracket: a list's text and white space. */
  lemma ListIsRead(open: char, items: seq<Item>, close: char, after: string)
    requires |items| > 0 && AreItems(items) && IsClose(close) && IsGap(after)
    ensures ReadList([open] + (ItemsText(items, close) + after), close) == Parsed(Meanings(items), "")
  {
    var r := ItemsText(items, close) + after;
    assert ([open] + r)[1..] == r;
    SpecsAreRead();
    ItemsAreRead(ReadSpec, items, close, after);
    assert IgnoresGap(ReadSpec, r);
    SkipFirst(ReadSpec, r, close);
    GapIsSkipped(after);
    SpecNotClose(Skip(r), close);
  }

  lemma SpecNotClose(r: string, close: char)
    requires Elements(ReadSpec, r, close).Parsed? && IsClose(close)
    ensures First(r) != close
  {
  }

  predicate IsCString(s: string) { forall i | 0 <= i < |s| :: s[i] != '\0' }

  lemma CStringTail(a: string)
    requires IsCString(a) && |a| > 0
    ensures a == [a[0]] + a[1..] && IsCString(a[1..])
  {
    FirstAndRest(a);
  }

  lemma RestIsGap(r: string)
    requires IsCString(r) && First(Skip(r)) == '\0'
    ensures IsGap(r)
  {
    var g := Skipped(r);
    assert g + "" == g;
  }

  lemma CStringEnd(front: string, after: string)
    requires IsCString(front + after)
    ensures IsCString(after)
  {
    forall i | 0 <= i < |after| ensures after[i] != '\0' { assert after[i] == (front + after)[|front| + i]; }
  }

  lemma InnerFound(r: string, close: char) returns (items: seq<Item>, after: string)
    requires Elements(ReadSpec, r, close).Parsed? && IsClose(close)
    ensures |items| > 0 && AreItems(items) && Meanings(items) == Elements(ReadSpec, r, close).value
    ensures after == Elements(ReadSpec, r, close).rest && r == ItemsText(items, close) + after
  {
    SpecsAreRead();
    items := ItemsFound(ReadSpec, r, close);
    after := Elements(ReadSpec, r, close).rest;
  }

  lemma ListInside(r: string, close: char)
    requires |r| > 0 && ReadList(r, close).Parsed?
    ensures var o := Elements(ReadSpec, r[1..], close);
            o.Parsed? && o.value == ReadList(r, close).value && First(Skip(o.rest)) == '\0'
  {
    SpecsAreRead();
    assert IgnoresGap(ReadSpec, r[1..]);
    SkipFirst(ReadSpec, r[1..], close);
  }

  lemma ListFound(c: char, r: string, close: char) returns (items: seq<Item>, after: string)
    requires IsCString(r) && ReadList([c] + r, close).Parsed? && IsClose(close)
    ensures |items| > 0 && AreItems(items) && IsGap(after) && Meanings(items) == ReadList([c] + r, close).value
    ensures r == ItemsText(items, close) + after
  {
    assert ([c] + r)[1..] == r;
    ListInside([c] + r, close);
    items, after := InnerFound(r, close);
    CStringEnd(ItemsText(items, close), after);
    RestIsGap(after);
  }

  /** Every text of a pattern is accepted, and means per thread what the pattern says. */
  lemma PatternIsRead(p: Pattern, n: int)
    requires IsPattern(p, n)
    ensures Gives(ReadPattern(PatternText(p), n), p, n)
  {
    match p
    case Same(x, after) => SameIsRead(x, after, n);
    case Repeating(before, items, after) =>
      SkipGap(before, "[" + (ItemsText(items, ']') + after));
      ListIsRead('[', items, ']', after);
    case Explicit(before, items, after) =>
      SkipGap(before, "{" + (ItemsText(items, '}') + after));
      ListIsRead('{', items, '}', after);
  }

  lemma SameIsRead(x: SpecText, after: string, n: int)
    requires IsPattern(Same(x, after), n)
    ensures Gives(ReadPattern(PatternText(Same(x, after)), n), Same(x, after), n)
  {
    var r := Text(x) + after;
    GapNotDigit(after, "");
    assert after + "" == after;
    SpecIsRead(x, after);
    SpecsAreRead();
    assert IgnoresGap(ReadSpec, r);
    SpecBegins(x, after);
    GapIsSkipped(after);
  }

  /** Every accepted string is the text of a pattern. */
  lemma PatternFound(text: string, n: int) returns (p: Pattern)
    requires IsCString(text) && ReadPattern(text, n).Parsed?
    ensures IsPattern(p, n) && PatternText(p) == text
  {
    var before := Skipped(text);
    var a := Skip(text);
    CStringEnd(before, a);
    if First(a) == '[' {
      p := RepeatingFound(before, a, n);
    } else if First(a) == '{' {
      p := ExplicitFound(before, a, n);
    } else {
      p := SameFound(text, n);
    }
  }

  lemma RepeatingFound(before: string, a: string, n: int) returns (p: Pattern)
    requires IsGap(before) && IsCString(a) && First(a) == '[' && n > 0 && ReadList(a, ']').Parsed?
    ensures IsPattern(p, n) && PatternText(p) == before + a
  {
    CStringTail(a);
    var items, after := ListFound('[', a[1..], ']');
    p := Repeating(before, items, after);
  }

  lemma ExplicitFound(before: string, a: string, n: int) returns (p: Pattern)
    requires IsGap(before) && IsCString(a) && First(a) == '{' && n > 0
    requires ReadList(a, '}').Parsed? && |ReadList(a, '}').value| == n
    ensures IsPattern(p, n) && PatternText(p) == before + a
  {
    CStringTail(a);
    var items, after := ListFound('{', a[1..], '}');
    p := Explicit(before, items, after);
  }

  lemma SameFound(text: string, n: int) returns (p: Pattern)
    requires IsCString(text) && n > 0 && ReadSpec(text).Parsed? && First(Skip(ReadSpec(text).rest)) == '\0'
    ensures IsPattern(p, n) && PatternText(p) == text
  {
    var x := SpecFound(text);
    var after := ReadSpec(text).rest;
    CStringEnd(Text(x), after);
    RestIsGap(after);
    p := Same(x, after);
  }

  /** The accepted strings are exactly the texts of patterns. */
  lemma AcceptedExactly(text: string, n: int)
    requires IsCString(text)
    ensures ReadPattern(text, n).Parsed? <==> exists p :: IsPattern(p, n) && PatternText(p) == text
  {
    if ReadPattern(text, n).Parsed? {
      var p := PatternFound(text, n);
    }
    forall p | IsPattern(p, n) && PatternText(p) == text ensures ReadPattern(text, n).Parsed? {
      PatternIsRead(p, n);
    }
  }
}
