/** The parser on numbers, character by character: which ones it accepts, what may stand in front of
    them, and why it rejects what it rejects.  Numbers and characters are written out here. */
module BatchSpecLimits {
  import opened BatchSpec
  import opened BatchSpecGrammar

  // ---- decimal numbers -----------------------------------------------------------------------

  lemma {:induction false} NoLeadingZero(v: nat)
    ensures Decimal(v)[0] == '0' <==> v == 0
  {
    if v >= 10 { NoLeadingZero(v / 10); }
  }

  /** `%d` writes figures that denote the number, and no superfluous zero in front. */
  lemma DecimalDenotes(v: nat)
    ensures |Decimal(v)| > 0 && forall i | 0 <= i < |Decimal(v)| :: IsFigure(Decimal(v)[i])
    ensures Denotes(Decimal(v)) == v && (Decimal(v)[0] == '0' <==> v == 0)
  {
    DigitsDenote(Decimal(v));
    NoLeadingZero(v);
  }

  lemma OneDigit(v: nat)
    requires v < 10
    ensures Decimal(v) == ["0123456789"[v]]
  {
  }

  lemma MoreDigits(v: nat, d: nat)
    requires v > 0 && d < 10
    ensures Decimal(10 * v + d) == Decimal(v) + ["0123456789"[d]]
  {
    assert (10 * v + d) / 10 == v && (10 * v + d) % 10 == d;
  }

  lemma ThreeDigits()
    ensures Decimal(214) == "214"
  {
    OneDigit(2);
    MoreDigits(2, 1);
    MoreDigits(21, 4);
  }

  lemma FiveDigits()
    ensures Decimal(21474) == "21474"
  {
    ThreeDigits();
    MoreDigits(214, 7);
    MoreDigits(2147, 4);
  }

  lemma SevenDigits()
    ensures Decimal(2147483) == "2147483"
  {
    FiveDigits();
    MoreDigits(21474, 8);
    MoreDigits(214748, 3);
  }

  lemma NineDigits()
    ensures Decimal(214748364) == "214748364"
  {
    SevenDigits();
    MoreDigits(2147483, 6);
    MoreDigits(21474836, 4);
  }

  lemma LargestInt()
    ensures Decimal(2147483647) == "2147483647"
  {
    NineDigits();
    MoreDigits(214748364, 7);
  }

  // ---- which numbers are accepted ------------------------------------------------------------

  /** What becomes of a number w given as the whole pattern, for n threads. */
  function Verdict(w: int, n: nat): Outcome<seq<Spec>> {
    if w < -9223372036854775808 || w > 9223372036854775807 then Died(OutOfRange)
    else if w < 0 || w > 2147483647 then Died(NegativeOrLarge)
    else Parsed(seq(n, _ => Spec(Fixed, w, w)), "")
  }

  /** The number that a sign and a decimal number make. */
  function WithSign(sign: string, v: int): int { if sign == "-" then -v else v }

  predicate IsSignText(sign: string) { sign == "" || sign == "+" || sign == "-" }

  lemma SubjectCases(a: string, sign: string, d: string)
    requires AfterSign(a) == d && Digits(d) == d && |d| > 0 && (First(a) == '-' <==> sign == "-")
    ensures var w, c := WithSign(sign, Value(d)), Subject(a);
            && c.Converted? && c.rest == ""
            && (c.erange <==> w < -9223372036854775808 || w > 9223372036854775807)
            && (!c.erange ==> c.value == w)
  {
    assert d[|d|..] == "";
  }

  lemma AllDigits(d: string)
    requires forall i | 0 <= i < |d| :: IsDigit(d[i])
    ensures Digits(d) == d
  {
    assert d + "" == d;
    DigitsRead(d, "");
  }

  lemma SubjectOf(sign: string, d: string)
    requires IsSignText(sign) && |d| > 0 && forall i | 0 <= i < |d| :: IsDigit(d[i])
    ensures var w, c := WithSign(sign, Value(d)), Subject(sign + d);
            && c.Converted? && c.rest == ""
            && (c.erange <==> w < -9223372036854775808 || w > 9223372036854775807)
            && (!c.erange ==> c.value == w)
  {
    SignRead(sign, d);
    AllDigits(d);
    SubjectCases(sign + d, sign, d);
  }

  lemma TokenOf(sign: string, d: string)
    requires IsSignText(sign) && |d| > 0 && forall i | 0 <= i < |d| :: IsDigit(d[i])
    ensures var w := WithSign(sign, Value(d));
            IntToken(sign + d) == if w < -9223372036854775808 || w > 9223372036854775807 then Died(OutOfRange)
                                  else if w < 0 || w > 2147483647 then Died(NegativeOrLarge)
                                  else Parsed(w, "")
  {
    SignRead(sign, d);
    SubjectOf(sign, d);
  }

  lemma SpecOf(sign: string, d: string)
    requires IsSignText(sign) && |d| > 0 && forall i | 0 <= i < |d| :: IsDigit(d[i])
    ensures Skip(sign + d) == sign + d && First(sign + d) != '\0'
    ensures First(sign + d) != '[' && First(sign + d) != '{' && First(sign + d) != '('
    ensures match IntToken(sign + d)
            case Died(why) => ReadSpec(sign + d) == Died(why)
            case Absent => false
            case Parsed(w, _) => ReadSpec(sign + d) == Parsed(Spec(Fixed, w, w), "")
  {
    SignRead(sign, d);
    TokenOf(sign, d);
  }

  lemma NumberAlone(sign: string, v: nat, n: nat)
    requires IsSignText(sign) && n > 0
    ensures ReadPattern(sign + Decimal(v), n) == Verdict(WithSign(sign, v), n)
  {
    var w := WithSign(sign, v);
    SpecOf(sign, Decimal(v));
    TokenOf(sign, Decimal(v));
    if 0 <= w <= 2147483647 {
      assert Cycled([Spec(Fixed, w, w)], n) == seq(n, _ => Spec(Fixed, w, w));
    }
  }

  /** A number is accepted if and only if it is at most 2147483647, and then each thread gets it. */
  lemma NumberAccepted(v: nat, n: nat)
    requires n > 0
    ensures ReadPattern(Decimal(v), n).Parsed? <==> v <= 2147483647
    ensures v <= 2147483647 ==>
              forall t | 0 <= t < n :: ReadPattern(Decimal(v), n).value[t] == Spec(Fixed, v, v)
    ensures v > 2147483647 ==>
              ReadPattern(Decimal(v), n) == Died(if v > 9223372036854775807 then OutOfRange else NegativeOrLarge)
  {
    assert "" + Decimal(v) == Decimal(v);
    NumberAlone("", v, n);
  }

  /** With a minus sign it is rejected, unless it is zero. */
  lemma NegativeRejected(v: nat, n: nat)
    requires n > 0
    ensures v > 0 ==>
              ReadPattern("-" + Decimal(v), n) == Died(if v > 9223372036854775808 then OutOfRange else NegativeOrLarge)
    ensures v == 0 ==> ReadPattern("-" + Decimal(v), n) == ReadPattern(Decimal(v), n)
  {
    assert "" + Decimal(v) == Decimal(v);
    NumberAlone("-", v, n);
    NumberAlone("", v, n);
  }

  /** A plus sign changes nothing. */
  lemma PlusIgnored(v: nat, n: nat)
    requires n > 0
    ensures ReadPattern("+" + Decimal(v), n) == ReadPattern(Decimal(v), n)
  {
    assert "" + Decimal(v) == Decimal(v);
    NumberAlone("+", v, n);
    NumberAlone("", v, n);
  }

  // ---- what may stand before a number --------------------------------------------------------

  lemma SkippedBlank(c: char, t: string, n: int)
    requires IsBlank(c)
    ensures ReadPattern([c] + t, n) == ReadPattern(t, n)
  {
    assert ([c] + t)[1..] == t;
  }

  lemma ListUnclosed(c: char, r: string, close: char)
    requires IsClose(close) && Skip(r) == r && (ReadSpec(r).Parsed? ==> ReadSpec(r).rest == "")
    ensures !ReadList([c] + r, close).Parsed?
  {
    assert ([c] + r)[1..] == r;
  }

  lemma NotBeforeList(c: char, v: nat, close: char)
    requires IsClose(close)
    ensures !ReadList([c] + Decimal(v), close).Parsed?
  {
    assert "" + Decimal(v) == Decimal(v);
    TokenOf("", Decimal(v));
    SpecOf("", Decimal(v));
    ListUnclosed(c, Decimal(v), close);
  }

  lemma NotBeforeTuple(v: nat)
    ensures !TupleTail(Decimal(v)).Parsed?
  {
    assert "" + Decimal(v) == Decimal(v);
    TokenOf("", Decimal(v));
  }

  lemma NotBeforeToken(c: char, d: string)
    requires !IsBlank(c) && !IsFigure(c) && c != '+' && c != '-' && c != '\0'
    ensures IntToken([c] + d) == Absent
  {
    assert !IsSpace(c) && !IsDigit(c);
  }

  lemma NotBeforeSame(c: char, v: nat, n: nat)
    requires !IsBlank(c) && !IsFigure(c) && c != '+' && c != '-' && c != '\0'
    ensures !ReadSame([c] + Decimal(v), n).Parsed?
  {
    var t := [c] + Decimal(v);
    assert t[1..] == Decimal(v) && t[0] == c && Skip(t) == t;
    if c == '(' { NotBeforeTuple(v); } else { NotBeforeToken(c, Decimal(v)); }
  }

  /** Of the characters that are neither figures nor signs, blank, tab, newline, vertical tab, form
      feed and carriage return may stand before a number and change nothing; any other one makes the
      pattern unacceptable. */
  lemma BeforeNumber(c: char, v: nat, n: nat)
    requires n > 0 && !('0' <= c <= '9') && c != '+' && c != '-'
    ensures if c == ' ' || c == '\t' || c == '\n' || c == '\U{B}' || c == '\U{C}' || c == '\r'
            then ReadPattern([c] + Decimal(v), n) == ReadPattern(Decimal(v), n)
            else !ReadPattern([c] + Decimal(v), n).Parsed?
  {
    DigitIsFigure(c);
    if IsBlank(c) {
      SkippedBlank(c, Decimal(v), n);
    } else if c == '[' {
      NotBeforeList(c, v, ']');
    } else if c == '{' {
      NotBeforeList(c, v, '}');
    } else if c != '\0' {
      NotBeforeSame(c, v, n);
    }
  }

  // ---- why texts are rejected ----------------------------------------------------------------

  lemma RejectedStarts(n: nat)
    requires n > 0
    ensures ReadPattern("", n) == Died(EmptyPattern)
    ensures ReadPattern("x", n) == Died(SpecExpected)
    ensures ReadPattern("[]", n) == Died(EmptyList)
    ensures ReadPattern("[", n) == Died(UnexpectedEnd)
  {
  }

  lemma RejectedTuples(n: nat)
    requires n > 0
    ensures ReadPattern("(", n) == Died(MinExpected)
    ensures ReadPattern("(5", n) == Died(CommaExpected)
    ensures ReadPattern("(5,", n) == Died(MaxExpected)
  {
  }

  lemma NumberThen(v: nat, t: string)
    requires v <= 2147483647 && !IsDigit(First(t))
    ensures IntToken(Decimal(v) + t) == Parsed(v, t) && First(Decimal(v) + t) == Decimal(v)[0]
  {
    DigitsDenote(Decimal(v));
    var m := Numeral("", "", Decimal(v));
    assert NumeralText(m) == Decimal(v);
    NumeralRead(m, t);
  }

  lemma TupleThen(a: nat, b: nat, t: string)
    requires a <= 2147483647 && b <= 2147483647 && !IsDigit(First(t))
    ensures TupleTail(Decimal(a) + ("," + (Decimal(b) + t))) == TupleClose(a, b, Skip(t))
  {
    var r := "," + (Decimal(b) + t);
    NumberThen(a, r);
    NumberThen(b, t);
    assert r[1..] == Decimal(b) + t;
  }

  lemma AfterParen(r: string, n: nat)
    requires n > 0 && TupleTail(r).Died?
    ensures ReadPattern("(" + r, n) == Died(TupleTail(r).why)
  {
    assert ("(" + r)[1..] == r;
  }

  /** Bounds in the wrong order, and a tuple that is not closed. */
  lemma RejectedBounds(a: nat, b: nat, n: nat)
    requires a <= 2147483647 && b <= 2147483647 && n > 0
    ensures ReadPattern("(" + (Decimal(a) + ("," + (Decimal(b) + ""))), n) == Died(ParenExpected)
    ensures a > b ==> ReadPattern("(" + (Decimal(a) + ("," + (Decimal(b) + ")"))), n) == Died(MinAboveMax)
  {
    TupleThen(a, b, "");
    TupleThen(a, b, ")");
    AfterParen(Decimal(a) + ("," + (Decimal(b) + "")), n);
    if a > b { AfterParen(Decimal(a) + ("," + (Decimal(b) + ")")), n); }
  }

  lemma SpecThen(v: nat, t: string)
    requires v <= 2147483647 && !IsDigit(First(t))
    ensures ReadSpec(Decimal(v) + t) == Parsed(Spec(Fixed, v, v), t) && Skip(Decimal(v) + t) == Decimal(v) + t
    ensures IsDigit(First(Decimal(v) + t))
  {
    NumberThen(v, t);
  }

  /** Anything but white space after a number, and a list that is not closed. */
  lemma RejectedRest(v: nat, t: string, n: nat)
    requires v <= 2147483647 && n > 0 && !IsDigit(First(t)) && First(Skip(t)) != '\0'
    ensures ReadPattern(Decimal(v) + t, n) == Died(Trailing)
  {
    SpecThen(v, t);
  }

  lemma RejectedOpen(v: nat, n: nat)
    requires v <= 2147483647 && n > 0
    ensures ReadPattern("[" + (Decimal(v) + ""), n) == Died(CloseExpected)
    ensures ReadPattern("{" + (Decimal(v) + ""), n) == Died(CloseExpected)
  {
    SpecThen(v, "");
    assert ("[" + (Decimal(v) + ""))[1..] == Decimal(v) + "" == ("{" + (Decimal(v) + ""))[1..];
  }

  /** Anything but white space after a closing bracket. */
  lemma RejectedAfterList(v: nat, t: string, n: nat)
    requires v <= 2147483647 && n > 0 && First(Skip(t)) != '\0'
    ensures ReadPattern("[" + (Decimal(v) + ("]" + t)), n) == Died(Trailing)
    ensures ReadPattern("{" + (Decimal(v) + ("}" + t)), n) == Died(Trailing)
  {
    ListOfOne('[', v, ']', t);
    ListOfOne('{', v, '}', t);
  }

  lemma ListOfOne(open: char, v: nat, close: char, t: string)
    requires v <= 2147483647 && IsClose(close) && First(Skip(t)) != '\0'
    ensures ReadList([open] + (Decimal(v) + ([close] + t)), close) == Died(Trailing)
  {
    var r := Decimal(v) + ([close] + t);
    SpecThen(v, [close] + t);
    assert ([open] + r)[1..] == r && ([close] + t)[1..] == t;
    assert Elements(ReadSpec, r, close) == Parsed([Spec(Fixed, v, v)], t);
  }

  lemma RejectedCounts(text: string, n: int)
    requires n <= 0
    ensures ReadPattern(text, n) == Died(NoThreads)
  {
  }
}
