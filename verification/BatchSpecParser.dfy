/** The parser as it runs: a cursor into the pattern, a buffer that grows, one entry per thread. */
module BatchSpecParser {
  import opened Division
  import opened BatchSpec
  import opened BatchSpecGrammar

  /** A value and where the cursor then stands; or no integer; or the pattern is rejected. */
  datatype Token<+T> = At(value: T, to: nat) | NoToken | Rejected(why: Why)

  /** The cursor stands where the outcome's rest begins. */
  predicate Matches<T(==)>(k: Token<T>, s: string, o: Outcome<T>) {
    match k
    case At(v, to) => to <= |s| && o == Parsed(v, s[to..])
    case NoToken => o.Absent?
    case Rejected(why) => o == Died(why)
  }

  function CharAt(s: string, i: nat): (c: char)
    requires i <= |s|
    ensures c == First(s[i..])
  {
    if i < |s| then s[i] else '\0'
  }

  method SkipWs(s: string, at: nat) returns (to: nat)
    requires at <= |s|
    ensures at <= to <= |s| && s[to..] == Skip(s[at..])
  {
    to := at;
    while to < |s| && IsSpace(s[to])
      invariant at <= to <= |s| && Skip(s[to..]) == Skip(s[at..])
    {
      assert s[to..][1..] == s[to + 1..];
      to := to + 1;
    }
  }

  /** What `strtol` leaves is an end piece of the text. */
  lemma SubjectEnds(a: string)
    requires Subject(a).Converted?
    ensures a[|a| - |Subject(a).rest|..] == Subject(a).rest
  {
    var b := AfterSign(a);
    DropDrop(a, |a| - |b|, |Digits(b)|);
  }

  lemma DropDrop(a: string, i: nat, j: nat)
    requires i + j <= |a|
    ensures a[i..][j..] == a[i + j..]
  {
  }

  /** `strtol(p, &end, 10)` */
  method Convert(s: string, p: nat) returns (c: Conversion, end: nat)
    requires p <= |s| && !IsSpace(CharAt(s, p))
    ensures c == Strtol(s[p..]) && (c.Converted? ==> p < end <= |s| && c.rest == s[end..])
  {
    c, end := Subject(s[p..]), p;
    if c.Converted? {
      SubjectEnds(s[p..]);
      end := |s| - |c.rest|;
      assert s[p..][|s[p..]| - |c.rest|..] == s[end..];
    }
  }

  method ParseIntToken(s: string, at: nat) returns (k: Token<int>)
    requires at <= |s|
    ensures Matches(k, s, IntToken(s[at..])) && (k.At? ==> at < k.to && 0 <= k.value <= 2147483647)
  {
    var p := SkipWs(s, at);
    if CharAt(s, p) == '\0' { return NoToken; }
    var c, end := Convert(s, p);
    if c.NoConversion? { return NoToken; }
    if c.erange { return Rejected(OutOfRange); }
    if c.value < 0 || c.value > INT_MAX { return Rejected(NegativeOrLarge); }
    k := At(c.value, end);
  }

  /** The end of `parse_spec`'s first branch: after the second integer. */
  method ParseClose(s: string, p: nat, min: int, max: int) returns (k: Token<Spec>)
    requires p <= |s| && 0 <= min <= INT_MAX && 0 <= max <= INT_MAX
    ensures Matches(k, s, TupleClose(min, max, s[p..])) && (k.At? ==> p < k.to)
  {
    if CharAt(s, p) != ')' { return Rejected(ParenExpected); }
    assert s[p..][1..] == s[p + 1..];
    if min < 0 || max < 0 { return Rejected(NegativeSize); }
    if min > max { return Rejected(MinAboveMax); }
    k := At(Spec(Range, min, max), p + 1);
  }

  method ParseMax(s: string, p: nat, min: int) returns (k: Token<Spec>)
    requires p <= |s| && 0 <= min <= INT_MAX
    ensures Matches(k, s, TupleMax(min, s[p..])) && (k.At? ==> p < k.to)
  {
    if CharAt(s, p) != ',' { return Rejected(CommaExpected); }
    assert s[p..][1..] == s[p + 1..];
    var max := ParseIntToken(s, p + 1);
    if max.Rejected? { return Rejected(max.why); }
    if max.NoToken? { return Rejected(MaxExpected); }
    var q := SkipWs(s, max.to);
    k := ParseClose(s, q, min, max.value);
  }

  method ParseTuple(s: string, at: nat) returns (k: Token<Spec>)
    requires at <= |s|
    ensures Matches(k, s, TupleTail(s[at..])) && (k.At? ==> at < k.to)
  {
    var min := ParseIntToken(s, at);
    if min.Rejected? { return Rejected(min.why); }
    if min.NoToken? { return Rejected(MinExpected); }
    var p := SkipWs(s, min.to);
    k := ParseMax(s, p, min.value);
  }

  method ParseSpec(s: string, at: nat) returns (k: Token<Spec>)
    requires at <= |s|
    ensures Matches(k, s, ReadSpec(s[at..])) && (k.At? ==> at < k.to)
  {
    var p := SkipWs(s, at);
    if CharAt(s, p) == '\0' { return Rejected(UnexpectedEnd); }
    if CharAt(s, p) == '(' {
      assert s[p..][1..] == s[p + 1..];
      k := ParseTuple(s, p + 1);
      return;
    }
    var v := ParseIntToken(s, p);
    if v.Rejected? { return Rejected(v.why); }
    if v.NoToken? { return Rejected(SpecExpected); }
    k := At(Spec(Fixed, v.value, v.value), v.to);
  }

  // ---- lists ---------------------------------------------------------------------------------

  /** With `done` already read, the outcome for what is left gives the outcome for the whole. */
  predicate Continues(done: seq<Spec>, left: Outcome<seq<Spec>>, all: Outcome<seq<Spec>>) {
    match left
    case Parsed(xs, rest) => all == Parsed(done + xs, rest)
    case _ => all == left
  }

  lemma Appending(done: seq<Spec>, x: Spec, xs: seq<Spec>)
    ensures done + ([x] + xs) == done + [x] + xs
  {
  }

  /** What one round of the loop means, by the separator that follows the element. */
  lemma RoundMeans(read: string -> Outcome<Spec>, r: string, done: seq<Spec>, close: char, all: Outcome<seq<Spec>>)
    requires Consumes(read) && Continues(done, Elements(read, r, close), all) && IsClose(close)
    ensures read(r).Died? ==> all == Died(read(r).why)
    ensures read(r).Parsed? ==>
              var t := Skip(read(r).rest);
              if First(t) == ',' then Continues(done + [read(r).value], Elements(read, Skip(t[1..]), close), all)
              else if First(t) == close then all == Parsed(done + [read(r).value], t[1..])
              else all == Died(CloseExpected)
  {
    if read(r).Parsed? && First(Skip(read(r).rest)) == ',' {
      var left := Elements(read, Skip(Skip(read(r).rest)[1..]), close);
      if left.Parsed? { Appending(done, read(r).value, left.value); }
    }
  }

  /** The parser at cursor p and the reader agree. */
  predicate Agree(read: string -> Outcome<Spec>, s: string, p: nat)
    requires p <= |s|
  {
    read(s[p..]) == ReadSpec(s[p..])
  }

  ghost predicate AgreeAll(read: string -> Outcome<Spec>, s: string) {
    Consumes(read) && forall p: nat | p <= |s| :: Agree(read, s, p)
  }

  method ParseElement(s: string, p: nat, ghost read: string -> Outcome<Spec>) returns (x: Token<Spec>)
    requires p <= |s| && AgreeAll(read, s)
    ensures !x.NoToken? && Matches(x, s, read(s[p..])) && (x.At? ==> p < x.to)
  {
    assert Agree(read, s, p);
    x := ParseSpec(s, p);
  }

  /** The character after an element, and where the cursor stands once it is read. */
  method ParseSeparator(s: string, at: nat, close: char) returns (c: char, to: nat)
    requires at <= |s| && IsClose(close)
    ensures c == First(Skip(s[at..])) && (c == ',' || c == close ==> at < to <= |s|)
    ensures c == ',' ==> s[to..] == Skip(Skip(s[at..])[1..])
    ensures c == close ==> s[to..] == Skip(s[at..])[1..]
  {
    to := SkipWs(s, at);
    c := CharAt(s, to);
    if c == ',' || c == close {
      assert s[to..][1..] == s[to + 1..];
      to := to + 1;
    }
    if c == ',' { to := SkipWs(s, to); }
  }

  /** One round of the loop: an element, and the comma or bracket after it. */
  method ParseNext(s: string, p: nat, close: char, ghost read: string -> Outcome<Spec>, ghost done: seq<Spec>,
    ghost all: Outcome<seq<Spec>>)
    returns (x: Token<Spec>, more: bool)
    requires p <= |s| && IsClose(close) && AgreeAll(read, s)
    requires Continues(done, Elements(read, s[p..], close), all)
    ensures !x.NoToken? && (x.Rejected? ==> all == Died(x.why)) && (x.At? ==> p < x.to <= |s|)
    ensures x.At? && more ==> Continues(done + [x.value], Elements(read, s[x.to..], close), all)
    ensures x.At? && !more ==> all == Parsed(done + [x.value], s[x.to..])
  {
    more := false;
    x := ParseElement(s, p, read);
    RoundMeans(read, s[p..], done, close, all);
    if x.Rejected? { return; }
    var c, q := ParseSeparator(s, x.to, close);
    more := c == ',';
    x := if c == ',' || c == close then At(x.value, q) else Rejected(CloseExpected);
  }

  /** `realloc` to twice the capacity. */
  method Grow(elems: array<Spec>, cap: nat) returns (grown: array<Spec>)
    requires elems.Length <= cap
    ensures fresh(grown) && grown.Length == cap && grown[..elems.Length] == elems[..]
  {
    grown := new Spec[cap](_ => Spec(Fixed, 0, 0));
    for i := 0 to elems.Length
      invariant grown[..i] == elems[..i]
    {
      grown[i] := elems[i];
    }
  }

  /** `elems[len++] = x`, in a buffer whose capacity doubles when it is full. */
  method Store(elems: array<Spec>, len: nat, x: Spec) returns (stored: array<Spec>)
    requires 0 < elems.Length && len <= elems.Length
    modifies elems
    ensures stored == elems || fresh(stored)
    ensures 0 < len + 1 <= stored.Length && stored[..len + 1] == old(elems[..len]) + [x]
  {
    stored := elems;
    if len == elems.Length {
      stored := Grow(elems, 2 * elems.Length);
    }
    stored[len] := x;
  }

  /** The loop of `parse_spec_list`. */
  method ParseElements(s: string, at: nat, close: char, ghost read: string -> Outcome<Spec>) returns (k: Token<nat>,
    elems: array<Spec>)
    requires at <= |s| && IsClose(close) && AgreeAll(read, s)
    ensures fresh(elems) && !k.NoToken? && (k.At? ==> 0 < k.value <= elems.Length && at < k.to <= |s|)
    ensures k.At? ==> Elements(read, s[at..], close) == Parsed(elems[..k.value], s[k.to..])
    ensures k.Rejected? ==> Elements(read, s[at..], close) == Died(k.why)
  {
    var len, p, more := 0, at, true;
    elems := new Spec[8](_ => Spec(Fixed, 0, 0));
    ghost var all := Elements(read, s[at..], close);
    ghost var done: seq<Spec> := [];
    if all.Parsed? { assert done + all.value == all.value; }
    while more
      invariant at <= p <= |s| && len <= elems.Length && 0 < elems.Length && fresh(elems)
      invariant done == elems[..len]
      invariant more ==> Continues(done, Elements(read, s[p..], close), all)
      invariant !more ==> 0 < len && at < p && all == Parsed(done, s[p..])
      decreases |s| - p
    {
      var x;
      x, more := ParseNext(s, p, close, read, done, all);
      if x.Rejected? { return Rejected(x.why), elems; }
      elems := Store(elems, len, x.value);
      done := done + [x.value];
      len, p := len + 1, x.to;
    }
    k := At(len, p);
  }

  /** `parse_spec_list`; the cursor is at the opening bracket. */
  method ParseSpecList(s: string, at: nat, close: char) returns (k: Token<nat>, elems: array<Spec>)
    requires at < |s| && IsClose(close)
    ensures fresh(elems) && !k.NoToken? && (k.At? ==> 0 < k.value <= elems.Length)
    ensures k.At? ==> ReadList(s[at..], close) == Parsed(elems[..k.value], "")
    ensures k.Rejected? ==> ReadList(s[at..], close) == Died(k.why)
  {
    assert s[at..][1..] == s[at + 1..];
    var p := SkipWs(s, at + 1);
    if CharAt(s, p) == close {
      elems := new Spec[0];
      return Rejected(EmptyList), elems;
    }
    assert forall i: nat | i <= |s| :: Agree(ReadSpec, s, i);
    k, elems := ParseElements(s, p, close, ReadSpec);
    if k.At? {
      p := SkipWs(s, k.to);
      if CharAt(s, p) != '\0' { k := Rejected(Trailing); }
    }
  }

  // ---- patterns ------------------------------------------------------------------------------

  /** The loops that fill `per_thread`. */
  method Spread(elems: array<Spec>, len: nat, n: nat) returns (perThread: array<Spec>)
    requires 0 < len <= elems.Length
    ensures fresh(perThread) && perThread[..] == Cycled(elems[..len], n)
  {
    perThread := new Spec[n](_ => Spec(Fixed, 0, 0));
    for t := 0 to n
      invariant forall i | 0 <= i < t :: perThread[i] == elems[i % len]
    {
      perThread[t] := elems[t % len];
    }
  }

  datatype Answer = Accepted(perThread: array<Spec>) | Failed(why: Why)

  ghost predicate Answers(a: Answer, o: Outcome<seq<Spec>>)
    reads if a.Accepted? then {a.perThread} else {}
  {
    match a
    case Accepted(perThread) => o == Parsed(perThread[..], "")
    case Failed(why) => o == Died(why)
  }

  lemma CycledOnce(xs: seq<Spec>)
    requires |xs| > 0
    ensures Cycled(xs, |xs|) == xs
  {
    forall t | 0 <= t < |xs| ensures Cycled(xs, |xs|)[t] == xs[t] { Remainder(t, |xs|); }
  }

  method ParseRepeating(s: string, p: nat, n: nat) returns (a: Answer)
    requires p < |s|
    ensures Answers(a, ReadRepeating(s[p..], n))
  {
    var k, elems := ParseSpecList(s, p, ']');
    if k.Rejected? { return Failed(k.why); }
    var perThread := Spread(elems, k.value, n);
    a := Accepted(perThread);
  }

  method ParseExplicit(s: string, p: nat, n: nat) returns (a: Answer)
    requires p < |s|
    ensures Answers(a, ReadExplicit(s[p..], n))
  {
    var k, elems := ParseSpecList(s, p, '}');
    if k.Rejected? { return Failed(k.why); }
    if k.value != n { return Failed(WrongCount); }
    var perThread := Spread(elems, k.value, n);
    CycledOnce(elems[..n]);
    a := Accepted(perThread);
  }

  method ParseSame(s: string, p: nat, n: nat) returns (a: Answer)
    requires p < |s|
    ensures Answers(a, ReadSame(s[p..], n))
  {
    var one := ParseSpec(s, p);
    if one.Rejected? { return Failed(one.why); }
    var q := SkipWs(s, one.to);
    if CharAt(s, q) != '\0' { return Failed(Trailing); }
    var elems := new Spec[1](_ => one.value);
    assert elems[..1] == [one.value];
    var perThread := Spread(elems, 1, n);
    a := Accepted(perThread);
  }

  /** `parse_batch_size_pattern` */
  method ParsePattern(s: string, n: int) returns (a: Answer)
    ensures Answers(a, ReadPattern(s, n))
  {
    if n <= 0 { return Failed(NoThreads); }
    var p := SkipWs(s, 0);
    assert s[0..] == s;
    var c := CharAt(s, p);
    if c == '\0' { return Failed(EmptyPattern); }
    if c == '[' { a := ParseRepeating(s, p, n); }
    else if c == '{' { a := ParseExplicit(s, p, n); }
    else { a := ParseSame(s, p, n); }
  }
}
