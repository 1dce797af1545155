/** The camera's focus area: five numbers, read from and written as text. */
module FocusArea {
  import opened Options

  const INT_MIN := -0x8000_0000
  const INT_MAX := 0x7fff_ffff

  datatype Area = Area(left: int, top: int, right: int, bottom: int, weight: int)

  predicate IsInt(n: int) {
    INT_MIN <= n <= INT_MAX
  }

  predicate Ints(a: Area) {
    IsInt(a.left) && IsInt(a.top) && IsInt(a.right) && IsInt(a.bottom) && IsInt(a.weight)
  }

  // --------------------------------------------------------------------------------- the printer

  function Digit(d: nat): (c: char)
    requires d < 10
    ensures IsDigit(c) && DigitValue(c) == d
  {
    '0' + d as char
  }

  predicate IsDigit(c: char) {
    '0' <= c <= '9'
  }

  function DigitValue(c: char): nat
    requires IsDigit(c)
  {
    c as nat - '0' as nat
  }

  function PrintNat(n: nat): (s: string)
    ensures s != [] && forall k | 0 <= k < |s| :: IsDigit(s[k])
  {
    if n < 10 then [Digit(n)] else PrintNat(n / 10) + [Digit(n % 10)]
  }

  /** %d */
  function PrintInt(n: int): string {
    if n < 0 then "-" + PrintNat(-n) else PrintNat(n)
  }

  /** A number, what separates it from the next, and the rest. */
  function Field(n: int, sep: char, rest: string): string {
    PrintInt(n) + ([sep] + rest)
  }

  /** (%d,%d,%d,%d,%d) */
  function Print(a: Area): string {
    "(" + Field(a.left, ',', Field(a.top, ',', Field(a.right, ',', Field(a.bottom, ',', Field(a.weight, ')', "")))))
  }

  // ------------------------------------------------------------------------------------- strtol

  /** The character at i; behind the text there is a NUL. */
  function Peek(s: string, i: nat): char {
    if i < |s| then s[i] else '\0'
  }

  predicate IsSpace(c: char) {
    c == ' ' || '\t' <= c <= '\r'
  }

  function SkipSpace(s: string, i: nat): (r: nat)
    ensures i <= r && !IsSpace(Peek(s, r))
    decreases if i < |s| then |s| - i else 0
  {
    if IsSpace(Peek(s, i)) then SkipSpace(s, i + 1) else i
  }

  function SkipDigits(s: string, i: nat): (r: nat)
    ensures i <= r && !IsDigit(Peek(s, r))
    ensures i <= |s| ==> r <= |s|
    ensures forall k | i <= k < r :: k < |s| && IsDigit(s[k])
    decreases if i < |s| then |s| - i else 0
  {
    if IsDigit(Peek(s, i)) then SkipDigits(s, i + 1) else i
  }

  function Value(digits: string): nat
    requires forall k | 0 <= k < |digits| :: IsDigit(digits[k])
  {
    if digits == [] then 0 else 10 * Value(digits[..|digits| - 1]) + DigitValue(digits[|digits| - 1])
  }

  /** Values beyond a 32-bit long end at its limits. */
  function Clamp(n: int): int {
    if n < INT_MIN then INT_MIN else if n > INT_MAX then INT_MAX else n
  }

  /** The limit is the nearest 32-bit value. */
  lemma ClampIsNearest(n: int, m: int)
    requires IsInt(m)
    ensures IsInt(Clamp(n)) && (IsInt(n) ==> Clamp(n) == n)
    ensures (if n < Clamp(n) then Clamp(n) - n else n - Clamp(n)) <= (if n < m then m - n else n - m)
  {
  }

  /** Blank, tab, newline, vertical tab, form feed and carriage return. */
  lemma SpacesAre(c: char)
    ensures IsSpace(c) <==> c as int in {0x20, 0x09, 0x0A, 0x0B, 0x0C, 0x0D}
  {
  }

  /** strtol in base 10: the value, and where reading stopped; without digits that is where it began. */
  function Strtol(s: string, start: nat): (r: (int, nat))
    ensures IsInt(r.0) && start <= r.1
  {
    var i := SkipSpace(s, start);
    var negative := Peek(s, i) == '-';
    var first := if negative || Peek(s, i) == '+' then i + 1 else i;
    var end := SkipDigits(s, first);
    if end == first then (0, start)
    else
      var n: int := Value(s[first..end]);
      (Clamp(if negative then -n else n), end)
  }

  // --------------------------------------------------------------------------------- the parser

  const ZERO := Area(0, 0, 0, 0, 0)

  /** The constructor from text; None is an area whose fields were left unset. */
  function Parse(str: Option<string>): Option<Area> {
    match str
    case None => None
    case Some(s) =>
      if Peek(s, 0) != '(' then None
      else
        var (left, e1) := Strtol(s, 1);
        if Peek(s, e1) != ',' then Some(ZERO) else
        var (top, e2) := Strtol(s, e1 + 1);
        if Peek(s, e2) != ',' then Some(ZERO) else
        var (right, e3) := Strtol(s, e2 + 1);
        if Peek(s, e3) != ',' then Some(ZERO) else
        var (bottom, e4) := Strtol(s, e3 + 1);
        if Peek(s, e4) != ',' then Some(ZERO) else
        var (weight, e5) := Strtol(s, e4 + 1);
        if Peek(s, e5) != ')' then Some(ZERO) else Some(Area(left, top, right, bottom, weight))
  }

  // --------------------------------------------------------------------------------- round trip

  lemma {:induction false} ValueOfPrint(n: nat)
    ensures Value(PrintNat(n)) == n
  {
    if n >= 10 {
      ValueOfPrint(n / 10);
      assert PrintNat(n)[..|PrintNat(n)| - 1] == PrintNat(n / 10);
    }
  }

  lemma {:induction false} SkipsAll(s: string, i: nat, end: nat)
    requires i <= end <= |s| && !IsDigit(Peek(s, end))
    requires forall k | i <= k < end :: IsDigit(s[k])
    ensures SkipDigits(s, i) == end
    decreases end - i
  {
    if i < end {
      SkipsAll(s, i + 1, end);
    }
  }

  /** A run of digits, from first to end, with or without a sign in front. */
  lemma StrtolOfDigits(s: string, start: nat, negative: bool, n: nat, end: nat)
    requires end < |s| && !IsDigit(s[end])
    requires var first := if negative then start + 1 else start; first < end && s[first..end] == PrintNat(n)
    requires negative ==> s[start] == '-'
    ensures var value: int := n; Strtol(s, start) == (Clamp(if negative then -value else value), end)
  {
    var first := if negative then start + 1 else start;
    assert forall k | first <= k < end :: s[k] == s[first..end][k - first];
    hide PrintNat, Value, Strtol, SkipDigits;
    SkipsAll(s, first, end);
    ValueOfPrint(n);
    assert IsDigit(s[first]);
    assert SkipSpace(s, start) == start;
    StrtolFound(s, start, start, if negative then "-" else "", first, end, n);
  }

  lemma Slices(s: string, start: nat, text: string, rest: string)
    requires start <= |s| && s[start..] == text + rest
    ensures start + |text| <= |s| && s[start..start + |text|] == text && s[start + |text|..] == rest
  {
    assert s[start..start + |text|] == s[start..][..|text|];
    assert s[start + |text|..] == s[start..][|text|..];
  }

  /** A printed number is read back, up to the first character behind it. */
  lemma StrtolOfPrint(s: string, start: nat, n: int, rest: string)
    requires start <= |s| && s[start..] == PrintInt(n) + rest
    requires rest != [] && !IsDigit(rest[0]) && IsInt(n)
    ensures var end := start + |PrintInt(n)|;
      Strtol(s, start) == (n, end) && end < |s| && s[end..] == rest
  {
    var text, magnitude := PrintInt(n), if n < 0 then -n else n;
    var end := start + |text|;
    assert text == if n < 0 then "-" + PrintNat(magnitude) else PrintNat(magnitude);
    hide PrintInt, PrintNat, Strtol;
    Slices(s, start, text, rest);
    assert s[end] == s[end..][0] == rest[0];
    if n < 0 {
      assert s[start] == s[start..end][0] == '-';
      assert s[start + 1..end] == s[start..end][1..];
    }
    StrtolOfDigits(s, start, n < 0, magnitude, end);
  }

  /** One number and its separator of a printed area. */
  lemma FieldOfPrint(s: string, start: nat, n: int, sep: char, rest: string)
    requires start <= |s| && s[start..] == Field(n, sep, rest) && !IsDigit(sep) && IsInt(n)
    ensures var (value, end) := Strtol(s, start);
      value == n && Peek(s, end) == sep && end + 1 <= |s| && s[end + 1..] == rest
  {
    var end := start + |PrintInt(n)|;
    hide PrintInt, Strtol;
    StrtolOfPrint(s, start, n, [sep] + rest);
    assert s[end..][0] == sep && s[end..][1..] == rest;
    assert s[end + 1..] == s[end..][1..];
  }

  lemma StartsOpen(a: Area)
    ensures Peek(Print(a), 0) == '('
  {
  }

  /** Parsing what was printed gives back the area, for every five 32-bit numbers. */
  lemma ParseOfPrint(a: Area)
    requires Ints(a)
    ensures Parse(Some(Print(a))) == Some(a)
  {
    var s := Print(a);
    hide Field, Strtol, Peek;
    assert Peek(s, 0) == '(' by {
      StartsOpen(a);
    }
    var r4 := Field(a.weight, ')', "");
    var r3 := Field(a.bottom, ',', r4);
    var r2 := Field(a.right, ',', r3);
    var r1 := Field(a.top, ',', r2);
    assert s[1..] == Field(a.left, ',', r1);
    FieldOfPrint(s, 1, a.left, ',', r1);
    var e1 := Strtol(s, 1).1;
    FieldOfPrint(s, e1 + 1, a.top, ',', r2);
    var e2 := Strtol(s, e1 + 1).1;
    FieldOfPrint(s, e2 + 1, a.right, ',', r3);
    var e3 := Strtol(s, e2 + 1).1;
    FieldOfPrint(s, e3 + 1, a.bottom, ',', r4);
    var e4 := Strtol(s, e3 + 1).1;
    FieldOfPrint(s, e4 + 1, a.weight, ')', "");
  }

  /** Two areas are printed alike only if they are the same. */
  lemma PrintIsInjective(a: Area, b: Area)
    requires Ints(a) && Ints(b) && Print(a) == Print(b)
    ensures a == b
  {
    ParseOfPrint(a);
    ParseOfPrint(b);
  }

  /** What separates the numbers decides: five numbers behind a bracket are an area exactly if four commas and a
      closing bracket follow them, whatever comes after that; otherwise they are a dummy. */
  lemma SeparatorsDecide(a: Area, c1: char, c2: char, c3: char, c4: char, c5: char, tail: string)
    requires Ints(a) && !IsDigit(c1) && !IsDigit(c2) && !IsDigit(c3) && !IsDigit(c4) && !IsDigit(c5)
    ensures var s := "(" + Field(a.left, c1, Field(a.top, c2, Field(a.right, c3, Field(a.bottom, c4,
                     Field(a.weight, c5, tail)))));
      Parse(Some(s)) == Some(if c1 == c2 == c3 == c4 == ',' && c5 == ')' then a else ZERO)
  {
    hide Field, Strtol, Peek;
    var r4 := Field(a.weight, c5, tail);
    var r3 := Field(a.bottom, c4, r4);
    var r2 := Field(a.right, c3, r3);
    var r1 := Field(a.top, c2, r2);
    var s := "(" + Field(a.left, c1, r1);
    assert Peek(s, 0) == '(' by { Opens(Field(a.left, c1, r1)); }
    assert s[1..] == Field(a.left, c1, r1);
    FieldOfPrint(s, 1, a.left, c1, r1);
    var e1 := Strtol(s, 1).1;
    FieldOfPrint(s, e1 + 1, a.top, c2, r2);
    var e2 := Strtol(s, e1 + 1).1;
    FieldOfPrint(s, e2 + 1, a.right, c3, r3);
    var e3 := Strtol(s, e2 + 1).1;
    FieldOfPrint(s, e3 + 1, a.bottom, c4, r4);
    var e4 := Strtol(s, e3 + 1).1;
    FieldOfPrint(s, e4 + 1, a.weight, c5, tail);
  }

  lemma Opens(rest: string)
    ensures Peek("(" + rest, 0) == '('
  {
  }

  /** Only text that does not begin with a bracket leaves the fields unset. */
  lemma UnsetIff(str: Option<string>)
    ensures Parse(str).None? <==> str.None? || Peek(str.value, 0) != '('
    ensures Parse(str).Some? ==> Ints(Parse(str).value)
  {
    hide Strtol, Peek;
  }

  lemma {:induction false} SkipsSpaces(s: string, i: nat, end: nat)
    requires i <= end <= |s| && !IsSpace(Peek(s, end)) && forall k | i <= k < end :: IsSpace(s[k])
    ensures SkipSpace(s, i) == end
    decreases end - i
  {
    if i < end {
      SkipsSpaces(s, i + 1, end);
    }
  }

  lemma {:induction false} LeadingZeros(zeros: string, digits: string)
    requires forall k | 0 <= k < |zeros| :: zeros[k] == '0'
    requires forall k | 0 <= k < |digits| :: IsDigit(digits[k])
    ensures Value(zeros + digits) == Value(digits)
    decreases |digits|, |zeros|
  {
    if digits != [] {
      assert (zeros + digits)[..|zeros + digits| - 1] == zeros + digits[..|digits| - 1];
      LeadingZeros(zeros, digits[..|digits| - 1]);
    } else if zeros != [] {
      assert zeros + digits == zeros;
      LeadingZeros(zeros[..|zeros| - 1], digits);
      assert zeros[..|zeros| - 1] + digits == zeros[..|zeros| - 1];
    }
  }

  /** What may stand in front of a number: white space, one sign, zeros. Values beyond 32 bits end at the limits. */
  lemma StrtolReads(s: string, start: nat, spaces: string, sign: string, zeros: string, n: nat, end: nat)
    requires start <= end < |s| && s[start..end] == spaces + (sign + (zeros + PrintNat(n))) && !IsDigit(s[end])
    requires forall k | 0 <= k < |spaces| :: IsSpace(spaces[k])
    requires forall k | 0 <= k < |zeros| :: zeros[k] == '0'
    requires sign == "" || sign == "+" || sign == "-"
    ensures var value: int := n; Strtol(s, start) == (Clamp(if sign == "-" then -value else value), end)
  {
    var digits := zeros + PrintNat(n);
    var i := start + |spaces|;
    var first := i + |sign|;
    hide PrintNat, Value, Strtol, SkipSpace, SkipDigits, IsSpace;
    var cut := s[..end];
    assert cut[start..] == s[start..end];
    Slices(cut, start, spaces, sign + digits);
    Slices(cut, i, sign, digits);
    SpacesEnd(s, start, i, spaces, sign, digits, end);
    DigitsEnd(s, first, digits, end);
    LeadingZeros(zeros, PrintNat(n));
    ValueOfPrint(n);
    assert sign != "" ==> s[i] == cut[i..first][0] == sign[0];
    assert sign == "" ==> s[i] == digits[0];
    StrtolFound(s, start, i, sign, first, end, n);
  }

  lemma SpacesEnd(s: string, start: nat, i: nat, spaces: string, sign: string, digits: string, end: nat)
    requires start <= i <= end < |s| && i == start + |spaces| && s[..end][start..i] == spaces
    requires digits != [] && forall k | 0 <= k < |digits| :: IsDigit(digits[k])
    requires s[..end][i..] == sign + digits && (sign == "" || sign == "+" || sign == "-")
    requires forall k | 0 <= k < |spaces| :: IsSpace(spaces[k])
    ensures SkipSpace(s, start) == i
  {
    hide SkipSpace;
    assert forall k | start <= k < i :: s[k] == s[..end][start..i][k - start];
    assert s[i] == s[..end][i..][0] == (sign + digits)[0];
    SkipsSpaces(s, start, i);
  }

  lemma DigitsEnd(s: string, first: nat, digits: string, end: nat)
    requires first <= end < |s| && s[..end][first..] == digits && !IsDigit(s[end])
    requires forall k | 0 <= k < |digits| :: IsDigit(digits[k])
    ensures SkipDigits(s, first) == end && s[first..end] == digits
  {
    hide SkipDigits;
    assert s[first..end] == s[..end][first..];
    assert forall k | first <= k < end :: s[k] == digits[k - first];
    SkipsAll(s, first, end);
  }

  lemma StrtolFound(s: string, start: nat, i: nat, sign: string, first: nat, end: nat, n: nat)
    requires SkipSpace(s, start) == i && i < |s| && first == i + |sign| && first < end <= |s|
    requires if sign == "" then s[i] != '-' && s[i] != '+' else (sign == "-" || sign == "+") && s[i] == sign[0]
    requires SkipDigits(s, first) == end && Value(s[first..end]) == n
    ensures var value: int := n; Strtol(s, start) == (Clamp(if sign == "-" then -value else value), end)
  {
    hide SkipSpace, SkipDigits, Value;
  }

  /** Text without a number, but perhaps with space or a sign, reads as zero and is not passed. */
  lemma StrtolWithoutDigits(s: string, start: nat)
    requires var i := SkipSpace(s, start);
             !IsDigit(Peek(s, if Peek(s, i) == '-' || Peek(s, i) == '+' then i + 1 else i))
    ensures Strtol(s, start) == (0, start)
  {
  }

  /** Whatever text an area was read from, writing it and reading it again changes nothing. */
  lemma ParseIsStable(str: Option<string>)
    ensures Parse(str).Some? ==> Parse(Some(Print(Parse(str).value))) == Parse(str)
  {
    if Parse(str).Some? {
      ParseOfPrint(Parse(str).value);
    }
  }

  // ------------------------------------------------------------------------------- its place

  /** Division as C does it. */
  function Quotient(a: int, b: int): int
    requires b > 0
  {
    if a >= 0 then a / b else -(-a / b)
  }

  /** getX and getY: the middle between two edges, on a scale of size steps. */
  function Middle(lo: int, hi: int, size: int): int {
    Quotient((Quotient(lo + hi, 2) + 1000) * size, 2000)
  }

  /** Where an edge is on that scale. */
  function Edge(e: int, size: int): int {
    Quotient((e + 1000) * size, 2000)
  }

  predicate OnScale(e: int) {
    -1000 <= e <= 1000
  }

  lemma EdgeGrows(a: int, b: int, size: nat)
    requires -1000 <= a <= b
    ensures 0 <= Edge(a, size) <= Edge(b, size)
  {
    assert (b + 1000) * size == (a + 1000) * size + (b - a) * size;
    assert (b - a) * size >= 0 && (a + 1000) * size >= 0;
  }

  lemma MeanLiesBetween(lo: int, hi: int)
    requires OnScale(lo) && OnScale(hi)
    ensures var m := Quotient(lo + hi, 2); OnScale(m) && (lo <= hi ==> lo <= m <= hi)
  {
  }

  lemma ScaleEnds(size: nat)
    ensures Edge(-1000, size) == 0 && Edge(1000, size) == size
  {
  }

  lemma ProductFits(m: int, size: nat)
    requires OnScale(m) && size <= 1073741
    ensures IsInt((m + 1000) * size)
  {
    var n: nat, rest: nat := m + 1000, 1000 - m;
    assert n * size + rest * size == (n + rest) * size == 2000 * size;
    assert 0 <= n * size && 0 <= rest * size;
  }

  /** The quotient is rounded towards zero. */
  lemma QuotientTruncates(a: int, b: int)
    requires b > 0
    ensures var r := a - Quotient(a, b) * b;
      -b < r < b && (a >= 0 ==> r >= 0) && (a <= 0 ==> r <= 0)
  {
    if a < 0 {
      assert -a == (-a / b) * b + -a % b;
      assert -(-a / b) * b == -((-a / b) * b);
    }
  }

  /** x is the mean of the two edges on a scale of size steps, in units of 1/4000 of it: off by less than one
      step, and by no more than half a unit of the edges' own scale. */
  predicate IsMiddle(lo: int, hi: int, size: int, x: int) {
    -size - 4000 < 4000 * x - (lo + hi + 2000) * size <= size
  }

  lemma TwiceTheMean(m: int, odd: int, size: nat)
    requires OnScale(m) && (odd == -1 || odd == 0 || odd == 1)
    ensures (m + 1000) * size >= 0
    ensures (2 * m + odd + 2000) * size - 2 * ((m + 1000) * size)
            == if odd == 0 then 0 else if odd == 1 then size else 0 - size
  {
    var p := (m + 1000) * size;
    assert (2 * m + odd + 2000) * size == 2 * p + odd * size;
  }

  lemma ScaledDown(p: int)
    requires p >= 0
    ensures 0 <= p - 2000 * Quotient(p, 2000) < 2000
  {
  }

  /** The middle is the mean of the two edges, and the same whichever comes first; it is the exact mean rounded
      down when the edges have a whole one. */
  lemma MiddleIsMean(lo: int, hi: int, size: nat)
    requires OnScale(lo) && OnScale(hi)
    ensures Middle(lo, hi, size) == Middle(hi, lo, size)
    ensures IsMiddle(lo, hi, size, Middle(lo, hi, size))
    ensures (lo + hi) % 2 == 0 ==> 0 <= (lo + hi + 2000) * size - 4000 * Middle(lo, hi, size) < 4000
  {
    var m := Quotient(lo + hi, 2);
    var odd := lo + hi - m * 2;
    QuotientTruncates(lo + hi, 2);
    MeanLiesBetween(lo, hi);
    assert odd == -1 || odd == 0 || odd == 1;
    TwiceTheMean(m, odd, size);
    ScaledDown((m + 1000) * size);
    assert lo + hi + 2000 == 2 * m + odd + 2000;
  }

  /** For edges on the scale, in order, the middle lies between them and inside the picture. (The product
      stays within 32 bits for sizes up to 1073741.) */
  lemma MiddleLiesBetween(lo: int, hi: int, size: nat)
    requires OnScale(lo) && OnScale(hi)
    ensures 0 <= Middle(lo, hi, size) <= size
    ensures lo <= hi ==> Edge(lo, size) <= Middle(lo, hi, size) <= Edge(hi, size)
    ensures size <= 1073741 ==> IsInt((Quotient(lo + hi, 2) + 1000) * size)
  {
    var m := Quotient(lo + hi, 2);
    assert Middle(lo, hi, size) == Edge(m, size);
    MeanLiesBetween(lo, hi);
    hide Quotient, Edge, Middle;
    ScaleEnds(size);
    EdgeGrows(-1000, m, size);
    EdgeGrows(m, 1000, size);
    if lo <= hi {
      EdgeGrows(lo, m, size);
      EdgeGrows(m, hi, size);
    }
    if size <= 1073741 {
      ProductFits(m, size);
    }
  }

  /** Moving an edge up never moves the middle down. */
  lemma MiddleGrows(lo: int, hi: int, lo': int, hi': int, size: nat)
    requires OnScale(lo) && OnScale(hi) && OnScale(lo') && OnScale(hi') && lo <= lo' && hi <= hi'
    ensures Middle(lo, hi, size) <= Middle(lo', hi', size)
  {
    EdgeGrows(Quotient(lo + hi, 2), Quotient(lo' + hi', 2), size);
  }

  lemma ToTextParses(a: Area)
    ensures Ints(a) ==> Parse(Some(Print(a))) == Some(a)
  {
    if Ints(a) {
      ParseOfPrint(a);
    }
  }

  lemma EdgesLie(lo: int, hi: int, size: int)
    ensures OnScale(lo) && OnScale(hi) && lo <= hi && size >= 0 ==>
      0 <= Edge(lo, size) <= Middle(lo, hi, size) <= Edge(hi, size) <= size
    ensures OnScale(lo) && OnScale(hi) && size >= 0 ==> IsMiddle(lo, hi, size, Middle(lo, hi, size))
  {
    hide Middle, Edge, IsMiddle;
    if OnScale(lo) && OnScale(hi) && size >= 0 {
      MiddleIsMean(lo, hi, size);
    }
    if OnScale(lo) && OnScale(hi) && lo <= hi && size >= 0 {
      MiddleLiesBetween(lo, hi, size);
      ScaleEnds(size);
      EdgeGrows(-1000, lo, size);
      EdgeGrows(hi, 1000, size);
    }
  }

  // ----------------------------------------------------------------------------------- the object

  class SecCameraArea {
    var left: int
    var top: int
    var right: int
    var bottom: int
    var weight: int

    constructor (left: int, top: int, right: int, bottom: int, weight: int)
      ensures Model() == Area(left, top, right, bottom, weight)
    {
      this.left, this.top, this.right, this.bottom, this.weight := left, top, right, bottom, weight;
    }

    function Model(): Area
      reads this
    {
      Area(left, top, right, bottom, weight)
    }

    /** memory is what the fields hold before; text that is no area at all leaves it there. */
    constructor FromText(str: Option<string>, memory: Area)
      ensures Model() == match Parse(str) case Some(a) => a case None => memory
      ensures Parse(str) == Some(ZERO) ==> IsDummy()
    {
      left, top, right, bottom, weight := memory.left, memory.top, memory.right, memory.bottom, memory.weight;
      new;
      if str.Some? && Peek(str.value, 0) == '(' {
        var good := ReadFields(str.value);
        if !good {
          left, top, right, bottom, weight := 0, 0, 0, 0, 0;
        }
      }
    }

    /** The fields one after the other, up to the first that is not followed by its separator. */
    method ReadFields(s: string) returns (good: bool)
      requires Peek(s, 0) == '('
      modifies this
      ensures Parse(Some(s)) == Some(if good then Model() else ZERO)
    {
      hide Strtol, Peek;
      var end: nat;
      var r := Strtol(s, 1);
      left, end := r.0, r.1;
      if Peek(s, end) != ',' {
        return false;
      }
      r := Strtol(s, end + 1);
      top, end := r.0, r.1;
      if Peek(s, end) != ',' {
        return false;
      }
      r := Strtol(s, end + 1);
      right, end := r.0, r.1;
      if Peek(s, end) != ',' {
        return false;
      }
      r := Strtol(s, end + 1);
      bottom, end := r.0, r.1;
      if Peek(s, end) != ',' {
        return false;
      }
      r := Strtol(s, end + 1);
      weight, end := r.0, r.1;
      good := Peek(s, end) == ')';
    }

    /** Text that FromText turns back into this area, whatever memory it finds. */
    function ToText(): (text: string)
      reads this
      ensures Ints(Model()) ==> Parse(Some(text)) == Some(Model())
    {
      ToTextParses(Model());
      Print(Model())
    }

    function GetX(width: int): (x: int)
      reads this
      ensures OnScale(left) && OnScale(right) && left <= right && width >= 0 ==>
        0 <= Edge(left, width) <= x <= Edge(right, width) <= width
      ensures OnScale(left) && OnScale(right) && width >= 0 ==> IsMiddle(left, right, width, x)
    {
      EdgesLie(left, right, width);
      Middle(left, right, width)
    }

    function GetY(height: int): (y: int)
      reads this
      ensures OnScale(top) && OnScale(bottom) && top <= bottom && height >= 0 ==>
        0 <= Edge(top, height) <= y <= Edge(bottom, height) <= height
      ensures OnScale(top) && OnScale(bottom) && height >= 0 ==> IsMiddle(top, bottom, height, y)
    {
      EdgesLie(top, bottom, height);
      Middle(top, bottom, height)
    }

    /** No area, whatever its weight. */
    predicate IsDummy(): (dummy: bool)
      reads this
      ensures dummy <==> Model() == ZERO.(weight := weight)
    {
      left == 0 && top == 0 && right == 0 && bottom == 0
    }
  }
}
