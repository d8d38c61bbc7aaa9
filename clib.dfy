/**
  The parts of the C library that the listener relies on, over
  `seq<char>`: `isspace` in the "C" locale, `strtol` with base 10,
  "%d" formatting of a non-negative number, and the NUL-terminated
  view of a buffer that `%s` and `strtol` read.
 */
module CLib {

  /** `isspace` in the "C" locale. */
  predicate IsSpace(c: char) {
    c == ' ' || c == '\t' || c == '\n' || c == '\U{B}' || c == '\U{C}' || c == '\r'
  }

  predicate IsDigit(c: char) {
    '0' <= c <= '9'
  }

  function DigitValue(c: char): (d: nat)
    requires IsDigit(c)
    ensures d < 10
  {
    (c as int) - ('0' as int)
  }

  function DigitChar(d: nat): (c: char)
    requires d < 10
    ensures IsDigit(c) && DigitValue(c) == d
  {
    (('0' as int) + d) as char
  }

  predicate AllDigits(s: seq<char>) {
    forall i | 0 <= i < |s| :: IsDigit(s[i])
  }

  /** A non-empty run of decimal digits. */
  predicate IsDigits(s: seq<char>) {
    |s| > 0 && AllDigits(s)
  }

  /** The value of a string of decimal digits, most significant first. */
  function DigitsValue(s: seq<char>): nat
    requires AllDigits(s)
  {
    if s == [] then 0 else 10 * DigitsValue(s[..|s| - 1]) + DigitValue(s[|s| - 1])
  }

  /** What `printf("%d", n)` writes for a non-negative `n`. */
  function Decimal(n: nat): (s: string)
    ensures IsDigits(s) && DigitsValue(s) == n
    ensures s[0] == '0' ==> n == 0 && |s| == 1
  {
    if n < 10 then [DigitChar(n)]
    else
      var prefix := Decimal(n / 10);
      var s := prefix + [DigitChar(n % 10)];
      assert s[..|s| - 1] == prefix;
      s
  }

  /** The C string a buffer holds: its characters up to the first NUL. */
  function CStr(s: seq<char>): (r: seq<char>)
    ensures |r| <= |s| && r == s[..|r|]
    ensures forall i | 0 <= i < |r| :: r[i] != '\0'
    ensures |r| < |s| ==> s[|r|] == '\0'
  {
    if s == [] || s[0] == '\0' then [] else [s[0]] + CStr(s[1..])
  }

  /** The number of leading white-space characters. */
  function SpaceRun(s: seq<char>): (k: nat)
    ensures k <= |s|
    ensures forall i | 0 <= i < k :: IsSpace(s[i])
    ensures k < |s| ==> !IsSpace(s[k])
  {
    if s != [] && IsSpace(s[0]) then 1 + SpaceRun(s[1..]) else 0
  }

  /** The number of leading decimal digits. */
  function DigitRun(s: seq<char>): (k: nat)
    ensures k <= |s|
    ensures AllDigits(s[..k])
    ensures k < |s| ==> !IsDigit(s[k])
  {
    if s != [] && IsDigit(s[0]) then
      var k := 1 + DigitRun(s[1..]);
      assert s[..k] == [s[0]] + s[1..][..k - 1];
      k
    else 0
  }

  /** What `strtol(s, &endp, 10)` yields: the value, unbounded, and the
      offset of `endp` in `s`. */
  datatype Scan = Scan(value: int, end: nat)

  /** `strtol` with base 10: white space, an optional sign, then the
      longest run of digits; with no digits the value is 0 and `endp`
      is the start of the string. */
  function Strtol(s: seq<char>): (r: Scan)
    ensures r.end <= |s|
  {
    var w := SpaceRun(s);
    var k := if w < |s| && (s[w] == '+' || s[w] == '-') then 1 else 0;
    var t := s[w + k..];
    var d := DigitRun(t);
    if d == 0 then Scan(0, 0)
    else
      var m: int := DigitsValue(t[..d]);
      Scan(if k == 1 && s[w] == '-' then -m else m, w + k + d)
  }

  /** The syntax a whole string must have for `strtol` to consume all of
      it: white space, an optional sign, and at least one digit. */
  predicate IsNumeral(s: seq<char>) {
    if s == [] then false
    else if IsSpace(s[0]) then IsNumeral(s[1..])
    else if s[0] == '+' || s[0] == '-' then IsDigits(s[1..])
    else IsDigits(s)
  }

  /** The value a numeral denotes. */
  function NumeralValue(s: seq<char>): int
    requires IsNumeral(s)
  {
    if IsSpace(s[0]) then NumeralValue(s[1..])
    else if s[0] == '-' then -(DigitsValue(s[1..]) as int)
    else if s[0] == '+' then DigitsValue(s[1..])
    else DigitsValue(s)
  }

  /** Appending a digit multiplies the value by ten and adds the digit. */
  lemma DigitsValueSnoc(s: seq<char>, c: char)
    requires AllDigits(s) && IsDigit(c)
    ensures AllDigits(s + [c]) && DigitsValue(s + [c]) == 10 * DigitsValue(s) + DigitValue(c)
  {
    assert (s + [c])[..|s|] == s;
  }

  lemma DigitRunAll(t: seq<char>)
    ensures DigitRun(t) == |t| <==> AllDigits(t)
  {
    if DigitRun(t) == |t| {
      assert t[..|t|] == t;
    }
  }

  /** Skipping one leading white-space character shifts `endp` by one
      and leaves the value alone. */
  lemma StrtolSkipSpace(s: seq<char>)
    requires s != [] && IsSpace(s[0])
    ensures Strtol(s[1..]).end == 0 ==> Strtol(s).end == 0
    ensures Strtol(s[1..]).end > 0 ==>
              Strtol(s) == Scan(Strtol(s[1..]).value, Strtol(s[1..]).end + 1)
  {
    var u := s[1..];
    var w := SpaceRun(u);
    assert SpaceRun(s) == w + 1;
    if w < |u| {
      assert s[w + 1] == u[w];
    }
    var k := if w < |u| && (u[w] == '+' || u[w] == '-') then 1 else 0;
    assert s[w + 1 + k..] == u[w + k..];
  }

  /** `strtol` consumes the whole of a non-empty string exactly when the
      string is a numeral, and then its value is the numeral's. */
  lemma {:induction false} StrtolWhole(s: seq<char>)
    ensures (s != [] && Strtol(s).end == |s|) <==> IsNumeral(s)
    ensures IsNumeral(s) ==> Strtol(s).value == NumeralValue(s)
  {
    if s == [] {
    } else if IsSpace(s[0]) {
      StrtolWhole(s[1..]);
      StrtolSkipSpace(s);
    } else {
      assert SpaceRun(s) == 0;
      var k := if s[0] == '+' || s[0] == '-' then 1 else 0;
      var t := s[k..];
      DigitRunAll(t);
      if IsNumeral(s) {
        assert t[..DigitRun(t)] == t;
      }
    }
  }

  /** Reading back what "%d" printed gives the number again. */
  lemma StrtolDecimal(n: nat)
    ensures IsNumeral(Decimal(n)) && NumeralValue(Decimal(n)) == n
    ensures Strtol(Decimal(n)) == Scan(n, |Decimal(n)|)
  {
    var s := Decimal(n);
    assert !IsSpace(s[0]) && s[0] != '+' && s[0] != '-';
    StrtolWhole(s);
  }

  /** A numeral followed by a character that is not a digit is not a
      numeral. */
  lemma {:induction false} NumeralThenNonDigit(a: seq<char>, x: char, b: seq<char>)
    requires IsNumeral(a) && !IsDigit(x)
    ensures !IsNumeral(a + [x] + b)
  {
    var s := a + [x] + b;
    assert s[0] == a[0];
    if IsSpace(a[0]) {
      assert s[1..] == a[1..] + [x] + b;
      NumeralThenNonDigit(a[1..], x, b);
    } else {
      assert s[|a|] == x;
    }
  }

  /** Appending to a buffer with no NUL in it appends to its C string. */
  lemma {:induction false} CStrAppend(a: seq<char>, b: seq<char>)
    requires forall i | 0 <= i < |a| :: a[i] != '\0'
    ensures CStr(a + b) == a + CStr(b)
  {
    if a != [] {
      var t := a + b;
      assert t[0] == a[0] && t[1..] == a[1..] + b;
      assert CStr(t) == [a[0]] + CStr(a[1..] + b);
      CStrAppend(a[1..], b);
      assert [a[0]] + (a[1..] + CStr(b)) == a + CStr(b);
    } else {
      assert a + b == b;
    }
  }

  /** A buffer with no NUL in it is its own C string. */
  lemma CStrWhole(s: seq<char>)
    requires forall i | 0 <= i < |s| :: s[i] != '\0'
    ensures CStr(s) == s
  {
    CStrAppend(s, []);
    assert s + [] == s;
  }

  /** A numeral holds no NUL and at least one digit. */
  lemma {:induction false} NumeralChars(s: seq<char>)
    requires IsNumeral(s)
    ensures forall i | 0 <= i < |s| :: s[i] != '\0'
    ensures exists i | 0 <= i < |s| :: IsDigit(s[i])
  {
    if IsSpace(s[0]) {
      NumeralChars(s[1..]);
      var j :| 0 <= j < |s[1..]| && IsDigit(s[1..][j]);
      assert IsDigit(s[j + 1]);
    } else if s[0] == '+' || s[0] == '-' {
      assert IsDigit(s[1]);
    } else {
      assert IsDigit(s[0]);
    }
  }
}
