/** The few JavaScript string operations the chat relies on:
    `String.prototype.trim`, `String.prototype.includes` and `String(n)` for
    an integer `n` below 10^21 in magnitude. Strings are sequences of
    Unicode scalar values; the UTF-16 surrogate encoding JavaScript uses
    does not matter here, because no white-space character lies outside the
    Basic Multilingual Plane. */
module JsString {

  /** The characters `trim` removes: ECMAScript's WhiteSpace (tab, vertical
      tab, form feed, space, no-break space, the byte-order mark and every
      other "Zs" space separator) and its LineTerminator characters. */
  predicate IsWhiteSpace(c: char) {
    var n := c as int;
    n == 0x09 || n == 0x0A || n == 0x0B || n == 0x0C || n == 0x0D ||
    n == 0x20 || n == 0xA0 || n == 0x1680 || (0x2000 <= n <= 0x200A) ||
    n == 0x2028 || n == 0x2029 || n == 0x202F || n == 0x205F ||
    n == 0x3000 || n == 0xFEFF
  }

  predicate AllWhiteSpace(s: string) {
    forall i :: 0 <= i < |s| ==> IsWhiteSpace(s[i])
  }

  /** Drops the leading white space. */
  function TrimStart(s: string): string {
    if s != "" && IsWhiteSpace(s[0]) then TrimStart(s[1..]) else s
  }

  /** Drops the trailing white space. */
  function TrimEnd(s: string): string {
    if s != "" && IsWhiteSpace(s[|s| - 1]) then TrimEnd(s[..|s| - 1]) else s
  }

  /** `String.prototype.trim`. */
  function Trim(s: string): string {
    TrimEnd(TrimStart(s))
  }

  /** `TrimStart` keeps a suffix, drops only white space and stops at the
      first other character. */
  lemma {:induction false} TrimStartSpec(s: string)
    ensures var r := TrimStart(s);
      |r| <= |s| && r == s[|s| - |r|..] && AllWhiteSpace(s[..|s| - |r|]) &&
      (r != "" ==> !IsWhiteSpace(r[0]))
  {
    if s != "" && IsWhiteSpace(s[0]) {
      TrimStartSpec(s[1..]);
      var r := TrimStart(s);
      assert s[..|s| - |r|] == [s[0]] + s[1..][..|s| - 1 - |r|];
    }
  }

  /** `TrimEnd` keeps a prefix, drops only white space and stops at the
      last other character. */
  lemma {:induction false} TrimEndSpec(s: string)
    ensures var r := TrimEnd(s);
      |r| <= |s| && r == s[..|r|] && AllWhiteSpace(s[|r|..]) &&
      (r != "" ==> !IsWhiteSpace(r[|r| - 1]))
  {
    if s != "" && IsWhiteSpace(s[|s| - 1]) {
      var t := s[..|s| - 1];
      TrimEndSpec(t);
      var r := TrimEnd(s);
      assert s[|r|..] == t[|r|..] + [s[|s| - 1]];
    }
  }

  /** `trim` leaves no white space at either end of its result. */
  lemma TrimHasNoOuterSpace(s: string)
    ensures Trim(s) != "" ==> !IsWhiteSpace(Trim(s)[0]) && !IsWhiteSpace(Trim(s)[|Trim(s)| - 1])
  {
    var t := TrimStart(s);
    TrimStartSpec(s);
    TrimEndSpec(t);
    if Trim(s) != "" {
      assert Trim(s)[0] == t[0];
    }
  }

  /** `trim` yields the empty string exactly when the input is all white
      space. */
  lemma TrimEmptyIff(s: string)
    ensures Trim(s) == "" <==> AllWhiteSpace(s)
  {
    var t := TrimStart(s);
    var a := |s| - |t|;
    TrimStartSpec(s);
    TrimEndSpec(t);
    if Trim(s) == "" {
      assert AllWhiteSpace(t[0..]);
      assert t == "";
      assert s[..a] == s;
    } else {
      TrimHasNoOuterSpace(s);
      assert Trim(s)[0] == t[0] == s[a];
    }
  }

  /** A string with no white space at either end is its own trim. */
  lemma TrimNoOuterSpace(s: string)
    requires s != "" && !IsWhiteSpace(s[0]) && !IsWhiteSpace(s[|s| - 1])
    ensures Trim(s) == s
  {
    assert TrimStart(s) == s;
  }

  /** Trimming twice is trimming once. */
  lemma TrimIdempotent(s: string)
    ensures Trim(Trim(s)) == Trim(s)
  {
    TrimHasNoOuterSpace(s);
    if Trim(s) != "" {
      TrimNoOuterSpace(Trim(s));
    }
  }

  /** `String.prototype.includes`: `part` occurs in `s` at some offset. */
  predicate Contains(s: string, part: string) {
    part <= s || (s != "" && Contains(s[1..], part))
  }

  /** A string none of whose characters is the first character of `part`
      does not contain `part`. */
  lemma {:induction false} OmitsFirstChar(s: string, part: string)
    requires part != ""
    requires forall i :: 0 <= i < |s| ==> s[i] != part[0]
    ensures !Contains(s, part)
  {
    if s != "" {
      assert s[0] != part[0];
      OmitsFirstChar(s[1..], part);
    }
  }

  /** The decimal digits of a natural number, most significant first. */
  function Digits(n: nat): (r: string)
    ensures r != []
    ensures forall i :: 0 <= i < |r| ==> '0' <= r[i] <= '9'
  {
    var last := ['0' + ((n % 10) as char)];
    if n < 10 then last else Digits(n / 10) + last
  }

  /** `String(n)` for an integer `n` with |n| < 10^21; JavaScript writes
      larger magnitudes in exponent form ("1e+21"), which this does not
      model. */
  function NumberToString(n: int): (r: string)
    ensures forall i :: 0 <= i < |r| ==> r[i] == '-' || '0' <= r[i] <= '9'
  {
    if n < 0 then "-" + Digits(-n) else Digits(n)
  }

  /** No string starting with a character other than a digit or a minus sign
      occurs in the decimal form of a number. */
  lemma NumberOmits(n: int, part: string)
    requires part != "" && part[0] != '-' && !('0' <= part[0] <= '9')
    ensures !Contains(NumberToString(n), part)
  {
    OmitsFirstChar(NumberToString(n), part);
  }
}
