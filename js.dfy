/**
 * The JavaScript built-ins that the quiz, the validator page and the
 * element builder rely on, stated over Dafny strings: optional values,
 * string truthiness, `startsWith`, `split` on a one-character separator,
 * `parseInt` without a radix, `Number.prototype.toString` on naturals and
 * the relational comparison of two strings.
 */
module JsString {

  /** `undefined`/`null` versus a present value. */
  datatype Option<+T> = None | Some(value: T) {
    function GetOr(default: T): T {
      match this
      case Some(v) => v
      case None => default
    }
  }

  /** `if (s)` on a string that may be missing: `null`, `undefined` and "" are falsy. */
  predicate Truthy(s: Option<string>) {
    s.Some? && s.value != ""
  }

  /** `s.startsWith(prefix)` */
  predicate StartsWith(s: string, prefix: string) {
    |prefix| <= |s| && s[..|prefix|] == prefix
  }

  /** No character of `w` is in `chars`. */
  predicate Avoids(w: string, chars: set<char>) {
    forall c :: c in w ==> c !in chars
  }

  /**
   * `s.split(sep)`: the pieces between separators, in order. Every
   * separator character ends one piece, so `"".split(".")` is `[""]` and
   * `"a..b".split(".")` is `["a", "", "b"]`.
   */
  function Split(s: string, seps: set<char>): (parts: seq<string>)
    ensures |parts| >= 1
    ensures forall i :: 0 <= i < |parts| ==> Avoids(parts[i], seps)
  {
    if s == [] then [""]
    else
      var rest := Split(s[1..], seps);
      if s[0] in seps then [""] + rest
      else [[s[0]] + rest[0]] + rest[1..]
  }

  /** `parts.join(sep)` */
  function Join(parts: seq<string>, sep: char): string {
    if |parts| == 0 then ""
    else if |parts| == 1 then parts[0]
    else parts[0] + [sep] + Join(parts[1..], sep)
  }

  /** Joining the pieces of a split with the separator gives back the string. */
  lemma {:induction false} JoinSplit(s: string, sep: char)
    ensures Join(Split(s, {sep}), sep) == s
  {
    if s != [] {
      var rest := Split(s[1..], {sep});
      JoinSplit(s[1..], sep);
      if s[0] == sep {
        assert Split(s, {sep}) == [""] + rest;
        assert Join([""] + rest, sep) == "" + [sep] + Join(rest, sep);
      } else if |rest| == 1 {
        assert Split(s, {sep}) == [[s[0]] + rest[0]];
      } else {
        assert Split(s, {sep}) == [[s[0]] + rest[0]] + rest[1..];
        assert Join(rest, sep) == rest[0] + [sep] + Join(rest[1..], sep);
        assert ([[s[0]] + rest[0]] + rest[1..])[1..] == rest[1..];
      }
    }
  }

  /** Splitting a piece free of separators followed by more text. */
  lemma {:induction false} SplitAfterPiece(w: string, t: string, seps: set<char>)
    requires Avoids(w, seps)
    ensures Split(w + t, seps) == [w + Split(t, seps)[0]] + Split(t, seps)[1..]
  {
    if w == [] {
      assert w + t == t;
      var p := Split(t, seps);
      assert w + p[0] == p[0];
      assert p == [p[0]] + p[1..];
    } else {
      assert (w + t)[1..] == w[1..] + t;
      assert w[0] in w;
      SplitAfterPiece(w[1..], t, seps);
      assert [w[0]] + (w[1..] + Split(t, seps)[0]) == w + Split(t, seps)[0];
    }
  }

  /**
   * Splitting the join of separator-free pieces gives back the pieces:
   * with `JoinSplit`, `split` is a bijection between strings and non-empty
   * lists of separator-free pieces.
   */
  lemma {:induction false} SplitJoin(parts: seq<string>, sep: char)
    requires |parts| >= 1
    requires forall i :: 0 <= i < |parts| ==> Avoids(parts[i], {sep})
    ensures Split(Join(parts, sep), {sep}) == parts
  {
    if |parts| == 1 {
      SplitAfterPiece(parts[0], "", {sep});
      assert parts[0] + "" == parts[0];
    } else {
      SplitJoin(parts[1..], sep);
      var t := [sep] + Join(parts[1..], sep);
      assert Join(parts, sep) == parts[0] + t;
      SplitAfterPiece(parts[0], t, {sep});
      assert t[1..] == Join(parts[1..], sep);
      assert Split(t, {sep}) == [""] + parts[1..];
      assert parts[0] + "" == parts[0];
      assert parts == [parts[0]] + parts[1..];
    }
  }

  // ---------------------------------------------------------------------
  // parseInt and toString

  /** The numbers `parseInt` can produce: NaN or an integer. */
  datatype Number = NaN | Int(value: int) {
    /** `n - k` with NaN absorbing. */
    function Minus(k: int): Number {
      match this
      case NaN => NaN
      case Int(v) => Int(v - k)
    }
  }

  /** The characters `parseInt` skips before the number: WhiteSpace and LineTerminator. */
  predicate IsWhiteSpace(c: char) {
    var n := c as int;
    n == 0x09 || n == 0x0A || n == 0x0B || n == 0x0C || n == 0x0D || n == 0x20
    || n == 0xA0 || n == 0x1680 || (0x2000 <= n <= 0x200A) || n == 0x2028
    || n == 0x2029 || n == 0x202F || n == 0x205F || n == 0x3000 || n == 0xFEFF
  }

  /** The string without its leading white space. */
  function TrimStart(s: string): (t: string)
    ensures |t| <= |s| && t == s[|s| - |t|..]
    ensures t != [] ==> !IsWhiteSpace(t[0])
    ensures forall i :: 0 <= i < |s| - |t| ==> IsWhiteSpace(s[i])
  {
    if s != [] && IsWhiteSpace(s[0]) then TrimStart(s[1..]) else s
  }

  /** The value of a digit in radix up to 36; 36 for a character that is no digit. */
  function DigitValue(c: char): (d: nat)
    ensures d <= 36
  {
    if '0' <= c <= '9' then (c as int - '0' as int)
    else if 'a' <= c <= 'z' then (c as int - 'a' as int) + 10
    else if 'A' <= c <= 'Z' then (c as int - 'A' as int) + 10
    else 36
  }

  /** The longest prefix of `s` made of digits of the radix. */
  function DigitPrefix(s: string, radix: nat): (ds: string)
    ensures |ds| <= |s| && ds == s[..|ds|]
    ensures forall i :: 0 <= i < |ds| ==> DigitValue(ds[i]) < radix
    ensures |ds| < |s| ==> DigitValue(s[|ds|]) >= radix
  {
    if s != [] && DigitValue(s[0]) < radix then [s[0]] + DigitPrefix(s[1..], radix) else []
  }

  /** The integer a digit string denotes in the radix. */
  function DigitsValue(ds: string, radix: nat): int {
    if ds == [] then 0
    else DigitsValue(ds[..|ds| - 1], radix) * radix + DigitValue(ds[|ds| - 1])
  }

  /**
   * `parseInt(s)` with no radix: white space is skipped, one sign is
   * read, a "0x"/"0X" prefix selects radix 16, and the longest run of
   * digits that follows is the number; NaN when there is none.
   */
  function ParseInt(s: string): (r: Number)
    ensures TrimStart(s) == [] ==> r == NaN
  {
    var t := TrimStart(s);
    var sign := if t != [] && t[0] == '-' then -1 else 1;
    var u := if t != [] && (t[0] == '-' || t[0] == '+') then t[1..] else t;
    var hex := |u| >= 2 && u[0] == '0' && (u[1] == 'x' || u[1] == 'X');
    var radix := if hex then 16 else 10;
    var digits := DigitPrefix(if hex then u[2..] else u, radix);
    if digits == [] then NaN else Int(sign * DigitsValue(digits, radix))
  }

  /** The decimal digit for `d`. */
  function DigitChar(d: nat): (c: char)
    requires d < 10
    ensures DigitValue(c) == d
  {
    ['0', '1', '2', '3', '4', '5', '6', '7', '8', '9'][d]
  }

  /** `n.toString()`: decimal digits, no sign, no leading zero. */
  function NatToString(n: nat): (s: string)
    ensures |s| >= 1
    ensures forall i :: 0 <= i < |s| ==> '0' <= s[i] <= '9'
    ensures s[0] == '0' <==> n == 0
    ensures n < 10 <==> |s| == 1
  {
    if n < 10 then [DigitChar(n)] else NatToString(n / 10) + [DigitChar(n % 10)]
  }

  lemma {:induction false} DigitPrefixOfDigits(s: string, radix: nat)
    requires forall i :: 0 <= i < |s| ==> DigitValue(s[i]) < radix
    ensures DigitPrefix(s, radix) == s
  {
    if s != [] {
      DigitPrefixOfDigits(s[1..], radix);
    }
  }

  lemma {:induction false} DigitsValueOfNatToString(n: nat)
    ensures DigitsValue(NatToString(n), 10) == n
  {
    var s := NatToString(n);
    if n < 10 {
      assert s[..0] == [];
    } else {
      DigitsValueOfNatToString(n / 10);
      assert s[..|s| - 1] == NatToString(n / 10);
    }
  }

  /** `parseInt` reads back exactly what `toString` wrote for a natural. */
  lemma ParseIntNatToString(n: nat)
    ensures ParseInt(NatToString(n)) == Int(n)
  {
    var s := NatToString(n);
    assert !IsWhiteSpace(s[0]);
    assert TrimStart(s) == s;
    assert '0' <= s[0] <= '9';
    assert |s| >= 2 ==> s[0] != '0';
    DigitPrefixOfDigits(s, 10);
    DigitsValueOfNatToString(n);
  }

  // ---------------------------------------------------------------------
  // String comparison

  /** `a < b` on strings: lexicographic by character, a proper prefix is smaller. */
  predicate Less(a: string, b: string) {
    if b == [] then false
    else if a == [] then true
    else if a[0] != b[0] then a[0] < b[0]
    else Less(a[1..], b[1..])
  }

  /**
   * String `<` is irreflexive, never holds both ways, and relates any two
   * distinct strings one way or the other; with `LessTransitive` it is a
   * strict total order.
   */
  lemma {:induction false} LessStrictTotal(a: string, b: string)
    ensures !Less(a, a)
    ensures !(Less(a, b) && Less(b, a))
    ensures a != b ==> Less(a, b) || Less(b, a)
  {
    if a != [] && b != [] && a[0] == b[0] {
      LessStrictTotal(a[1..], b[1..]);
      if a[1..] == b[1..] {
        assert a == [a[0]] + a[1..] && b == [b[0]] + b[1..];
      }
    }
    if a != [] {
      LessStrictTotal(a[1..], a[1..]);
    }
  }

  /** String `<` is transitive. */
  lemma {:induction false} LessTransitive(a: string, b: string, c: string)
    requires Less(a, b) && Less(b, c)
    ensures Less(a, c)
  {
    if a != [] && a[0] == b[0] && b[0] == c[0] {
      LessTransitive(a[1..], b[1..], c[1..]);
    }
  }

  /** `a <= b` on strings. */
  predicate LessOrEqual(a: string, b: string) {
    !Less(b, a)
  }
}
