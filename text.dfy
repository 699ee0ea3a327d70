/**
 * The JavaScript string and number built-ins that the portal's components
 * call: the regular-expression replaces, `split`, `trim`, `includes`,
 * `toLowerCase`, `parseInt`, `Number`, `String`, `padStart` and `slice`,
 * and the e-mail pattern `/^[^\s@]+@[^\s@]+\.[^\s@]+$/` used by two forms.
 */
module Text {

  datatype Option<T> = None | Some(value: T)

  /**
   * `x || fallback` for a string that may be missing: a missing or empty
   * string is falsy in JavaScript, so both give way to the fallback.
   */
  function OrElse(x: Option<string>, fallback: string): (r: string)
    ensures x.Some? && x.value != "" ==> r == x.value
    ensures (x.None? || x.value == "") ==> r == fallback
  {
    if x.Some? && x.value != "" then x.value else fallback
  }

  /** JavaScript's `\s`: the WhiteSpace and LineTerminator code points. */
  predicate IsSpace(c: char) {
    c == ' ' || c == '\t' || c == '\n' || c == '\r' || c == '\U{B}' || c == '\U{C}'
    || c == '\U{A0}' || c == '\U{1680}' || ('\U{2000}' <= c <= '\U{200A}')
    || c == '\U{2028}' || c == '\U{2029}' || c == '\U{202F}' || c == '\U{205F}'
    || c == '\U{3000}' || c == '\U{FEFF}'
  }

  predicate IsDigit(c: char) { '0' <= c <= '9' }

  predicate AllDigits(s: string) { forall i :: 0 <= i < |s| ==> IsDigit(s[i]) }

  predicate NoSpace(s: string) { forall i :: 0 <= i < |s| ==> !IsSpace(s[i]) }

  /** `s.replace(/\D/g, '')`: the decimal digits of `s`, in order. */
  function KeepDigits(s: string): (r: string)
    ensures AllDigits(r)
    ensures |r| <= |s|
  {
    if s == [] then [] else (if IsDigit(s[0]) then [s[0]] else []) + KeepDigits(s[1..])
  }

  /** Text made only of digits is left as it is. */
  lemma {:induction false} KeepDigitsOfDigits(s: string)
    requires AllDigits(s)
    ensures KeepDigits(s) == s
  {
    if s != [] {
      assert AllDigits(s[1..]) by {
        forall i | 0 <= i < |s[1..]| ensures IsDigit(s[1..][i]) {
          assert s[1..][i] == s[i + 1];
        }
      }
      KeepDigitsOfDigits(s[1..]);
    }
  }

  /** Filtering distributes over concatenation. */
  lemma {:induction false} KeepDigitsAppend(a: string, b: string)
    ensures KeepDigits(a + b) == KeepDigits(a) + KeepDigits(b)
  {
    if a == [] {
      assert a + b == b;
    } else {
      assert (a + b)[0] == a[0] && (a + b)[1..] == a[1..] + b;
      KeepDigitsAppend(a[1..], b);
    }
  }

  /** `s.replace(/\s/g, '')`: `s` without its whitespace, in order. */
  function RemoveSpaces(s: string): (r: string)
    ensures NoSpace(r)
    ensures |r| <= |s|
  {
    if s == [] then [] else (if IsSpace(s[0]) then [] else [s[0]]) + RemoveSpaces(s[1..])
  }

  /** Text without whitespace is left as it is. */
  lemma {:induction false} RemoveSpacesOfNoSpace(s: string)
    requires NoSpace(s)
    ensures RemoveSpaces(s) == s
  {
    if s != [] {
      assert !IsSpace(s[0]);
      assert NoSpace(s[1..]) by {
        forall i | 0 <= i < |s[1..]| ensures !IsSpace(s[1..][i]) {
          assert s[1..][i] == s[i + 1];
        }
      }
      RemoveSpacesOfNoSpace(s[1..]);
    }
  }

  /** Removing whitespace distributes over concatenation. */
  lemma {:induction false} RemoveSpacesAppend(a: string, b: string)
    ensures RemoveSpaces(a + b) == RemoveSpaces(a) + RemoveSpaces(b)
  {
    if a == [] {
      assert a + b == b;
    } else {
      assert (a + b)[0] == a[0] && (a + b)[1..] == a[1..] + b;
      RemoveSpacesAppend(a[1..], b);
    }
  }

  /** Digits are not whitespace. */
  lemma DigitsHaveNoSpace(s: string)
    requires AllDigits(s)
    ensures NoSpace(s)
  {
  }

  /** `toLowerCase` restricted to ASCII letters. */
  function LowerChar(c: char): char {
    if 'A' <= c <= 'Z' then (c as int - 'A' as int + 'a' as int) as char else c
  }

  function Lower(s: string): (r: string)
    ensures |r| == |s|
    ensures forall i :: 0 <= i < |r| ==> !('A' <= r[i] <= 'Z')
  {
    seq(|s|, i requires 0 <= i < |s| => LowerChar(s[i]))
  }

  /** Lower-casing twice is lower-casing once. */
  lemma LowerIdempotent(s: string)
    ensures Lower(Lower(s)) == Lower(s)
  {
  }

  /** `needle` occurs in `hay` at index `i`. */
  predicate OccursAt(hay: string, needle: string, i: int) {
    0 <= i <= |hay| - |needle| && hay[i..i + |needle|] == needle
  }

  /** `hay.includes(needle)`. */
  predicate Includes(hay: string, needle: string) {
    exists i | 0 <= i <= |hay| :: OccursAt(hay, needle, i)
  }

  /** Every string includes the empty string, which is why an empty search keeps everything. */
  lemma IncludesEmpty(hay: string)
    ensures Includes(hay, "")
  {
    assert OccursAt(hay, "", 0);
  }

  /** `trimStart` / `trimEnd` / `trim` over JavaScript whitespace. */
  function TrimStart(s: string): (r: string)
    ensures |r| <= |s| && r == s[|s| - |r|..]
    ensures r == [] || !IsSpace(r[0])
    ensures forall i :: 0 <= i < |s| - |r| ==> IsSpace(s[i])
  {
    if s != [] && IsSpace(s[0]) then TrimStart(s[1..]) else s
  }

  function TrimEnd(s: string): (r: string)
    ensures |r| <= |s| && r == s[..|r|]
    ensures r == [] || !IsSpace(r[|r| - 1])
    ensures forall i :: |r| <= i < |s| ==> IsSpace(s[i])
  {
    if s != [] && IsSpace(s[|s| - 1]) then TrimEnd(s[..|s| - 1]) else s
  }

  function Trim(s: string): (r: string)
    ensures r == [] || (!IsSpace(r[0]) && !IsSpace(r[|r| - 1]))
    ensures r == [] <==> forall i :: 0 <= i < |s| ==> IsSpace(s[i])
  {
    TrimEnd(TrimStart(s))
  }

  /** `s.split(sep)` for a one-character separator: never empty, and no part holds `sep`. */
  function Split(s: string, sep: char): (parts: seq<string>)
    ensures |parts| >= 1
    ensures forall k :: 0 <= k < |parts| ==> sep !in parts[k]
  {
    if s == [] then [""]
    else if s[0] == sep then [""] + Split(s[1..], sep)
    else
      var rest := Split(s[1..], sep);
      [[s[0]] + rest[0]] + rest[1..]
  }

  function Join(parts: seq<string>, sep: string): string {
    if parts == [] then "" else if |parts| == 1 then parts[0] else parts[0] + sep + Join(parts[1..], sep)
  }

  /** A string without the separator splits into itself alone. */
  lemma {:induction false} SplitNoSeparator(s: string, sep: char)
    requires sep !in s
    ensures Split(s, sep) == [s]
  {
    if s != [] {
      assert s[0] != sep;
      SplitNoSeparator(s[1..], sep);
      assert s == [s[0]] + s[1..];
    }
  }

  /** Splitting at a first separator: the text before it, then the split of the rest. */
  lemma {:induction false} SplitAtFirst(a: string, sep: char, b: string)
    requires sep !in a
    ensures Split(a + [sep] + b, sep) == [a] + Split(b, sep)
  {
    if a == [] {
      assert a + [sep] + b == [sep] + b;
    } else {
      var s := a + [sep] + b;
      assert s[0] == a[0] && a[0] != sep;
      assert s[1..] == a[1..] + [sep] + b;
      SplitAtFirst(a[1..], sep, b);
      assert a == [a[0]] + a[1..];
    }
  }

  /** Text made of three separator-free parts splits back into them. */
  lemma SplitThree(a: string, b: string, c: string, sep: char)
    requires sep !in a && sep !in b && sep !in c
    ensures Split(a + [sep] + b + [sep] + c, sep) == [a, b, c]
  {
    assert a + [sep] + b + [sep] + c == a + [sep] + (b + [sep] + c);
    SplitAtFirst(a, sep, b + [sep] + c);
    SplitAtFirst(b, sep, c);
    SplitNoSeparator(c, sep);
  }

  /**
   * Splitting a join of separator-free parts gives the parts back: the
   * lines of a joined text are exactly the lines that were joined.
   */
  lemma {:induction false} JoinSplit(parts: seq<string>, sep: char)
    requires |parts| >= 1
    requires forall k :: 0 <= k < |parts| ==> sep !in parts[k]
    ensures Split(Join(parts, [sep]), sep) == parts
  {
    if |parts| == 1 {
      SplitNoSeparator(parts[0], sep);
    } else {
      JoinSplit(parts[1..], sep);
      SplitAtFirst(parts[0], sep, Join(parts[1..], [sep]));
      assert parts == [parts[0]] + parts[1..];
    }
  }

  /** A character that no part and not the separator holds is not in the join. */
  lemma {:induction false} JoinAvoids(parts: seq<string>, sep: string, c: char)
    requires c !in sep
    requires forall k :: 0 <= k < |parts| ==> c !in parts[k]
    ensures c !in Join(parts, sep)
  {
    if |parts| > 1 {
      JoinAvoids(parts[1..], sep, c);
    }
  }

  /** Joining the parts of a split with its separator gives back the string. */
  lemma {:induction false} SplitJoin(s: string, sep: char)
    ensures Join(Split(s, sep), [sep]) == s
  {
    if s != [] {
      var rest := Split(s[1..], sep);
      SplitJoin(s[1..], sep);
      if s[0] != sep {
        var parts := Split(s, sep);
        assert parts[1..] == rest[1..];
        if |rest| == 1 {
          assert s == [s[0]] + rest[0];
        } else {
          assert Join(parts, [sep]) == [s[0]] + rest[0] + [sep] + Join(rest[1..], [sep]);
          assert s == [s[0]] + s[1..];
        }
      }
    }
  }

  /** The value of a decimal digit string. */
  function DecimalValue(s: string): (n: nat)
    requires AllDigits(s)
  {
    if s == [] then 0 else 10 * DecimalValue(s[..|s| - 1]) + (s[|s| - 1] as int - '0' as int)
  }

  function HexDigitValue(c: char): int {
    if '0' <= c <= '9' then c as int - '0' as int
    else if 'a' <= c <= 'f' then c as int - 'a' as int + 10
    else if 'A' <= c <= 'F' then c as int - 'A' as int + 10
    else -1
  }

  function HexValue(s: string): nat
    requires forall i :: 0 <= i < |s| ==> 0 <= HexDigitValue(s[i])
  {
    if s == [] then 0 else 16 * HexValue(s[..|s| - 1]) + HexDigitValue(s[|s| - 1])
  }

  /** The longest prefix of `s` whose characters satisfy `ok`. */
  function PrefixWhile(s: string, ok: char -> bool): (r: string)
    ensures |r| <= |s| && r == s[..|r|]
    ensures forall i :: 0 <= i < |r| ==> ok(r[i])
    ensures |r| == |s| || !ok(s[|r|])
  {
    if s == [] || !ok(s[0]) then [] else [s[0]] + PrefixWhile(s[1..], ok)
  }

  /** The signed value of a digit run, or NaN (None) when the run is empty. */
  function Signed(neg: bool, digits: string, hex: bool): Option<int>
    requires hex ==> forall i :: 0 <= i < |digits| ==> 0 <= HexDigitValue(digits[i])
    requires !hex ==> AllDigits(digits)
  {
    if digits == [] then None
    else
      var v: int := if hex then HexValue(digits) else DecimalValue(digits);
      Some(if neg then -v else v)
  }

  /** What `parseInt` reads after the sign: a hex run after `0x`/`0X`, else a decimal run. */
  function ParseUnsigned(neg: bool, u: string): (r: Option<int>)
    ensures AllDigits(u) && u != [] && !neg ==> r == Some(DecimalValue(u))
  {
    if |u| >= 2 && u[0] == '0' && (u[1] == 'x' || u[1] == 'X') then
      Signed(neg, PrefixWhile(u[2..], c => 0 <= HexDigitValue(c)), true)
    else
      var d := PrefixWhile(u, IsDigit);
      assert AllDigits(d);
      assert AllDigits(u) ==> d == u;
      Signed(neg, d, false)
  }

  /**
   * `parseInt(s)` with no radix: leading whitespace is skipped, one sign is
   * read, a `0x`/`0X` prefix selects base 16, and the longest run of digits
   * is read; no digit at all is NaN (None).
   */
  function ParseInt(s: string): (r: Option<int>)
    ensures AllDigits(s) && s != [] ==> r == Some(DecimalValue(s))
  {
    var t := TrimStart(s);
    if t != [] && (t[0] == '-' || t[0] == '+') then ParseUnsigned(t[0] == '-', t[1..])
    else
      assert AllDigits(s) && s != [] ==> !IsSpace(s[0]);
      ParseUnsigned(false, t)
  }

  /**
   * `Number(s)` for decimal integer text: the trimmed text is empty (0) or an
   * optional sign and a run of digits; anything else is NaN (None).
   */
  function ToNumber(s: string): (r: Option<int>)
    ensures Trim(s) == [] ==> r == Some(0)
    ensures AllDigits(s) && s != [] ==> r == Some(DecimalValue(s))
  {
    var t := Trim(s);
    if t == [] then Some(0)
    else
      var neg := t[0] == '-';
      var u := if t[0] == '-' || t[0] == '+' then t[1..] else t;
      if u != [] && AllDigits(u) then Signed(neg, u, false) else None
  }

  function DigitChar(d: int): char
    requires 0 <= d < 10
  {
    (d + '0' as int) as char
  }

  /** `String(n)` for a natural number: decimal, no leading zeros. */
  function NatToString(n: nat): (s: string)
    ensures AllDigits(s) && |s| >= 1
    ensures s[0] == '0' ==> n == 0
  {
    if n < 10 then [DigitChar(n)] else NatToString(n / 10) + [DigitChar(n % 10)]
  }

  function IntToString(i: int): (s: string)
    ensures s != []
  {
    if i < 0 then "-" + NatToString(-i) else NatToString(i)
  }

  /** Reading back a printed number gives the number. */
  lemma {:induction false} DecimalOfNatToString(n: nat)
    ensures DecimalValue(NatToString(n)) == n
  {
    if n >= 10 {
      DecimalOfNatToString(n / 10);
      var s := NatToString(n);
      assert s[..|s| - 1] == NatToString(n / 10);
    }
  }

  function Pow10(k: nat): (p: nat)
    ensures p >= 1
  {
    if k == 0 then 1 else 10 * Pow10(k - 1)
  }

  /** A positive multiple of `b` is at least `b`. */
  lemma {:induction false} MultipleAtLeast(k: int, b: int)
    requires k >= 1 && b > 0
    ensures k * b >= b
    decreases k
  {
    if k > 1 {
      MultipleAtLeast(k - 1, b);
      assert k * b == (k - 1) * b + b;
    }
  }

  /** A remainder is the unique `r` in `0..b-1` with `a == q * b + r`. */
  lemma RemainderUnique(a: int, b: int, q: int, r: int)
    requires b > 0 && 0 <= r < b && a == q * b + r
    ensures a % b == r
  {
    var q', r' := a / b, a % b;
    var k := q - q';
    assert k * b == q * b - q' * b;
    assert k * b == r' - r;
    if k >= 1 {
      MultipleAtLeast(k, b);
    } else if k <= -1 {
      MultipleAtLeast(-k, b);
    }
  }

  /** Appending a digit `d` to `x` and taking the remainder by `10 * m` appends `d` to `x % m`. */
  lemma AppendDigitRemainder(x: nat, d: nat, m: nat)
    requires m > 0 && d < 10
    ensures (10 * x + d) % (10 * m) == 10 * (x % m) + d
  {
    var q, r := x / m, x % m;
    assert x == q * m + r;
    assert 10 * x + d == q * (10 * m) + (10 * r + d);
    RemainderUnique(10 * x + d, 10 * m, q, 10 * r + d);
  }

  /** The last `k` digits of a decimal text are its value modulo `10^k`. */
  lemma {:induction false} DecimalSuffix(s: string, k: nat)
    requires AllDigits(s) && k <= |s|
    ensures AllDigits(s[|s| - k..]) && DecimalValue(s[|s| - k..]) == DecimalValue(s) % Pow10(k)
  {
    var u := s[|s| - k..];
    assert AllDigits(u) by {
      forall i | 0 <= i < |u| ensures IsDigit(u[i]) {
        assert u[i] == s[|s| - k + i];
      }
    }
    if k > 0 {
      var t := s[..|s| - 1];
      var d := s[|s| - 1] as int - '0' as int;
      assert AllDigits(t) by {
        forall i | 0 <= i < |t| ensures IsDigit(t[i]) {
          assert t[i] == s[i];
        }
      }
      DecimalSuffix(t, k - 1);
      assert u[..|u| - 1] == t[|t| - (k - 1)..];
      assert u[|u| - 1] == s[|s| - 1];
      assert DecimalValue(u) == 10 * DecimalValue(t[|t| - (k - 1)..]) + d;
      assert DecimalValue(s) == 10 * DecimalValue(t) + d;
      AppendDigitRemainder(DecimalValue(t), d, Pow10(k - 1));
    }
  }

  /** A decimal text of `k` digits is worth less than `10^k`. */
  lemma {:induction false} DecimalBelowPow10(s: string)
    requires AllDigits(s)
    ensures DecimalValue(s) < Pow10(|s|)
  {
    if s != [] {
      var t := s[..|s| - 1];
      assert AllDigits(t) by {
        forall i | 0 <= i < |t| ensures IsDigit(t[i]) {
          assert t[i] == s[i];
        }
      }
      DecimalBelowPow10(t);
    }
  }

  lemma Pow10UpToFour(k: nat)
    requires k <= 4
    ensures Pow10(k) <= Pow10(4) == 10000
  {
    assert Pow10(1) == 10 && Pow10(2) == 100 && Pow10(3) == 1000;
  }

  /** The last four digits of a decimal text (all of it when shorter) are its value modulo 10000. */
  lemma LastFourValue(s: string)
    requires AllDigits(s)
    ensures var k := if |s| <= 4 then |s| else 4;
      AllDigits(s[|s| - k..]) && DecimalValue(s[|s| - k..]) == DecimalValue(s) % 10000
  {
    var k := if |s| <= 4 then |s| else 4;
    Pow10UpToFour(k);
    DecimalSuffix(s, k);
    if |s| <= 4 {
      DecimalBelowPow10(s);
      RemainderUnique(DecimalValue(s), 10000, 0, DecimalValue(s));
      RemainderUnique(DecimalValue(s), Pow10(k), 0, DecimalValue(s));
    }
  }

  /** `s.padStart(2, '0')`. */
  function PadStart2(s: string): (r: string)
    ensures |r| == if |s| >= 2 then |s| else 2
    ensures r[|r| - |s|..] == s
    ensures forall i :: 0 <= i < |r| - |s| ==> r[i] == '0'
  {
    if |s| >= 2 then s else seq(2 - |s|, _ => '0') + s
  }

  /** `s.slice(-n)` for n > 0: the last `n` characters, or all of `s` when shorter. */
  function TakeLast(s: string, n: nat): (r: string)
    requires n > 0
    ensures |r| == if |s| <= n then |s| else n
    ensures s == s[..|s| - |r|] + r
  {
    if |s| <= n then s else s[|s| - n..]
  }

  predicate NoSpaceOrAt(s: string) {
    forall i :: 0 <= i < |s| ==> !IsSpace(s[i]) && s[i] != '@'
  }

  /** The language of `/^[^\s@]+@[^\s@]+\.[^\s@]+$/`: local part, '@', a label, '.', a label. */
  ghost predicate EmailPattern(s: string) {
    exists i, j :: 0 < i && i + 1 < j && j + 1 < |s| && s[i] == '@' && s[j] == '.'
      && NoSpaceOrAt(s[..i]) && NoSpaceOrAt(s[i + 1..j]) && NoSpaceOrAt(s[j + 1..])
  }

  /** Index of the first `c` in `s`, or -1. */
  function IndexOf(s: string, c: char): (k: int)
    ensures -1 <= k < |s|
    ensures k >= 0 ==> s[k] == c && c !in s[..k]
    ensures k == -1 <==> c !in s
  {
    if s == [] then -1
    else if s[0] == c then 0
    else
      var k := IndexOf(s[1..], c);
      if k == -1 then -1 else k + 1
  }

  /** The executable test of the e-mail pattern: one '@', not first, then a '.' with text on both sides. */
  predicate IsEmail(s: string) {
    var k := IndexOf(s, '@');
    0 < k && k + 3 < |s| && NoSpaceOrAt(s[..k]) && NoSpaceOrAt(s[k + 1..]) && '.' in s[k + 2..|s| - 1]
  }

  /** A slice of text without whitespace or '@' has none either. */
  lemma NoSpaceOrAtSlice(s: string, a: int, b: int)
    requires NoSpaceOrAt(s) && 0 <= a <= b <= |s|
    ensures NoSpaceOrAt(s[a..b])
  {
    forall p | 0 <= p < b - a ensures !IsSpace(s[a..b][p]) && s[a..b][p] != '@' {
      assert s[a..b][p] == s[a + p];
    }
  }

  /** Every string the test accepts is of the pattern. */
  lemma EmailTestSound(s: string)
    requires IsEmail(s)
    ensures EmailPattern(s)
  {
    var k := IndexOf(s, '@');
    var rest := s[k + 1..];
    var t := s[k + 2..|s| - 1];
    var m :| 0 <= m < |t| && t[m] == '.';
    var j := k + 2 + m;
    assert s[j] == t[m];
    NoSpaceOrAtSlice(rest, 0, j - k - 1);
    NoSpaceOrAtSlice(rest, j - k, |rest|);
    assert s[k + 1..j] == rest[0..j - k - 1];
    assert s[j + 1..] == rest[j - k..|rest|];
  }

  /** Every string of the pattern passes the test. */
  lemma EmailTestComplete(s: string, i: int, j: int)
    requires 0 < i && i + 1 < j && j + 1 < |s| && s[i] == '@' && s[j] == '.'
    requires NoSpaceOrAt(s[..i]) && NoSpaceOrAt(s[i + 1..j]) && NoSpaceOrAt(s[j + 1..])
    ensures IsEmail(s)
  {
    assert forall p :: 0 <= p < i ==> s[..i][p] == s[p];
    assert '@' !in s[..i];
    var k := IndexOf(s, '@');
    assert k == i;
    forall p | i + 1 <= p < |s| ensures !IsSpace(s[p]) && s[p] != '@' {
      if p < j {
        assert s[p] == s[i + 1..j][p - i - 1];
      } else if p > j {
        assert s[p] == s[j + 1..][p - j - 1];
      }
    }
    var rest := s[k + 1..];
    forall p | 0 <= p < |rest| ensures !IsSpace(rest[p]) && rest[p] != '@' {
      assert rest[p] == s[k + 1 + p];
    }
    assert s[k + 2..|s| - 1][j - k - 2] == '.';
  }

  /** `emailRegex.test(s)` holds exactly for the strings of the pattern. */
  lemma EmailTest(s: string)
    ensures IsEmail(s) <==> EmailPattern(s)
  {
    if IsEmail(s) {
      EmailTestSound(s);
    }
    if EmailPattern(s) {
      var i, j :| 0 < i && i + 1 < j && j + 1 < |s| && s[i] == '@' && s[j] == '.'
        && NoSpaceOrAt(s[..i]) && NoSpaceOrAt(s[i + 1..j]) && NoSpaceOrAt(s[j + 1..]);
      EmailTestComplete(s, i, j);
    }
  }
}
