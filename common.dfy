/** Shared vocabulary: optional values, results carrying an exception message,
    decimal printing (f-string interpolation of integers), string joining,
    Python prefix slicing and Python's notion of whitespace. */
module Common {

  datatype Option<+T> = None | Some(value: T)

  /** The outcome of a Python call that may raise: `Err` carries `str(e)`. */
  datatype Result<+T> = Ok(value: T) | Err(error: string)

  /** Python truthiness of an optional string setting (None and "" are falsy). */
  predicate IsSet(setting: Option<string>) {
    setting.Some? && setting.value != ""
  }

  function Max(a: int, b: int): (m: int)
    ensures m >= a && m >= b && (m == a || m == b)
  {
    if a >= b then a else b
  }

  function Min(a: int, b: int): (m: int)
    ensures m <= a && m <= b && (m == a || m == b)
  {
    if a <= b then a else b
  }

  // ---------------------------------------------------------------------------
  // Decimal printing, as `f"{n}"` does it, and its inverse.

  predicate IsDigit(c: char) {
    '0' <= c <= '9'
  }

  function DigitChar(d: nat): (c: char)
    requires d < 10
    ensures IsDigit(c) && (c as int) - ('0' as int) == d
  {
    ('0' as int + d) as char
  }

  function DigitValue(c: char): nat
    requires IsDigit(c)
  {
    (c as int) - ('0' as int)
  }

  /** Base-10 text of a natural number, most significant digit first, no leading zeros. */
  function NatToString(n: nat): (s: string)
    ensures |s| >= 1
    ensures forall i :: 0 <= i < |s| ==> IsDigit(s[i])
    decreases n
  {
    if n < 10 then [DigitChar(n)] else NatToString(n / 10) + [DigitChar(n % 10)]
  }

  function ParseNat(s: string): nat
    requires forall i :: 0 <= i < |s| ==> IsDigit(s[i])
  {
    if s == [] then 0 else ParseNat(s[..|s| - 1]) * 10 + DigitValue(s[|s| - 1])
  }

  /** Reading back the printed digits gives the number: printing loses nothing. */
  lemma {:induction false} ParseNatToString(n: nat)
    ensures ParseNat(NatToString(n)) == n
    decreases n
  {
    var s := NatToString(n);
    if n >= 10 {
      ParseNatToString(n / 10);
      assert s[..|s| - 1] == NatToString(n / 10);
    }
  }

  /** Distinct numbers print differently. */
  lemma NatToStringInjective(a: nat, b: nat)
    requires a != b
    ensures NatToString(a) != NatToString(b)
  {
    ParseNatToString(a);
    ParseNatToString(b);
  }

  /** `f"{i}"` for a Python int. */
  function IntToString(i: int): (s: string)
    ensures |s| >= 1
    ensures forall k :: 0 <= k < |s| ==> IsDigit(s[k]) || s[k] == '-'
  {
    if i < 0 then "-" + NatToString(-i) else NatToString(i)
  }

  lemma IntToStringInjective(a: int, b: int)
    requires a != b
    ensures IntToString(a) != IntToString(b)
  {
    if a < 0 && b < 0 {
      NatToStringInjective(-a, -b);
      assert NatToString(-a) == IntToString(a)[1..];
      assert NatToString(-b) == IntToString(b)[1..];
    } else if a >= 0 && b >= 0 {
      NatToStringInjective(a, b);
    } else {
      assert IntToString(a)[0] != IntToString(b)[0];
    }
  }

  // ---------------------------------------------------------------------------
  // Strings.

  /** Python's `sep.join(parts)`. */
  function Join(sep: string, parts: seq<string>): string
  {
    if |parts| == 0 then ""
    else if |parts| == 1 then parts[0]
    else Join(sep, parts[..|parts| - 1]) + sep + parts[|parts| - 1]
  }

  /** `t` occurs in `s` starting at position `k`. */
  predicate OccursAt(s: string, t: string, k: int) {
    0 <= k && k + |t| <= |s| && s[k..k + |t|] == t
  }

  /** `t in s` for strings. */
  ghost predicate Contains(s: string, t: string) {
    exists k :: OccursAt(s, t, k)
  }

  /** `s.endswith(t)`. */
  predicate EndsWith(s: string, t: string) {
    |t| <= |s| && s[|s| - |t|..] == t
  }

  lemma EndsWithAppend(a: string, b: string)
    ensures EndsWith(a + b, b)
  {
    assert (a + b)[|a|..] == b;
  }

  /** `a + b` is a prefix of any text that regroups `a`, `b` and more after them. */
  lemma PrefixRegroup(a: string, b: string, c: string, d: string)
    ensures a + b <= (a + (b + c)) + d
  {
    assert (a + (b + c)) + d == (a + b) + (c + d);
  }

  lemma EndsWithExtend(a: string, b: string, t: string)
    requires EndsWith(b, t)
    ensures EndsWith(a + b, t)
  {
    assert (a + b)[|a + b| - |t|..] == b[|b| - |t|..];
  }

  lemma EndsWithLast(s: string, t: string)
    requires EndsWith(s, t) && |t| > 0
    ensures s[|s| - 1] == t[|t| - 1]
  {
    assert s[|s| - |t|..][|t| - 1] == s[|s| - 1];
  }

  lemma ContainsInfix(p: string, t: string, q: string)
    ensures Contains(p + t + q, t)
  {
    assert OccursAt(p + t + q, t, |p|);
  }

  lemma ContainsExtend(a: string, t: string, b: string)
    requires Contains(a, t)
    ensures Contains(a + b, t) && Contains(b + a, t)
  {
    var k :| OccursAt(a, t, k);
    assert (a + b)[k..k + |t|] == t;
    assert OccursAt(a + b, t, k);
    assert (b + a)[|b| + k..|b| + k + |t|] == t;
    assert OccursAt(b + a, t, |b| + k);
  }

  /** Every part occurs in the joined text. */
  lemma {:induction false} JoinContains(sep: string, parts: seq<string>, i: nat)
    requires i < |parts|
    ensures Contains(Join(sep, parts), parts[i])
  {
    var n := |parts| - 1;
    if n == 0 {
      assert OccursAt(Join(sep, parts), parts[0], 0);
    } else {
      var front := Join(sep, parts[..n]);
      assert Join(sep, parts) == front + sep + parts[n];
      if i == n {
        var k := |front| + |sep|;
        assert Join(sep, parts)[k..k + |parts[n]|] == parts[n];
        assert OccursAt(Join(sep, parts), parts[n], k);
      } else {
        JoinContains(sep, parts[..n], i);
        assert parts[..n][i] == parts[i];
        ContainsExtend(front, parts[i], sep + parts[n]);
        assert front + (sep + parts[n]) == Join(sep, parts);
      }
    }
  }

  /** Python's `s[:n]` for a non-negative `n`. */
  function Take(s: string, n: nat): (r: string)
    ensures |r| == Min(|s|, n)
    ensures r == s[..|r|]
  {
    if |s| <= n then s else s[..n]
  }

  /** `d.get(key, default)` on a dictionary of strings. */
  function Get(d: map<string, string>, key: string, default: string): string {
    if key in d then d[key] else default
  }

  /** `str(KeyError(key))`, which is `repr(key)`. */
  function KeyErrorText(key: string): string {
    PyRepr(key)
  }

  /** `repr(s)` for a `str`: single quotes unless `s` holds a single quote and no double
      quote; backslash and the chosen quote are escaped, tab, newline and carriage return
      by name, and the other characters Python does not print among the first 256 in
      `\xhh` form. */
  function PyRepr(s: string): (r: string)
    ensures |r| >= |s| + 2
    ensures r[0] == ReprQuote(s) && r[|r| - 1] == ReprQuote(s)
  {
    var q := ReprQuote(s);
    [q] + ReprBody(s, q) + [q]
  }

  function ReprQuote(s: string): char {
    if '\'' in s && '"' !in s then '"' else '\''
  }

  predicate ReprEscaped(c: char) {
    c < ' ' || ('\U{7F}' <= c <= '\U{A0}') || c == '\U{AD}'
  }

  function ReprChar(c: char, q: char): (r: string)
    ensures 1 <= |r| <= 4
    ensures r == [c] <==> c != q && c != '\\' && !ReprEscaped(c)
  {
    if c == q || c == '\\' then ['\\', c]
    else if c == '\t' then "\\t"
    else if c == '\n' then "\\n"
    else if c == '\r' then "\\r"
    else if ReprEscaped(c) then ['\\', 'x', HexDigit(c as int / 16), HexDigit(c as int % 16)]
    else [c]
  }

  function HexDigit(d: nat): char
    requires d < 16
  {
    if d < 10 then ('0' as int + d) as char else ('a' as int + d - 10) as char
  }

  function ReprBody(s: string, q: char): (r: string)
    ensures |r| >= |s|
  {
    if s == [] then "" else ReprChar(s[0], q) + ReprBody(s[1..], q)
  }

  /** A string with no quote, backslash or unprintable character is shown between
      single quotes as it is. */
  lemma {:induction false} ReprPlain(s: string)
    requires forall i :: 0 <= i < |s| ==> s[i] != '\'' && s[i] != '"' && s[i] != '\\' && !ReprEscaped(s[i])
    ensures PyRepr(s) == "'" + s + "'"
  {
    assert ReprQuote(s) == '\'';
    ReprBodyPlain(s, '\'');
  }

  lemma {:induction false} ReprBodyPlain(s: string, q: char)
    requires forall i :: 0 <= i < |s| ==> s[i] != q && s[i] != '\\' && !ReprEscaped(s[i])
    ensures ReprBody(s, q) == s
  {
    if s != [] {
      ReprBodyPlain(s[1..], q);
      assert s == [s[0]] + s[1..];
    }
  }

  /** Reading a `repr` body back: the escapes `ReprChar` writes, undone. */
  function Unescape(r: string): string
    decreases |r|
  {
    if r == [] then ""
    else if r[0] == '\\' && |r| >= 2 && r[1] == 'x' && |r| >= 4 && IsHexDigit(r[2]) && IsHexDigit(r[3]) then
      [(HexValue(r[2]) * 16 + HexValue(r[3])) as char] + Unescape(r[4..])
    else if r[0] == '\\' && |r| >= 2 then [Unnamed(r[1])] + Unescape(r[2..])
    else [r[0]] + Unescape(r[1..])
  }

  function Unnamed(c: char): char {
    if c == 't' then '\t' else if c == 'n' then '\n' else if c == 'r' then '\r' else c
  }

  predicate IsHexDigit(c: char) {
    '0' <= c <= '9' || 'a' <= c <= 'f'
  }

  function HexValue(c: char): nat
    requires IsHexDigit(c)
    ensures HexValue(c) < 16
  {
    if c <= '9' then c as int - '0' as int else c as int - 'a' as int + 10
  }

  lemma ReprCharRoundTrip(c: char, q: char, rest: string)
    requires q == '\'' || q == '"'
    ensures Unescape(ReprChar(c, q) + rest) == [c] + Unescape(rest)
  {
    var h := ReprChar(c, q);
    if c == q || c == '\\' {
      assert (h + rest)[2..] == rest;
    } else if c == '\t' || c == '\n' || c == '\r' {
      assert (h + rest)[2..] == rest;
    } else if ReprEscaped(c) {
      var hi, lo := c as int / 16, c as int % 16;
      assert HexValue(HexDigit(hi)) == hi && HexValue(HexDigit(lo)) == lo;
      assert (h + rest)[4..] == rest;
    } else {
      assert (h + rest)[1..] == rest;
    }
  }

  /** Undoing the escapes gives the string back, so distinct keys are shown distinctly. */
  lemma {:induction false} ReprBodyRoundTrip(s: string, q: char)
    requires q == '\'' || q == '"'
    ensures Unescape(ReprBody(s, q)) == s
  {
    if s != [] {
      ReprCharRoundTrip(s[0], q, ReprBody(s[1..], q));
      ReprBodyRoundTrip(s[1..], q);
      assert s == [s[0]] + s[1..];
    }
  }

  /** The key of a `KeyError` can be read back from its message. */
  lemma KeyErrorTextRoundTrip(key: string)
    ensures var t := KeyErrorText(key); Unescape(t[1..|t| - 1]) == key
  {
    var q := ReprQuote(key);
    var t := KeyErrorText(key);
    assert t[1..|t| - 1] == ReprBody(key, q);
    ReprBodyRoundTrip(key, q);
  }

  /** A key holding an apostrophe is shown between double quotes. */
  lemma ApostropheKey()
    ensures KeyErrorText("it's") == "\"it's\""
  {
    ReprBodyPlain("it's", '"');
  }

  /** The characters for which Python's `str.isspace()` holds. */
  predicate IsPythonSpace(c: char) {
    c == ' ' || ('\t' <= c <= '\r') || ('\U{1C}' <= c <= '\U{1F}')
    || c == '\U{85}' || c == '\U{A0}' || c == '\U{1680}'
    || ('\U{2000}' <= c <= '\U{200A}') || c == '\U{2028}' || c == '\U{2029}'
    || c == '\U{202F}' || c == '\U{205F}' || c == '\U{3000}'
  }

  /** `s.strip()` is empty (falsy) exactly when every character is whitespace. */
  predicate IsBlank(s: string) {
    forall i :: 0 <= i < |s| ==> IsPythonSpace(s[i])
  }

  /** A subset is no larger, and one as large is the whole set. */
  lemma SubsetCard<T>(a: set<T>, b: set<T>)
    requires a <= b
    ensures |a| <= |b| && (|a| == |b| ==> a == b)
  {
    assert b == a + (b - a);
    assert a * (b - a) == {};
    if |a| == |b| {
      assert |b - a| == 0;
    }
  }

  /** A smaller subset misses some element. */
  lemma Missed<T>(a: set<T>, b: set<T>) returns (x: T)
    requires a <= b && |a| < |b|
    ensures x in b && x !in a
  {
    assert b == a + (b - a);
    assert a * (b - a) == {};
    x :| x in b - a;
  }
}
