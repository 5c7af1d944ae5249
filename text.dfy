/**
 * String operations of the JavaScript runtime that the token engine relies
 * on: prefix and suffix tests, `split('.')`, the dotted-path accumulation
 * `path ? path + '.' + key : key`, `String(n)` on integers, `parseInt(s, 10)`,
 * `trim()` emptiness, ASCII case folding and a code-unit ordering that stands
 * in for `localeCompare`.
 */
module Text {
  import opened Wrappers

  predicate StartsWith(s: string, prefix: string)
  {
    |prefix| <= |s| && s[..|prefix|] == prefix
  }

  predicate EndsWith(s: string, suffix: string)
  {
    |suffix| <= |s| && s[|s| - |suffix|..] == suffix
  }

  /** Position of the first `c` in `s`, or `|s|` when there is none. */
  function IndexOf(s: string, c: char): (i: nat)
    ensures i <= |s|
    ensures i < |s| ==> s[i] == c
    ensures forall k :: 0 <= k < i ==> s[k] != c
  {
    if |s| == 0 then 0
    else if s[0] == c then 0
    else 1 + IndexOf(s[1..], c)
  }

  /** `s.split(sep)` for a one-character separator. */
  function Split(s: string, sep: char): (parts: seq<string>)
    ensures |parts| >= 1
    ensures forall k :: 0 <= k < |parts| ==> sep !in parts[k]
    decreases |s|
  {
    var i := IndexOf(s, sep);
    if i == |s| then [s] else [s[..i]] + Split(s[i + 1..], sep)
  }

  /** `parts.join(sep)`. */
  function Join(parts: seq<string>, sep: char): string
  {
    if |parts| == 0 then ""
    else if |parts| == 1 then parts[0]
    else parts[0] + [sep] + Join(parts[1..], sep)
  }

  lemma {:induction false} JoinSplit(s: string, sep: char)
    ensures Join(Split(s, sep), sep) == s
    decreases |s|
  {
    var i := IndexOf(s, sep);
    if i < |s| {
      var head, rest := s[..i], s[i + 1..];
      SplitAt(s, sep);
      JoinCons(head, Split(rest, sep), sep);
      JoinSplit(rest, sep);
      Around(s, i);
    }
  }

  /** Past the first separator, the split goes on with the rest of the string. */
  lemma SplitAt(s: string, sep: char)
    requires IndexOf(s, sep) < |s|
    ensures Split(s, sep) == [s[..IndexOf(s, sep)]] + Split(s[IndexOf(s, sep) + 1..], sep)
  {
  }

  /** A string is what comes before position `i`, the character there, and the rest. */
  lemma Around(s: string, i: nat)
    requires i < |s|
    ensures s == s[..i] + [s[i]] + s[i + 1..]
  {
  }

  lemma JoinCons(head: string, parts: seq<string>, sep: char)
    requires |parts| >= 1
    ensures Join([head] + parts, sep) == head + [sep] + Join(parts, sep)
  {
    assert ([head] + parts)[1..] == parts;
  }

  lemma {:induction false} SplitJoin(parts: seq<string>, sep: char)
    requires |parts| >= 1
    requires forall k :: 0 <= k < |parts| ==> sep !in parts[k]
    ensures Split(Join(parts, sep), sep) == parts
  {
    if |parts| > 1 {
      var head := parts[0];
      var tail := Join(parts[1..], sep);
      var s := head + [sep] + tail;
      assert Join(parts, sep) == s;
      IndexOfAfter(head, sep, tail);
      assert s[..|head|] == head;
      assert s[|head| + 1..] == tail;
      SplitJoin(parts[1..], sep);
      assert parts == [head] + parts[1..];
    } else {
      assert IndexOf(parts[0], sep) == |parts[0]|;
    }
  }

  lemma IndexOfAfter(head: string, sep: char, tail: string)
    requires sep !in head
    ensures IndexOf(head + [sep] + tail, sep) == |head|
  {
    var s := head + [sep] + tail;
    assert forall k :: 0 <= k < |head| ==> s[k] == head[k];
    assert s[|head|] == sep;
  }

  lemma {:induction false} JoinSnoc(parts: seq<string>, key: string, sep: char)
    requires |parts| >= 1
    ensures Join(parts + [key], sep) == Join(parts, sep) + [sep] + key
  {
    if |parts| == 1 {
      assert (parts + [key])[1..] == [key];
    } else {
      JoinSnoc(parts[1..], key, sep);
      assert (parts + [key])[1..] == parts[1..] + [key];
    }
  }

  /**
   * The path string the tree walkers build as they descend: the empty string
   * at the root, then `path ? path + "." + key : key` for every key.
   */
  function DotPath(keys: seq<string>): string
  {
    if |keys| == 0 then ""
    else
      var path := DotPath(keys[..|keys| - 1]);
      var key := keys[|keys| - 1];
      if path == "" then key else path + "." + key
  }

  /** When the first key is not empty the accumulated path is the plain join. */
  lemma {:induction false} DotPathIsJoin(keys: seq<string>)
    requires |keys| >= 1 && keys[0] != ""
    ensures DotPath(keys) == Join(keys, '.')
    ensures DotPath(keys) != ""
  {
    var n := |keys|;
    if n == 1 {
      assert keys[..0] == [];
    } else {
      var front := keys[..n - 1];
      assert front[0] == keys[0];
      DotPathIsJoin(front);
      JoinSnoc(front, keys[n - 1], '.');
      assert front + [keys[n - 1]] == keys;
    }
  }

  /** A single key is its own path. */
  lemma DotPathOfSingle(key: string)
    ensures DotPath([key]) == key
  {
    assert [key][..0] == [];
  }

  function DigitChar(d: int): char
    requires 0 <= d < 10
  {
    "0123456789"[d]
  }

  function DigitValue(c: char): (d: int)
    requires IsDigit(c)
    ensures 0 <= d < 10
  {
    c as int - '0' as int
  }

  predicate IsDigit(c: char)
  {
    '0' <= c <= '9'
  }

  /** Decimal digits of a natural number, as `String(n)` writes them. */
  function NatToString(n: nat): (s: string)
    ensures |s| >= 1
    ensures forall k :: 0 <= k < |s| ==> IsDigit(s[k])
  {
    if n < 10 then [DigitChar(n)] else NatToString(n / 10) + [DigitChar(n % 10)]
  }

  /** `String(n)` for an integer: a minus sign, then the digits. */
  function IntToString(n: int): string
  {
    if n < 0 then "-" + NatToString(-n) else NatToString(n)
  }

  /** End of the run of decimal digits that starts at position `i`. */
  function DigitsEnd(s: string, i: nat): (j: nat)
    requires i <= |s|
    ensures i <= j <= |s|
    ensures forall k :: i <= k < j ==> IsDigit(s[k])
    ensures j < |s| ==> !IsDigit(s[j])
    decreases |s| - i
  {
    if i == |s| || !IsDigit(s[i]) then i else DigitsEnd(s, i + 1)
  }

  /** Value of the digits `s[i..j]`, read left to right. */
  function DigitsValue(s: string, i: nat, j: nat): nat
    requires i <= j <= |s| && forall k :: i <= k < j ==> IsDigit(s[k])
    decreases j - i
  {
    if j == i then 0 else DigitsValue(s, i, j - 1) * 10 + DigitValue(s[j - 1])
  }

  /** Characters that `trim()` and `parseInt` treat as white space. */
  predicate IsJsWhitespace(c: char)
  {
    var u := c as int;
    u == 0x09 || u == 0x0A || u == 0x0B || u == 0x0C || u == 0x0D || u == 0x20
    || u == 0xA0 || u == 0x1680 || (0x2000 <= u <= 0x200A) || u == 0x2028
    || u == 0x2029 || u == 0x202F || u == 0x205F || u == 0x3000 || u == 0xFEFF
  }

  /** End of the run of white-space characters that starts at position `i`. */
  function SpaceEnd(s: string, i: nat): (j: nat)
    requires i <= |s|
    ensures i <= j <= |s|
    ensures forall k :: i <= k < j ==> IsJsWhitespace(s[k])
    ensures j < |s| ==> !IsJsWhitespace(s[j])
    decreases |s| - i
  {
    if i == |s| || !IsJsWhitespace(s[i]) then i else SpaceEnd(s, i + 1)
  }

  /** `s.trim() === ''`. */
  predicate IsBlank(s: string)
  {
    forall k :: 0 <= k < |s| ==> IsJsWhitespace(s[k])
  }

  /**
   * `parseInt(s, 10)`: leading white space, an optional sign, then the longest
   * run of digits; `None` stands for `NaN` (no digit at all).
   */
  function ParseInt(s: string): Option<int>
  {
    var i := SpaceEnd(s, 0);
    var negative := i < |s| && s[i] == '-';
    var start := if i < |s| && (s[i] == '-' || s[i] == '+') then i + 1 else i;
    var end := DigitsEnd(s, start);
    if end == start then None
    else
      var v: int := DigitsValue(s, start, end);
      Some(if negative then -v else v)
  }

  /** The digits of `n` read back give `n`. */
  lemma {:induction false} DigitsOfNat(n: nat)
    ensures DigitsValue(NatToString(n), 0, |NatToString(n)|) == n
  {
    var s := NatToString(n);
    if n >= 10 {
      var front, last := NatToString(n / 10), DigitChar(n % 10);
      assert s == front + [last];
      DigitsOfNat(n / 10);
      DigitsValuePrefix(front, [last], |front|);
      DigitRoundTrip(n % 10);
      assert DigitsValue(s, 0, |s|) == (n / 10) * 10 + n % 10;
    } else {
      DigitRoundTrip(n);
    }
  }

  /** A digit character reads back as its digit. */
  lemma DigitRoundTrip(d: int)
    requires 0 <= d < 10
    ensures IsDigit(DigitChar(d)) && DigitValue(DigitChar(d)) == d
  {
  }

  /** Digits read from a prefix do not depend on what follows it. */
  lemma {:induction false} DigitsValuePrefix(a: string, b: string, j: nat)
    requires j <= |a| && forall k :: 0 <= k < j ==> IsDigit(a[k])
    ensures DigitsValue(a + b, 0, j) == DigitsValue(a, 0, j)
  {
    if j > 0 {
      DigitsValuePrefix(a, b, j - 1);
      assert (a + b)[j - 1] == a[j - 1];
    }
  }

  /** Digits read after a prefix are those of the rest read from its start. */
  lemma {:induction false} DigitsValueShift(p: string, d: string, j: nat)
    requires j <= |d| && forall k :: 0 <= k < j ==> IsDigit(d[k])
    ensures forall k :: |p| <= k < |p| + j ==> IsDigit((p + d)[k])
    ensures DigitsValue(p + d, |p|, |p| + j) == DigitsValue(d, 0, j)
  {
    assert forall k :: |p| <= k < |p| + j ==> (p + d)[k] == d[k - |p|];
    if j > 0 {
      DigitsValueShift(p, d, j - 1);
      assert (p + d)[|p| + j - 1] == d[j - 1];
    }
  }

  /** A string of digits is one run to its end. */
  lemma {:induction false} AllDigitsEnd(s: string, i: nat)
    requires i <= |s| && forall k :: i <= k < |s| ==> IsDigit(s[k])
    ensures DigitsEnd(s, i) == |s|
    decreases |s| - i
  {
    if i < |s| {
      AllDigitsEnd(s, i + 1);
    }
  }

  /** `parseInt` reads back what `String(n)` wrote. */
  lemma ParseIntToString(n: int)
    ensures ParseInt(IntToString(n)) == Some(n)
  {
    if n < 0 {
      assert IntToString(n) == "-" + NatToString(-n);
      ParseNegative(-n);
    } else {
      assert IntToString(n) == NatToString(n);
      ParseNatural(n);
    }
  }

  /** `parseInt` of the digits of `m` is `m`. */
  lemma ParseNatural(m: nat)
    ensures ParseInt(NatToString(m)) == Some(m)
  {
    var s := NatToString(m);
    DigitsOfNat(m);
    AllDigitsEnd(s, 0);
    assert SpaceEnd(s, 0) == 0 by {
      assert !IsJsWhitespace(s[0]);
    }
  }

  /** `parseInt` of a minus sign and the digits of `m` is `-m`. */
  lemma ParseNegative(m: nat)
    ensures ParseInt("-" + NatToString(m)) == Some(-(m as int))
  {
    var digits := NatToString(m);
    var s := "-" + digits;
    DigitsOfNat(m);
    DigitsValueShift("-", digits, |digits|);
    AllDigitsEnd(s, 1);
    assert SpaceEnd(s, 0) == 0 by {
      assert s[0] == '-';
    }
  }

  /** Lower-cases the ASCII letters A-Z and leaves every other character alone. */
  function ToLowerAscii(s: string): (r: string)
    ensures |r| == |s|
    ensures forall k :: 0 <= k < |s| ==>
      r[k] == (if 'A' <= s[k] <= 'Z' then (s[k] as int + 32) as char else s[k])
  {
    if |s| == 0 then ""
    else [if 'A' <= s[0] <= 'Z' then (s[0] as int + 32) as char else s[0]] + ToLowerAscii(s[1..])
  }

  /**
   * Three-way comparison by Unicode code points: negative, zero or positive as
   * `a` sorts before, equal to or after `b`.
   */
  function Compare(a: string, b: string): (r: int)
    ensures -1 <= r <= 1
    ensures r == 0 <==> a == b
  {
    if |a| == 0 && |b| == 0 then 0
    else if |a| == 0 then -1
    else if |b| == 0 then 1
    else if a[0] < b[0] then -1
    else if a[0] > b[0] then 1
    else
      var r := Compare(a[1..], b[1..]);
      assert r == 0 ==> a == [a[0]] + a[1..] == [b[0]] + b[1..] == b;
      r
  }

  lemma {:induction false} CompareAntisymmetric(a: string, b: string)
    ensures Compare(a, b) == -Compare(b, a)
  {
    if |a| > 0 && |b| > 0 && a[0] == b[0] {
      CompareAntisymmetric(a[1..], b[1..]);
    }
  }

  lemma {:induction false} CompareTransitive(a: string, b: string, c: string)
    requires Compare(a, b) < 0 && Compare(b, c) < 0
    ensures Compare(a, c) < 0
  {
    if |a| > 0 && |b| > 0 && |c| > 0 && a[0] == b[0] && b[0] == c[0] {
      CompareTransitive(a[1..], b[1..], c[1..]);
    }
  }
}
