/** The Python string operations the authentication code relies on:
    `str.split()` with no argument, `str.strip()`, `sep.join(...)`,
    `str.replace(...)` for one character, the substring test `sub in s`,
    and the decimal rendering of an integer inside an f-string. */
module Text {

  /** Python's `str.isspace` for one character; `split()` and `strip()`
      both cut at exactly these characters. */
  predicate IsSpace(c: char) {
    || c == ' '
    || ('\t' <= c <= '\r')
    || ('\U{1C}' <= c <= '\U{1F}')
    || c == '\U{85}'
    || c == '\U{A0}'
    || c == '\U{1680}'
    || ('\U{2000}' <= c <= '\U{200A}')
    || c == '\U{2028}'
    || c == '\U{2029}'
    || c == '\U{202F}'
    || c == '\U{205F}'
    || c == '\U{3000}'
  }

  predicate AllSpace(s: string) {
    forall i :: 0 <= i < |s| ==> IsSpace(s[i])
  }

  /** What `split()` can return as one field: non-empty and free of whitespace. */
  predicate IsWord(w: string) {
    w != [] && forall i :: 0 <= i < |w| ==> !IsSpace(w[i])
  }

  /** Length of the run of non-whitespace characters that starts `s`. */
  function WordLen(s: string): (n: nat)
    ensures n <= |s|
    ensures forall i :: 0 <= i < n ==> !IsSpace(s[i])
    ensures n < |s| ==> IsSpace(s[n])
  {
    if s == [] || IsSpace(s[0]) then 0 else 1 + WordLen(s[1..])
  }

  /** `s.split()`: the maximal runs of non-whitespace characters of `s`, in order;
      leading, trailing and repeated whitespace produce no empty field. */
  function Fields(s: string): (r: seq<string>)
    ensures forall w :: w in r ==> IsWord(w)
    decreases |s|
  {
    if s == [] then []
    else if IsSpace(s[0]) then Fields(s[1..])
    else
      var n := WordLen(s);
      [s[..n]] + Fields(s[n..])
  }

  lemma {:induction false} WordLenAppend(a: string, t: string)
    requires t != [] && IsSpace(t[0])
    ensures WordLen(a + t) == WordLen(a)
    decreases |a|
  {
    if a != [] && !IsSpace(a[0]) {
      assert (a + t)[1..] == a[1..] + t;
      WordLenAppend(a[1..], t);
    }
  }

  /** A whitespace character splits the field list in two:
      `(a + c + b).split() == a.split() + b.split()`. */
  lemma {:induction false} FieldsSplitAt(a: string, c: char, b: string)
    requires IsSpace(c)
    ensures Fields(a + [c] + b) == Fields(a) + Fields(b)
    decreases |a|
  {
    var s := a + [c] + b;
    if a == [] {
      assert s[1..] == b;
    } else if IsSpace(a[0]) {
      assert s[1..] == a[1..] + [c] + b;
      FieldsSplitAt(a[1..], c, b);
    } else {
      var n := WordLen(a);
      assert s == a + ([c] + b);
      WordLenAppend(a, [c] + b);
      assert s[..n] == a[..n];
      assert s[n..] == a[n..] + [c] + b;
      FieldsSplitAt(a[n..], c, b);
    }
  }

  /** A single word splits into itself. */
  lemma FieldsOfWord(w: string)
    requires IsWord(w)
    ensures Fields(w) == [w]
  {
    assert WordLen(w) == |w|;
    assert w[..|w|] == w;
    assert Fields(w[|w|..]) == Fields([]) == [];
  }

  /** `sep.join(parts)`. */
  function Join(parts: seq<string>, sep: string): string
  {
    if parts == [] then ""
    else if |parts| == 1 then parts[0]
    else parts[0] + sep + Join(parts[1..], sep)
  }

  /** Round trip: `" ".join(words).split() == words` when every element is a word. */
  lemma {:induction false} FieldsOfJoin(words: seq<string>)
    requires forall w :: w in words ==> IsWord(w)
    ensures Fields(Join(words, " ")) == words
  {
    if |words| == 1 {
      FieldsOfWord(words[0]);
    } else if |words| > 1 {
      var tail := Join(words[1..], " ");
      assert Join(words, " ") == words[0] + [' '] + tail;
      FieldsSplitAt(words[0], ' ', tail);
      FieldsOfWord(words[0]);
      FieldsOfJoin(words[1..]);
    }
  }

  /** A word followed by nothing or by whitespace is the first field:
      `(w + rest).split() == [w] + rest.split()`. */
  lemma FieldsOfWordThen(w: string, rest: string)
    requires IsWord(w)
    requires rest == [] || IsSpace(rest[0])
    ensures Fields(w + rest) == [w] + Fields(rest)
  {
    FieldsOfWord(w);
    if rest == [] {
      assert w + rest == w;
    } else {
      assert w + rest == w + [rest[0]] + rest[1..];
      FieldsSplitAt(w, rest[0], rest[1..]);
    }
  }

  /** `(lead + scheme + sep + token + rest).split()[1] == token` for any
      whitespace `lead`, any non-empty whitespace `sep` and any `rest` that is
      empty or starts with whitespace: leading whitespace, the width and kind
      of the separator and later fields never change the second field. */
  lemma SecondFieldOf(lead: string, scheme: string, sep: string, token: string, rest: string)
    requires AllSpace(lead) && sep != [] && AllSpace(sep)
    requires IsWord(scheme) && IsWord(token)
    requires rest == [] || IsSpace(rest[0])
    ensures var f := Fields(lead + scheme + sep + token + rest); |f| >= 2 && f[1] == token
  {
    RegroupHeader(lead, scheme, sep, token, rest);
    FieldsAfterSpaces(lead, scheme + (sep + (token + rest)));
    FieldsOfWordThen(scheme, sep + (token + rest));
    FieldsAfterSpaces(sep, token + rest);
    FieldsOfWordThen(token, rest);
  }

  lemma RegroupHeader(lead: string, scheme: string, sep: string, token: string, rest: string)
    ensures lead + scheme + sep + token + rest == lead + (scheme + (sep + (token + rest)))
  {
  }

  /** Leading whitespace contributes no field. */
  lemma FieldsAfterSpace(c: char, s: string)
    requires IsSpace(c)
    ensures Fields([c] + s) == Fields(s)
  {
    assert ([c] + s)[1..] == s;
  }

  /** A whitespace prefix of any length contributes no field. */
  lemma {:induction false} FieldsAfterSpaces(lead: string, s: string)
    requires AllSpace(lead)
    ensures Fields(lead + s) == Fields(s)
    decreases |lead|
  {
    if lead == [] {
      assert lead + s == s;
    } else {
      assert lead + s == [lead[0]] + (lead[1..] + s);
      FieldsAfterSpace(lead[0], lead[1..] + s);
      FieldsAfterSpaces(lead[1..], s);
    }
  }

  /** A string of whitespace only has no field. */
  lemma {:induction false} FieldsOfSpace(s: string)
    requires AllSpace(s)
    ensures Fields(s) == []
    decreases |s|
  {
    if s != [] {
      FieldsOfSpace(s[1..]);
    }
  }

  function TrimStart(s: string): (r: string)
    ensures |r| <= |s| && r == s[|s| - |r|..]
    ensures forall i :: 0 <= i < |s| - |r| ==> IsSpace(s[i])
    ensures r == [] || !IsSpace(r[0])
  {
    if s != [] && IsSpace(s[0]) then TrimStart(s[1..]) else s
  }

  function TrimEnd(s: string): (r: string)
    ensures |r| <= |s| && r == s[..|r|]
    ensures forall i :: |r| <= i < |s| ==> IsSpace(s[i])
    ensures r == [] || !IsSpace(r[|r| - 1])
  {
    if s != [] && IsSpace(s[|s| - 1]) then TrimEnd(s[..|s| - 1]) else s
  }

  /** `s.strip()`: `s` without its leading and trailing whitespace. */
  function Strip(s: string): (r: string)
    ensures |r| <= |s|
    ensures r == [] || (!IsSpace(r[0]) && !IsSpace(r[|r| - 1]))
  {
    TrimEnd(TrimStart(s))
  }

  lemma {:induction false} TrimStartPadded(lead: string, core: string)
    requires AllSpace(lead)
    requires core == [] || !IsSpace(core[0])
    ensures TrimStart(lead + core) == core
    decreases |lead|
  {
    if lead == [] {
      assert lead + core == core;
    } else {
      assert (lead + core)[1..] == lead[1..] + core;
      TrimStartPadded(lead[1..], core);
    }
  }

  lemma {:induction false} TrimEndPadded(core: string, trail: string)
    requires AllSpace(trail)
    requires core == [] || !IsSpace(core[|core| - 1])
    ensures TrimEnd(core + trail) == core
    decreases |trail|
  {
    if trail == [] {
      assert core + trail == core;
    } else {
      var s := core + trail;
      assert s[..|s| - 1] == core + trail[..|trail| - 1];
      TrimEndPadded(core, trail[..|trail| - 1]);
    }
  }

  /** `strip()` removes exactly the surrounding whitespace: padding a string that
      has none with whitespace on either side and stripping gives it back. */
  lemma StripPadded(lead: string, core: string, trail: string)
    requires AllSpace(lead) && AllSpace(trail)
    requires core == [] || (!IsSpace(core[0]) && !IsSpace(core[|core| - 1]))
    ensures Strip(lead + core + trail) == core
  {
    if core == [] {
      assert lead + core + trail == lead + trail;
      var t := lead + trail;
      assert AllSpace(t);
      TrimStartPadded(t, []);
      assert t + [] == t;
      TrimEndPadded([], []);
    } else {
      assert lead + core + trail == lead + (core + trail);
      TrimStartPadded(lead, core + trail);
      TrimEndPadded(core, trail);
    }
  }

  /** `s.replace(from, to)` for single characters. */
  function ReplaceChar(s: string, from: char, to: char): (r: string)
    ensures |r| == |s|
    ensures forall i :: 0 <= i < |s| && s[i] != from ==> r[i] == s[i]
    ensures forall i :: 0 <= i < |s| && s[i] == from ==> r[i] == to
  {
    if s == [] then []
    else [if s[0] == from then to else s[0]] + ReplaceChar(s[1..], from, to)
  }

  predicate StartsWith(s: string, prefix: string) {
    |prefix| <= |s| && s[..|prefix|] == prefix
  }

  /** Python's substring test `sub in s`. */
  predicate Contains(s: string, sub: string)
    decreases |s|
  {
    StartsWith(s, sub) || (s != [] && Contains(s[1..], sub))
  }

  /** Whatever surrounds it, a string contains each of its infixes. */
  lemma {:induction false} ContainsInfix(before: string, sub: string, after: string)
    ensures Contains(before + sub + after, sub)
    decreases |before|
  {
    var s := before + sub + after;
    if before == [] {
      assert s[..|sub|] == sub;
    } else {
      assert s[1..] == before[1..] + sub + after;
      ContainsInfix(before[1..], sub, after);
    }
  }

  function Digit(d: nat): (c: char)
    requires d < 10
  {
    "0123456789"[d]
  }

  /** Decimal rendering of a natural number, as `str(n)` gives it. */
  function NatToString(n: nat): (r: string)
    ensures r != []
    ensures forall i :: 0 <= i < |r| ==> '0' <= r[i] <= '9'
  {
    if n < 10 then [Digit(n)] else NatToString(n / 10) + [Digit(n % 10)]
  }

  /** Decimal rendering of an integer, as `str(i)` or `f"{i}"` gives it. */
  function IntToString(i: int): (r: string)
    ensures |r| >= 1
  {
    if i < 0 then "-" + NatToString(-i) else NatToString(i)
  }

  /** A rendering is digits, after a '-' exactly when the integer is negative. */
  lemma DigitsOfRendering(i: int)
    ensures var r := IntToString(i);
            && (r[0] == '-' <==> i < 0)
            && (r[0] == '-' || '0' <= r[0] <= '9')
            && forall k :: 1 <= k < |r| ==> '0' <= r[k] <= '9'
  {
    if i < 0 {
      var r := IntToString(i);
      assert forall k :: 1 <= k < |r| ==> r[k] == NatToString(-i)[k - 1];
    }
  }

  lemma DigitInjective(a: nat, b: nat)
    requires a < 10 && b < 10 && Digit(a) == Digit(b)
    ensures a == b
  {
    var digits := "0123456789";
    assert forall j, k :: 0 <= j < k < 10 ==> digits[j] < digits[k];
  }

  /** Distinct natural numbers render differently. */
  lemma {:induction false} NatToStringInjective(a: nat, b: nat)
    requires NatToString(a) == NatToString(b)
    ensures a == b
    decreases a
  {
    // one digit exactly for the numbers below ten
    assert |NatToString(a)| == 1 <==> a < 10;
    assert |NatToString(b)| == 1 <==> b < 10;
    if a < 10 {
      DigitInjective(a, b);
    } else {
      var ra, rb := NatToString(a), NatToString(b);
      assert ra[|ra| - 1] == Digit(a % 10) && rb[|rb| - 1] == Digit(b % 10);
      DigitInjective(a % 10, b % 10);
      assert ra[..|ra| - 1] == NatToString(a / 10);
      assert rb[..|rb| - 1] == NatToString(b / 10);
      NatToStringInjective(a / 10, b / 10);
    }
  }

  /** Distinct integers render differently. */
  lemma IntToStringInjective(a: int, b: int)
    requires IntToString(a) == IntToString(b)
    ensures a == b
  {
    DigitsOfRendering(a);
    DigitsOfRendering(b);
    if a < 0 {
      assert IntToString(a)[1..] == NatToString(-a);
      assert IntToString(b)[1..] == NatToString(-b);
      NatToStringInjective(-a, -b);
    } else {
      NatToStringInjective(a, b);
    }
  }

  /** A rendered integer followed by `sep` can be told apart from the rest when
      `sep` starts with a character that is not a digit: the text before `sep`
      determines the integer. */
  lemma IntPrefixDetermined(a: int, b: int, sep: string, x: string, y: string)
    requires sep != [] && !('0' <= sep[0] <= '9')
    requires IntToString(a) + sep + x == IntToString(b) + sep + y
    ensures a == b
  {
    var ra, rb := IntToString(a), IntToString(b);
    var s := ra + sep + x;
    DigitsOfRendering(a);
    DigitsOfRendering(b);
    // the first non-digit after position 0 sits at |ra| and at |rb| alike
    assert forall k :: 1 <= k < |ra| ==> '0' <= s[k] <= '9';
    assert forall k :: 1 <= k < |rb| ==> '0' <= s[k] <= '9';
    assert s[|ra|] == sep[0] && s[|rb|] == sep[0];
    assert |ra| == |rb|;
    assert ra == s[..|ra|] == rb;
    IntToStringInjective(a, b);
  }
}
