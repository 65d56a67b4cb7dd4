/** The .NET string and path operations the muxer and the job processors rely on:
    ordinal substring tests, ASCII lower-casing, `Path.GetExtension`, `String.Join`,
    `Trim`-emptiness, decimal formatting and the digit scanning done by the two
    progress regular expressions. */
module Text {

  /** `s.StartsWith(prefix)`, ordinal. */
  predicate StartsWith(s: string, prefix: string) {
    |prefix| <= |s| && s[..|prefix|] == prefix
  }

  /** `sub` occurs in `s` at index `i`. */
  predicate OccursAt(s: string, sub: string, i: int) {
    0 <= i && i + |sub| <= |s| && s[i..i + |sub|] == sub
  }

  /** `s.Contains(sub)`, ordinal. */
  predicate Contains(s: string, sub: string)
    decreases |s|
  {
    StartsWith(s, sub) || (|s| > 0 && Contains(s[1..], sub))
  }

  /** Contains is exactly "occurs at some index". */
  lemma {:induction false} ContainsAt(s: string, sub: string)
    ensures Contains(s, sub) <==> exists i :: OccursAt(s, sub, i)
    decreases |s|
  {
    if StartsWith(s, sub) {
      assert OccursAt(s, sub, 0);
    } else if |s| > 0 {
      ContainsAt(s[1..], sub);
      if Contains(s[1..], sub) {
        var i :| OccursAt(s[1..], sub, i);
        assert s[i + 1..i + 1 + |sub|] == s[1..][i..i + |sub|];
        assert OccursAt(s, sub, i + 1);
      }
      forall i | OccursAt(s, sub, i) && i > 0 ensures OccursAt(s[1..], sub, i - 1) {
        assert s[1..][i - 1..i - 1 + |sub|] == s[i..i + |sub|];
      }
    }
  }

  /** A string that differs from `prefix` at index `k` does not start with it. */
  lemma DiffersAt(s: string, prefix: string, k: nat)
    requires k < |prefix| && k < |s| && s[k] != prefix[k]
    ensures !StartsWith(s, prefix)
  {
    if |prefix| <= |s| {
      assert s[..|prefix|][k] == s[k];
    }
  }

  /** `Char.ToLower` restricted to ASCII letters. */
  function LowerChar(c: char): char {
    if 'A' <= c <= 'Z' then (c as int + 32) as char else c
  }

  /** `s.ToLower()`, letter by letter. */
  function Lower(s: string): (r: string)
    ensures |r| == |s|
    ensures forall i :: 0 <= i < |s| ==> r[i] == LowerChar(s[i])
  {
    seq(|s|, i requires 0 <= i < |s| => LowerChar(s[i]))
  }

  /** `Path.DirectorySeparatorChar`, `AltDirectorySeparatorChar`, `VolumeSeparatorChar` on Windows. */
  predicate IsSeparator(c: char) {
    c == '\\' || c == '/' || c == ':'
  }

  /** `Path.GetExtension(path)`: from the last '.' after the last separator to the end,
      or "" when there is no such '.' or the '.' is the last character. */
  function GetExtension(path: string): string {
    ExtensionBefore(path, |path|)
  }

  /** The scan of GetExtension, looking at `path[..n]` from its end. */
  function ExtensionBefore(path: string, n: nat): string
    requires n <= |path|
    decreases n
  {
    if n == 0 then ""
    else if path[n - 1] == '.' then (if n != |path| then path[n - 1..] else "")
    else if IsSeparator(path[n - 1]) then ""
    else ExtensionBefore(path, n - 1)
  }

  /** An extension is empty or a '.' followed by at least one character, none of
      them a '.' or a separator, and it is a suffix of the path. */
  lemma {:induction false} ExtensionShapeBefore(path: string, n: nat)
    requires n <= |path|
    requires forall k :: n <= k < |path| ==> path[k] != '.' && !IsSeparator(path[k])
    ensures var e := ExtensionBefore(path, n);
      e == "" ||
      (2 <= |e| <= |path| && e[0] == '.' && e == path[|path| - |e|..] &&
       forall k :: 1 <= k < |e| ==> e[k] != '.' && !IsSeparator(e[k]))
    decreases n
  {
    if n > 0 && path[n - 1] != '.' && !IsSeparator(path[n - 1]) {
      ExtensionShapeBefore(path, n - 1);
    }
  }

  lemma GetExtensionShape(path: string)
    ensures var e := GetExtension(path);
      e == "" ||
      (2 <= |e| <= |path| && e[0] == '.' && e == path[|path| - |e|..] &&
       forall k :: 1 <= k < |e| ==> e[k] != '.' && !IsSeparator(e[k]))
  {
    ExtensionShapeBefore(path, |path|);
  }

  /** The scan passes over characters that are neither '.' nor a separator. */
  lemma {:induction false} ExtensionSkips(path: string, n: nat, m: nat)
    requires m <= n <= |path|
    requires forall k :: m <= k < n ==> path[k] != '.' && !IsSeparator(path[k])
    ensures ExtensionBefore(path, n) == ExtensionBefore(path, m)
    decreases n
  {
    if n > m {
      ExtensionSkips(path, n - 1, m);
    }
  }

  /** An extension present at the end of a path is found: a '.' followed by at
      least one character that is neither a '.' nor a separator. */
  lemma GetExtensionOfSuffix(stem: string, ext: string)
    requires |ext| > 0
    requires forall k :: 0 <= k < |ext| ==> ext[k] != '.' && !IsSeparator(ext[k])
    ensures GetExtension(stem + "." + ext) == "." + ext
  {
    var path := stem + "." + ext;
    forall k | |stem| + 1 <= k < |path|
      ensures path[k] != '.' && !IsSeparator(path[k])
    {
      assert path[k] == ext[k - |stem| - 1];
    }
    ExtensionSkips(path, |path|, |stem| + 1);
    assert path[|stem|] == '.';
    assert path[|stem|..] == "." + ext;
  }

  lemma LowerSlice(path: string, i: nat)
    requires i <= |path|
    ensures Lower(path)[i..] == Lower(path[i..])
  {
  }

  /** Lower-casing commutes with taking the extension, since '.' and the
      separators are not letters. */
  lemma {:induction false} ExtensionOfLower(path: string, n: nat)
    requires n <= |path|
    ensures ExtensionBefore(Lower(path), n) == Lower(ExtensionBefore(path, n))
    decreases n
  {
    if n > 0 {
      var c := path[n - 1];
      assert Lower(path)[n - 1] == LowerChar(c);
      assert LowerChar(c) == '.' <==> c == '.';
      assert IsSeparator(LowerChar(c)) <==> IsSeparator(c);
      if c == '.' {
        LowerSlice(path, n - 1);
      } else if !IsSeparator(c) {
        ExtensionOfLower(path, n - 1);
      }
    }
  }

  lemma LowerIdempotent(s: string)
    ensures Lower(Lower(s)) == Lower(s)
  {
  }

  /** `Char.IsWhiteSpace`: the Unicode space separators, line and paragraph
      separators, and U+0009..U+000D, U+0085, U+00A0. */
  predicate IsWhiteSpace(c: char) {
    c == ' ' || '\t' <= c <= '\r' || c == '\U{85}' || c == '\U{A0}' || c == '\U{1680}' ||
    '\U{2000}' <= c <= '\U{200A}' || c == '\U{2028}' || c == '\U{2029}' ||
    c == '\U{202F}' || c == '\U{205F}' || c == '\U{3000}'
  }

  /** `String.IsNullOrEmpty(s.Trim())`: every character is white space. */
  predicate IsBlank(s: string) {
    forall i :: 0 <= i < |s| ==> IsWhiteSpace(s[i])
  }

  /** A blank line contains no text that has a character other than white space. */
  lemma BlankContainsNoText(line: string, text: string, k: nat)
    requires IsBlank(line)
    requires k < |text| && !IsWhiteSpace(text[k])
    ensures !Contains(line, text)
  {
    ContainsAt(line, text);
  }

  /** `String.Join(sep, parts)`. */
  function Join(sep: string, parts: seq<string>): string
    decreases |parts|
  {
    if |parts| == 0 then ""
    else if |parts| == 1 then parts[0]
    else parts[0] + sep + Join(sep, parts[1..])
  }

  lemma JoinStartsWithFirst(sep: string, parts: seq<string>)
    requires |parts| > 0
    ensures StartsWith(Join(sep, parts), parts[0])
  {
    var j := Join(sep, parts);
    if |parts| > 1 {
      assert j[..|parts[0]|] == (parts[0] + (sep + Join(sep, parts[1..])))[..|parts[0]|];
    }
  }

  predicate EndsWith(s: string, suffix: string) {
    |suffix| <= |s| && s[|s| - |suffix|..] == suffix
  }

  lemma {:induction false} JoinEndsWithLast(sep: string, parts: seq<string>)
    requires |parts| > 0
    ensures EndsWith(Join(sep, parts), parts[|parts| - 1])
    decreases |parts|
  {
    if |parts| > 1 {
      JoinEndsWithLast(sep, parts[1..]);
      var rest := Join(sep, parts[1..]);
      var j := parts[0] + sep + rest;
      assert j[|j| - |rest|..] == rest;
    }
  }

  predicate IsDigit(c: char) {
    '0' <= c <= '9'
  }

  predicate IsDigits(s: string) {
    forall i :: 0 <= i < |s| ==> IsDigit(s[i])
  }

  function DigitChar(d: nat): (c: char)
    requires d < 10
    ensures IsDigit(c)
  {
    ('0' as int + d) as char
  }

  /** Decimal rendering of a natural number, as `ToString()` and string interpolation give it. */
  function NatToString(n: nat): (r: string)
    ensures |r| > 0 && IsDigits(r)
    decreases n
  {
    if n < 10 then [DigitChar(n)] else NatToString(n / 10) + [DigitChar(n % 10)]
  }

  /** Decimal rendering of an integer, with a leading '-' when negative. */
  function IntToString(i: int): string {
    if i < 0 then "-" + NatToString(-i) else NatToString(i)
  }

  /** The value of a string of decimal digits (what `double.Parse` gives for it). */
  function ParseDigits(s: string): nat
    requires IsDigits(s)
    decreases |s|
  {
    if s == [] then 0 else 10 * ParseDigits(s[..|s| - 1]) + (s[|s| - 1] as int - '0' as int)
  }

  /** Parsing undoes rendering. */
  lemma {:induction false} ParseRendered(n: nat)
    ensures ParseDigits(NatToString(n)) == n
    decreases n
  {
    if n >= 10 {
      var s := NatToString(n);
      assert s[..|s| - 1] == NatToString(n / 10);
      ParseRendered(n / 10);
    }
  }

  /** Distinct numbers render differently. */
  lemma NatToStringInjective(m: nat, n: nat)
    requires NatToString(m) == NatToString(n)
    ensures m == n
  {
    ParseRendered(m);
    ParseRendered(n);
  }

  /** Length of the longest prefix of `s` made of digits. */
  function DigitRun(s: string): (k: nat)
    ensures k <= |s| && IsDigits(s[..k])
    ensures k < |s| ==> !IsDigit(s[k])
    decreases |s|
  {
    if |s| > 0 && IsDigit(s[0]) then
      var k := 1 + DigitRun(s[1..]);
      assert s[..k] == [s[0]] + s[1..][..k - 1];
      k
    else 0
  }

  lemma {:induction false} DigitRunOfDigits(ds: string, rest: string)
    requires IsDigits(ds)
    requires |rest| > 0 && !IsDigit(rest[0])
    ensures DigitRun(ds + rest) == |ds|
    decreases |ds|
  {
    if |ds| > 0 {
      assert (ds + rest)[1..] == ds[1..] + rest;
      DigitRunOfDigits(ds[1..], rest);
    }
  }

  /** Match of `pre(\d*?)post` anchored at the start of `s`: the digits, when they
      are followed by `post`. Because `post` starts with a non-digit, the lazy
      quantifier takes exactly the maximal run of digits. */
  function MatchAt(s: string, pre: string, post: string): (r: Option<string>)
    ensures r.Some? ==> IsDigits(r.value)
  {
    if StartsWith(s, pre) then
      var rest := s[|pre|..];
      var k := DigitRun(rest);
      if StartsWith(rest[k..], post) then Some(rest[..k]) else None
    else None
  }

  /** `Regex.Match(s, pre + @"(\d*?)" + post)`: the group of the leftmost match. */
  function FindMatch(s: string, pre: string, post: string): (r: Option<string>)
    ensures r.Some? ==> IsDigits(r.value)
    decreases |s|
  {
    if MatchAt(s, pre, post).Some? then MatchAt(s, pre, post)
    else if |s| == 0 then None
    else FindMatch(s[1..], pre, post)
  }

  /** A line made of the prefix, a digit string and the suffix matches with exactly
      that digit string. */
  lemma MatchOfRendered(pre: string, ds: string, post: string)
    requires IsDigits(ds)
    requires |post| > 0 && !IsDigit(post[0])
    ensures FindMatch(pre + ds + post, pre, post) == Some(ds)
  {
    var s := pre + ds + post;
    assert s[..|pre|] == pre;
    var rest := s[|pre|..];
    assert rest == ds + post;
    DigitRunOfDigits(ds, post);
    assert rest[|ds|..] == post;
    assert rest[..|ds|] == ds;
  }

  /** `pre`, the digits `g` and `post` occur at index `i`, and no digit string
      completes the pattern at an earlier index: the leftmost match of
      `pre(\d*?)post`, with `g` as its group. */
  ghost predicate FirstMatchAt(s: string, pre: string, g: string, post: string, i: int) {
    IsDigits(g) && OccursAt(s, pre + g + post, i) &&
    forall j, ds :: 0 <= j < i && IsDigits(ds) ==> !OccursAt(s, pre + ds + post, j)
  }

  /** No digit string completes `pre(\d*?)post` anywhere in `s`. */
  ghost predicate NoMatch(s: string, pre: string, post: string) {
    forall i, ds :: IsDigits(ds) ==> !OccursAt(s, pre + ds + post, i)
  }

  /** An occurrence at `i` is the same as a prefix of the suffix from `i`. */
  lemma OccursAtSuffix(s: string, sub: string, i: int)
    requires 0 <= i <= |s|
    ensures OccursAt(s, sub, i) <==> StartsWith(s[i..], sub)
  {
    if i + |sub| <= |s| {
      assert s[i..][..|sub|] == s[i..i + |sub|];
    }
  }

  /** A line holding a match holds its prefix. */
  lemma MatchContainsPrefix(s: string, pre: string, g: string, post: string, i: int)
    requires OccursAt(s, pre + g + post, i)
    ensures Contains(s, pre)
  {
    assert s[i..i + |pre|] == (pre + g + post)[..|pre|];
    assert OccursAt(s, pre, i);
    ContainsAt(s, pre);
  }

  /** What the anchored match finds is really there. */
  lemma MatchAtSound(s: string, pre: string, post: string)
    requires MatchAt(s, pre, post).Some?
    ensures StartsWith(s, pre + MatchAt(s, pre, post).value + post)
  {
    var rest := s[|pre|..];
    var k := DigitRun(rest);
    var x := pre + rest[..k] + post;
    assert s[..|x|] == s[..|pre|] + rest[..k] + rest[k..][..|post|];
  }

  /** A digit string that completes the pattern at the start is what the anchored
      match finds. */
  lemma MatchAtComplete(s: string, pre: string, ds: string, post: string)
    requires IsDigits(ds)
    requires |post| > 0 && !IsDigit(post[0])
    requires StartsWith(s, pre + ds + post)
    ensures MatchAt(s, pre, post) == Some(ds)
  {
    var x := pre + ds + post;
    assert s[..|pre|] == x[..|pre|] == pre;
    var rest := s[|pre|..];
    assert rest == ds + post + s[|x|..] by {
      assert s == x + s[|x|..];
    }
    assert (ds + post + s[|x|..]) == ds + (post + s[|x|..]);
    DigitRunOfDigits(ds, post + s[|x|..]);
    assert rest[..|ds|] == ds;
    assert rest[|ds|..][..|post|] == post;
  }

  /** What FindMatch finds is the leftmost match. */
  lemma {:induction false} FindMatchFirst(s: string, pre: string, post: string)
    requires |post| > 0 && !IsDigit(post[0])
    requires FindMatch(s, pre, post).Some?
    ensures exists i :: FirstMatchAt(s, pre, FindMatch(s, pre, post).value, post, i)
    decreases |s|
  {
    var g := FindMatch(s, pre, post).value;
    if MatchAt(s, pre, post).Some? {
      MatchAtSound(s, pre, post);
      OccursAtSuffix(s, pre + g + post, 0);
      assert FirstMatchAt(s, pre, g, post, 0);
    } else {
      FindMatchFirst(s[1..], pre, post);
      var i :| FirstMatchAt(s[1..], pre, g, post, i);
      var x := pre + g + post;
      assert OccursAt(s[1..], x, i);
      assert s[i + 1..i + 1 + |x|] == s[1..][i..i + |x|];
      forall j, ds | 0 <= j < i + 1 && IsDigits(ds)
        ensures !OccursAt(s, pre + ds + post, j)
      {
        var y := pre + ds + post;
        if OccursAt(s, y, j) {
          if j == 0 {
            OccursAtSuffix(s, y, 0);
            MatchAtComplete(s, pre, ds, post);
          } else {
            assert s[1..][j - 1..j - 1 + |y|] == s[j..j + |y|];
            assert OccursAt(s[1..], y, j - 1);
          }
        }
      }
      assert FirstMatchAt(s, pre, g, post, i + 1);
    }
  }

  /** Wherever a digit string completes the pattern, FindMatch finds a match. */
  lemma {:induction false} FindMatchComplete(s: string, pre: string, ds: string, post: string, i: int)
    requires IsDigits(ds)
    requires |post| > 0 && !IsDigit(post[0])
    requires OccursAt(s, pre + ds + post, i)
    ensures FindMatch(s, pre, post).Some?
    decreases i
  {
    var x := pre + ds + post;
    if MatchAt(s, pre, post).None? {
      if i == 0 {
        OccursAtSuffix(s, x, 0);
        MatchAtComplete(s, pre, ds, post);
      } else {
        assert s[1..][i - 1..i - 1 + |x|] == s[i..i + |x|];
        FindMatchComplete(s[1..], pre, ds, post, i - 1);
      }
    }
  }

  /** There is at most one leftmost match. */
  lemma FirstMatchUnique(s: string, pre: string, post: string, g1: string, i1: int, g2: string, i2: int)
    requires |post| > 0 && !IsDigit(post[0])
    requires FirstMatchAt(s, pre, g1, post, i1) && FirstMatchAt(s, pre, g2, post, i2)
    ensures g1 == g2 && i1 == i2
  {
    if i1 < i2 {
      assert false;
    } else if i2 < i1 {
      assert false;
    } else {
      OccursAtSuffix(s, pre + g1 + post, i1);
      OccursAtSuffix(s, pre + g2 + post, i1);
      MatchAtComplete(s[i1..], pre, g1, post);
      MatchAtComplete(s[i1..], pre, g2, post);
    }
  }

  /** `Regex.Match(s, pre + @"(\d*?)" + post)` succeeds with group `g` exactly when
      `g` is the group of the leftmost match. */
  lemma FindMatchIff(s: string, pre: string, post: string, g: string)
    requires |post| > 0 && !IsDigit(post[0])
    ensures FindMatch(s, pre, post) == Some(g) <==> exists i :: FirstMatchAt(s, pre, g, post, i)
  {
    if exists i :: FirstMatchAt(s, pre, g, post, i) {
      var i :| FirstMatchAt(s, pre, g, post, i);
      FindMatchComplete(s, pre, g, post, i);
      FindMatchFirst(s, pre, post);
      var i' :| FirstMatchAt(s, pre, FindMatch(s, pre, post).value, post, i');
      FirstMatchUnique(s, pre, post, g, i, FindMatch(s, pre, post).value, i');
    } else if FindMatch(s, pre, post).Some? {
      FindMatchFirst(s, pre, post);
    }
  }

  /** The match fails exactly when no digit string completes the pattern anywhere. */
  lemma FindMatchNone(s: string, pre: string, post: string)
    requires |post| > 0 && !IsDigit(post[0])
    ensures FindMatch(s, pre, post).None? <==> NoMatch(s, pre, post)
  {
    if FindMatch(s, pre, post).Some? {
      FindMatchFirst(s, pre, post);
    } else {
      forall i, ds | IsDigits(ds) ensures !OccursAt(s, pre + ds + post, i) {
        if OccursAt(s, pre + ds + post, i) {
          FindMatchComplete(s, pre, ds, post, i);
        }
      }
    }
  }

  datatype Option<T> = None | Some(value: T)

  /** The value of an operation, or the error it raises. */
  datatype Result<T, E> = Success(value: T) | Failure(error: E)

  /** How reading an output stream ends: at end of stream, or with an exception
      carrying a message. */
  datatype StreamEnd = EndOfStream | ReadFailure(message: string)

  /** A process output stream as a reader sees it: the stream object could not be
      obtained, or the lines it delivers and how it ends. */
  datatype LineStream = Unavailable | Lines(lines: seq<string>, end: StreamEnd)
}
