/** The JavaScript string built-ins the progression engine relies on:
    `trim`, `toLowerCase` and `split(/\s+/)`. A Dafny `char` is one Unicode
    scalar value; `JsLength` gives the UTF-16 length the source measures. */
module Text {

  /** The characters JavaScript's `trim` strips and the regular-expression
      class `\s` matches: the WhiteSpace and LineTerminator characters. */
  const Spaces: set<char> := {
    '\t', '\n', '\U{000B}', '\U{000C}', '\r', ' ', '\U{00A0}', '\U{1680}',
    '\U{2000}', '\U{2001}', '\U{2002}', '\U{2003}', '\U{2004}', '\U{2005}',
    '\U{2006}', '\U{2007}', '\U{2008}', '\U{2009}', '\U{200A}',
    '\U{2028}', '\U{2029}', '\U{202F}', '\U{205F}', '\U{3000}', '\U{FEFF}'
  }

  predicate IsSpace(c: char) {
    c in Spaces
  }

  predicate NoSpace(s: string) {
    forall k :: 0 <= k < |s| ==> !IsSpace(s[k])
  }

  /** `s` without its leading white space. */
  function TrimStart(s: string): (r: string)
    ensures |r| <= |s| && r == s[|s| - |r|..]
    ensures forall k :: 0 <= k < |s| - |r| ==> IsSpace(s[k])
    ensures r == [] || !IsSpace(r[0])
    ensures s != [] && IsSpace(s[0]) ==> |r| < |s|
  {
    if s != [] && IsSpace(s[0]) then TrimStart(s[1..]) else s
  }

  /** `s` without its trailing white space. */
  function TrimEnd(s: string): (r: string)
    ensures |r| <= |s| && r == s[..|r|]
    ensures forall k :: |r| <= k < |s| ==> IsSpace(s[k])
    ensures r == [] || !IsSpace(r[|r| - 1])
  {
    if s != [] && IsSpace(s[|s| - 1]) then TrimEnd(s[..|s| - 1]) else s
  }

  /** The number of white-space characters `s` starts with. */
  function LeadingSpaces(s: string): (n: nat)
    ensures n <= |s| && (forall k :: 0 <= k < n ==> IsSpace(s[k]))
    ensures n < |s| ==> !IsSpace(s[n])
  {
    if s != [] && IsSpace(s[0]) then 1 + LeadingSpaces(s[1..]) else 0
  }

  /** `r` is what trimming leaves of `s`: the slice right after the leading
      white space, followed by nothing but white space, and neither starting
      nor ending with white space; it is empty exactly when `s` is all white
      space. */
  predicate TrimmedFrom(s: string, r: string) {
    && SliceAt(s, LeadingSpaces(s), r)
    && (forall k :: LeadingSpaces(s) + |r| <= k < |s| ==> IsSpace(s[k]))
    && (r == [] || (!IsSpace(r[0]) && !IsSpace(r[|r| - 1])))
    && (r == [] <==> forall k :: 0 <= k < |s| ==> IsSpace(s[k]))
  }

  /** JavaScript's `s.trim()`: the part of `s` between its leading and its
      trailing white space. */
  function Trim(s: string): (r: string)
    ensures |r| <= |s| && TrimmedFrom(s, r)
  {
    TrimBothEnds(s, TrimStart(s), TrimEnd(TrimStart(s)));
    TrimEnd(TrimStart(s))
  }

  lemma TrimBothEnds(s: string, t: string, r: string)
    requires t == TrimStart(s) && r == TrimEnd(t)
    ensures TrimmedFrom(s, r)
  {
    TrimStartDropsLeading(s);
    MiddleSlice(s, t, r, LeadingSpaces(s));
    if r != [] {
      assert r[0] == t[0];
    } else {
      assert t == [];
    }
  }

  /** `r` occurs in `s` starting at index `a`. */
  predicate SliceAt(s: string, a: int, r: string) {
    0 <= a && a + |r| <= |s| && r == s[a..a + |r|]
  }

  /** A prefix of a suffix is a middle slice, and what a suffix ends with
      the whole string ends with. */
  lemma MiddleSlice(s: string, t: string, r: string, a: nat)
    requires a <= |s| && t == s[a..] && |r| <= |t| && r == t[..|r|]
    requires forall k :: |r| <= k < |t| ==> IsSpace(t[k])
    ensures SliceAt(s, a, r)
    ensures forall k :: a + |r| <= k < |s| ==> IsSpace(s[k])
  {
    forall k | a + |r| <= k < |s| ensures IsSpace(s[k]) {
      assert s[k] == t[k - a];
    }
  }

  /** `TrimStart` drops exactly the leading white space. */
  lemma {:induction false} TrimStartDropsLeading(s: string)
    ensures |TrimStart(s)| == |s| - LeadingSpaces(s)
  {
    if s != [] && IsSpace(s[0]) {
      TrimStartDropsLeading(s[1..]);
    }
  }

  /** Trimming twice trims nothing more. */
  lemma TrimIdempotent(s: string)
    ensures Trim(Trim(s)) == Trim(s)
  {
    var t := Trim(s);
    if t != [] {
      assert TrimStart(t) == t;
      assert TrimEnd(t) == t;
    }
  }

  /** JavaScript's `length` counts UTF-16 code units: a character beyond the
      Basic Multilingual Plane takes two of them. */
  function Units(c: char): nat {
    if c as int > 0xFFFF then 2 else 1
  }

  function JsLength(s: string): (n: nat)
    ensures |s| <= n <= 2 * |s|
    ensures (forall k :: 0 <= k < |s| ==> s[k] as int <= 0xFFFF) ==> n == |s|
  {
    if s == [] then 0 else Units(s[0]) + JsLength(s[1..])
  }

  lemma {:induction false} JsLengthAppend(a: string, b: string)
    ensures JsLength(a + b) == JsLength(a) + JsLength(b)
  {
    if a == [] {
      assert a + b == b;
    } else {
      assert (a + b)[0] == a[0];
      assert (a + b)[1..] == a[1..] + b;
      JsLengthAppend(a[1..], b);
    }
  }

  /** LATIN CAPITAL LETTER I WITH DOT ABOVE, the one character whose lower
      case is longer than itself: `"i\u0307"`. */
  const DottedCapitalI: char := '\U{0130}'

  /** `toLowerCase` of one character, on the ASCII letters and U+0130; every
      other character is kept. */
  function LowerChar(c: char): (d: string)
    ensures c == DottedCapitalI ==> d == "i\U{0307}"
    ensures 'A' <= c <= 'Z' ==> |d| == 1 && 'a' <= d[0] <= 'z' && d[0] as int - c as int == 32
    ensures c != DottedCapitalI && !('A' <= c <= 'Z') ==> d == [c]
    ensures JsLength(d) == Units(c) + (if c == DottedCapitalI then 1 else 0)
  {
    if c == DottedCapitalI then "i\U{0307}"
    else if 'A' <= c <= 'Z' then [(c as int + 32) as char]
    else [c]
  }

  /** `toLowerCase`: each character lower-cased in place; the result has one
      more character, and one more code unit, per U+0130. */
  function ToLower(s: string): (r: string)
    ensures |r| == |s| + multiset(s)[DottedCapitalI]
    ensures JsLength(r) == JsLength(s) + multiset(s)[DottedCapitalI]
  {
    if s == [] then []
    else
      var head, rest := LowerChar(s[0]), ToLower(s[1..]);
      assert multiset(s) == multiset([s[0]]) + multiset(s[1..]) by {
        assert s == [s[0]] + s[1..];
      }
      JsLengthAppend(head, rest);
      head + rest
  }

  /** Without U+0130, lower-casing maps the string character for character. */
  lemma {:induction false} ToLowerInPlace(s: string)
    requires DottedCapitalI !in s
    ensures |ToLower(s)| == |s| && forall k :: 0 <= k < |s| ==> [ToLower(s)[k]] == LowerChar(s[k])
  {
    if s != [] {
      assert DottedCapitalI !in s[1..];
      ToLowerInPlace(s[1..]);
      var head, rest := LowerChar(s[0]), ToLower(s[1..]);
      assert |head| == 1 && [head[0]] == head;
      assert ToLower(s) == head + rest;
      forall k | 0 <= k < |s| ensures [ToLower(s)[k]] == LowerChar(s[k]) {
        if k == 0 {
          assert ToLower(s)[0] == head[0];
        } else {
          assert ToLower(s)[k] == rest[k - 1] && s[k] == s[1..][k - 1];
        }
      }
    }
  }

  /** The length of the longest prefix of `s` holding no white space. */
  function WordEnd(s: string): (n: nat)
    ensures n <= |s| && NoSpace(s[..n])
    ensures n < |s| ==> IsSpace(s[n])
  {
    if s == [] || IsSpace(s[0]) then 0
    else
      var n := 1 + WordEnd(s[1..]);
      assert s[..n] == [s[0]] + s[1..][..n - 1];
      n
  }

  function Concat(pieces: seq<string>): string {
    if pieces == [] then [] else pieces[0] + Concat(pieces[1..])
  }

  /** The non-white-space characters of `s`, in order. */
  function NonSpace(s: string): string {
    if s == [] then [] else (if IsSpace(s[0]) then [] else [s[0]]) + NonSpace(s[1..])
  }

  lemma {:induction false} NonSpaceAppend(a: string, b: string)
    ensures NonSpace(a + b) == NonSpace(a) + NonSpace(b)
  {
    if a != [] {
      assert (a + b)[0] == a[0];
      assert (a + b)[1..] == a[1..] + b;
      NonSpaceAppend(a[1..], b);
    } else {
      assert a + b == b;
    }
  }

  lemma {:induction false} NonSpaceOfWord(s: string)
    requires NoSpace(s)
    ensures NonSpace(s) == s
  {
    if s != [] { NonSpaceOfWord(s[1..]); }
  }

  lemma {:induction false} NonSpaceOfTrimStart(s: string)
    ensures NonSpace(TrimStart(s)) == NonSpace(s)
  {
    if s != [] && IsSpace(s[0]) { NonSpaceOfTrimStart(s[1..]); }
  }

  /** The number of maximal runs of white space in `s`, counted as the white
      space characters not followed by another one. */
  function Runs(s: string): nat {
    if s == [] then 0
    else (if IsSpace(s[0]) && (|s| == 1 || !IsSpace(s[1])) then 1 else 0) + Runs(s[1..])
  }

  /** Characters other than white space end no run. */
  lemma {:induction false} RunsAfterWord(s: string, n: nat)
    requires n <= |s| && NoSpace(s[..n])
    ensures Runs(s) == Runs(s[n..])
  {
    if n > 0 {
      assert !IsSpace(s[0]) by { assert s[..n][0] == s[0]; }
      assert s[1..][..n - 1] == s[..n][1..];
      RunsAfterWord(s[1..], n - 1);
      assert s[1..][n - 1..] == s[n..];
    }
  }

  /** A string that starts with white space has one run more than what follows it. */
  lemma {:induction false} RunsOfLeadingSpace(t: string)
    requires t != [] && IsSpace(t[0])
    ensures Runs(t) == 1 + Runs(TrimStart(t))
  {
    if |t| == 1 || !IsSpace(t[1]) {
      assert TrimStart(t[1..]) == t[1..];
    } else {
      RunsOfLeadingSpace(t[1..]);
    }
  }

  /** JavaScript's `s.split(/\s+/)`: the pieces between maximal runs of white
      space, with an empty piece before a leading run and after a trailing one. */
  function SplitWs(s: string): (r: seq<string>)
    ensures r != []
    ensures forall k :: 0 <= k < |r| ==> NoSpace(r[k])
    ensures Concat(r) == NonSpace(s)
    decreases |s|
  {
    var n := WordEnd(s);
    if n == |s| then
      assert s[..n] == s;
      NonSpaceOfWord(s);
      [s]
    else
      var rec := SplitWs(TrimStart(s[n..]));
      assert s == s[..n] + s[n..];
      NonSpaceAppend(s[..n], s[n..]);
      NonSpaceOfWord(s[..n]);
      NonSpaceOfTrimStart(s[n..]);
      assert ([s[..n]] + rec)[1..] == rec;
      [s[..n]] + rec
  }

  /** `split(/\s+/)` gives one piece more than there are runs of white space. */
  lemma {:induction false} SplitWsCount(s: string)
    ensures |SplitWs(s)| == 1 + Runs(s)
    decreases |s|
  {
    var n := WordEnd(s);
    RunsAfterWord(s, n);
    if n < |s| {
      RunsOfLeadingSpace(s[n..]);
      SplitWsCount(TrimStart(s[n..]));
    }
  }

  /** The word count used by the source: the number of pieces of
      `split(/\s+/)`, one more than the runs of white space. */
  function WordCount(s: string): (n: nat)
    ensures n == 1 + Runs(s)
  {
    SplitWsCount(s);
    |SplitWs(s)|
  }
}
