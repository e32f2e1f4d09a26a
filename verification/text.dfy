/**
 * The parts of Python's `str` that the core relies on, over `seq<char>`:
 * `lower`, `in`, `split`, `strip`, `join`, `replace` and `str(int)`.
 * Case and white space are those of ASCII.
 */
module Text {

  /** Python's `str.isspace()` on one character, restricted to ASCII. */
  predicate IsSpace(c: char) {
    c == ' ' || ('\t' <= c <= '\r') || ('\U{1C}' <= c <= '\U{1F}')
  }

  predicate IsUpper(c: char) {
    'A' <= c <= 'Z'
  }

  /** Python's `str.lower()` on one character, restricted to ASCII. */
  function LowerChar(c: char): (r: char)
    ensures !IsUpper(r)
    ensures !IsUpper(c) ==> r == c
    ensures IsUpper(c) ==> r as int - c as int == 'a' as int - 'A' as int
  {
    if IsUpper(c) then (c as int + 32) as char else c
  }

  /** Python's `s.lower()`: every upper-case letter replaced by its lower-case one. */
  function Lower(s: string): (r: string)
    ensures |r| == |s|
    ensures forall i :: 0 <= i < |s| ==> r[i] == LowerChar(s[i])
    ensures forall i :: 0 <= i < |r| ==> !IsUpper(r[i])
  {
    seq(|s|, i requires 0 <= i < |s| => LowerChar(s[i]))
  }

  /** Python's `pattern in s`. */
  predicate Contains(s: string, pattern: string)
    decreases |s|
  {
    pattern <= s || (|s| > 0 && Contains(s[1..], pattern))
  }

  /** `pattern` occurs in `s` starting at index `i`. */
  predicate OccursAt(s: string, pattern: string, i: int) {
    0 <= i && i + |pattern| <= |s| && s[i..i + |pattern|] == pattern
  }

  /** `Contains` holds exactly when `pattern` occurs as a contiguous slice of `s`. */
  lemma {:induction false} ContainsIffOccurs(s: string, pattern: string)
    ensures Contains(s, pattern) <==> exists i :: OccursAt(s, pattern, i)
    decreases |s|
  {
    if pattern <= s {
      assert OccursAt(s, pattern, 0);
    } else if |s| == 0 {
    } else {
      ContainsIffOccurs(s[1..], pattern);
      if exists i :: OccursAt(s, pattern, i) {
        var i :| OccursAt(s, pattern, i);
        assert i != 0;
        assert s[1..][i - 1..i - 1 + |pattern|] == s[i..i + |pattern|];
        assert OccursAt(s[1..], pattern, i - 1);
      }
      if Contains(s[1..], pattern) {
        var j :| OccursAt(s[1..], pattern, j);
        assert s[1..][j..j + |pattern|] == s[j + 1..j + 1 + |pattern|];
        assert OccursAt(s, pattern, j + 1);
      }
    }
  }

  /** Python's `s.split("\n")[0]`: everything before the first line break. */
  function FirstLine(s: string): (r: string)
    ensures r <= s
    ensures '\n' !in r
    ensures |r| < |s| ==> s[|r|] == '\n'
  {
    if s == [] || s[0] == '\n' then [] else [s[0]] + FirstLine(s[1..])
  }

  /** Python's `s.lstrip()`. */
  function TrimStart(s: string): (r: string)
    ensures |r| <= |s| && r == s[|s| - |r|..]
    ensures forall i :: 0 <= i < |s| - |r| ==> IsSpace(s[i])
    ensures r != [] ==> !IsSpace(r[0])
  {
    if s != [] && IsSpace(s[0]) then TrimStart(s[1..]) else s
  }

  /** Python's `s.rstrip()`. */
  function TrimEnd(s: string): (r: string)
    ensures r <= s
    ensures forall i :: |r| <= i < |s| ==> IsSpace(s[i])
    ensures r != [] ==> !IsSpace(r[|r| - 1])
  {
    if s != [] && IsSpace(s[|s| - 1]) then TrimEnd(s[..|s| - 1]) else s
  }

  /** Every character of `g` is white space. */
  predicate AllSpace(g: string) {
    forall i :: 0 <= i < |g| ==> IsSpace(g[i])
  }

  /**
   * Python's `s.strip()`: the slice of `s` left once the white space at both
   * ends is cut off; empty exactly when `s` is all white space, and otherwise
   * without white space at either end.
   */
  function Strip(s: string): (r: string)
    ensures |r| <= |s|
    ensures r != [] ==> !IsSpace(r[0]) && !IsSpace(r[|r| - 1])
    ensures r == [] <==> AllSpace(s)
  {
    var t := TrimStart(s);
    var r := TrimEnd(t);
    assert r != [] ==> r[0] == t[0];
    assert r == [] ==> t == [] by {
      if r == [] && t != [] {
        assert false;
      }
    }
    r
  }

  /** `Strip(s)` is the slice of `s` between white space at its front and at its back. */
  lemma {:induction false} StripIsSlice(s: string)
    ensures exists i, j :: 0 <= i <= j <= |s| && Strip(s) == s[i..j] && AllSpace(s[..i]) && AllSpace(s[j..])
  {
    var t := TrimStart(s);
    var r := TrimEnd(t);
    var i := |s| - |t|;
    var j := i + |r|;
    LeadingSpace(s);
    TrailingSpace(t);
    assert s[j..] == t[|r|..];
    assert Strip(s) == s[i..j];
  }

  /** What `lstrip()` cuts off is white space. */
  lemma LeadingSpace(s: string)
    ensures AllSpace(s[..|s| - |TrimStart(s)|])
  {
    var k := |s| - |TrimStart(s)|;
    forall i | 0 <= i < k
      ensures IsSpace(s[..k][i])
    {
      assert s[..k][i] == s[i];
    }
  }

  /** What `rstrip()` cuts off is white space. */
  lemma TrailingSpace(t: string)
    ensures AllSpace(t[|TrimEnd(t)|..])
  {
    var k := |TrimEnd(t)|;
    forall i | 0 <= i < |t| - k
      ensures IsSpace(t[k..][i])
    {
      assert t[k..][i] == t[k + i];
    }
  }

  /** A word of Python's `str.split()`: non-empty and free of white space. */
  predicate IsWord(w: string) {
    w != [] && forall i :: 0 <= i < |w| ==> !IsSpace(w[i])
  }

  /** The longest prefix of `s` without white space. */
  function LeadingWord(s: string): (w: string)
    ensures w <= s
    ensures forall i :: 0 <= i < |w| ==> !IsSpace(w[i])
    ensures |w| < |s| ==> IsSpace(s[|w|])
  {
    if s == [] || IsSpace(s[0]) then [] else [s[0]] + LeadingWord(s[1..])
  }

  /** `gaps[0] + words[0] + gaps[1] + ... + words[n - 1] + gaps[n]`. */
  function Interleave(gaps: seq<string>, words: seq<string>): string
    requires |gaps| == |words| + 1
    decreases words
  {
    if words == [] then gaps[0] else gaps[0] + words[0] + Interleave(gaps[1..], words[1..])
  }

  /**
   * `s` is `words` with white-space `gaps` around them, the gaps between two
   * words non-empty: the words are then the maximal non-white-space runs of `s`.
   */
  predicate SplitsInto(s: string, gaps: seq<string>, words: seq<string>) {
    && |gaps| == |words| + 1
    && (forall k :: 0 <= k < |gaps| ==> AllSpace(gaps[k]))
    && (forall k :: 0 < k < |words| ==> gaps[k] != [])
    && (forall k :: 0 <= k < |words| ==> IsWord(words[k]))
    && s == Interleave(gaps, words)
  }

  /** Python's `s.split()` with no separator: the maximal runs of non-white-space characters, in order. */
  function SplitWhitespace(s: string): (words: seq<string>)
    ensures forall k :: 0 <= k < |words| ==> IsWord(words[k])
    decreases |s|
  {
    var t := TrimStart(s);
    if t == [] then []
    else
      var w := LeadingWord(t);
      [w] + SplitWhitespace(t[|w|..])
  }

  /** `s` splits into the words `SplitWhitespace` returns. */
  lemma {:induction false} SplitWhitespaceSplits(s: string)
    ensures exists gaps :: SplitsInto(s, gaps, SplitWhitespace(s))
    decreases |s|
  {
    var t := TrimStart(s);
    if t == [] {
      assert AllSpace(s) && SplitWhitespace(s) == [];
      assert SplitsInto(s, [s], []);
    } else {
      var prefix, w := s[..|s| - |t|], LeadingWord(t);
      var rest := t[|w|..];
      SplitWhitespaceSplits(rest);
      var gaps :| SplitsInto(rest, gaps, SplitWhitespace(rest));
      SplitWhitespaceStep(s, prefix, w, rest);
      SplitCons(s, prefix, w, rest, gaps, SplitWhitespace(rest));
    }
  }

  /** The step of `SplitWhitespaceSplits`: `s` is its leading white space, its first word and the rest, and `split()` takes that word first. */
  lemma SplitWhitespaceStep(s: string, prefix: string, w: string, rest: string)
    requires TrimStart(s) != []
    requires prefix == s[..|s| - |TrimStart(s)|] && w == LeadingWord(TrimStart(s)) && rest == TrimStart(s)[|w|..]
    ensures AllSpace(prefix) && IsWord(w) && (rest == [] || IsSpace(rest[0]))
    ensures s == prefix + w + rest
    ensures SplitWhitespace(s) == [w] + SplitWhitespace(rest)
  {
    LeadingSpaceAndWord(s, prefix, w, rest);
    FirstWord(TrimStart(s));
  }

  /** A text starting with a non-space starts with a word, followed by nothing or by white space. */
  lemma FirstWord(t: string)
    requires t != [] && !IsSpace(t[0])
    ensures var w := LeadingWord(t);
      && IsWord(w)
      && (t[|w|..] == [] || IsSpace(t[|w|..][0]))
  {
    var w := LeadingWord(t);
    assert w != [];
    if t[|w|..] != [] {
      assert t[|w|..][0] == t[|w|];
    }
  }

  /** `s` is its leading white space, then its first word, then the rest. */
  lemma LeadingSpaceAndWord(s: string, prefix: string, w: string, rest: string)
    requires prefix == s[..|s| - |TrimStart(s)|] && w == LeadingWord(TrimStart(s)) && rest == TrimStart(s)[|w|..]
    ensures AllSpace(prefix)
    ensures s == prefix + w + rest
  {
    var t := TrimStart(s);
    var k := |s| - |t|;
    assert AllSpace(prefix) by {
      forall i | 0 <= i < |prefix|
        ensures IsSpace(prefix[i])
      {
        assert prefix[i] == s[i];
      }
    }
    assert s == prefix + w + rest by {
      assert s[k..] == t && w == t[..|w|];
      SplitAround(s, k, |w|);
    }
  }

  /** A sequence is its first `k` elements, the next `m`, and the rest. */
  lemma SplitAround<T>(s: seq<T>, k: nat, m: nat)
    requires k + m <= |s|
    ensures s == s[..k] + s[k..][..m] + s[k..][m..]
  {
    assert s[k..] == s[k..][..m] + s[k..][m..];
    assert s == s[..k] + s[k..];
    ConcatAssoc(s[..k], s[k..][..m], s[k..][m..]);
  }

  /** Concatenation is associative; stated once so that callers can name the regrouping. */
  lemma ConcatAssoc<T>(a: seq<T>, b: seq<T>, c: seq<T>)
    ensures (a + b) + c == a + (b + c)
  {
  }

  /** `SplitWhitespace(s)` is `words` exactly when `s` is `words` separated by white space: the maximal runs. */
  lemma {:induction false} SplitWhitespaceIff(s: string, words: seq<string>)
    ensures SplitWhitespace(s) == words <==> exists gaps :: SplitsInto(s, gaps, words)
  {
    SplitWhitespaceSplits(s);
    if exists gaps :: SplitsInto(s, gaps, words) {
      var gaps :| SplitsInto(s, gaps, words);
      SplitOfInterleave(s, gaps, words);
    }
  }

  /** A word between leading white space and a remainder that splits into `words` adds one gap and one word. */
  lemma {:induction false} SplitCons(s: string, prefix: string, w: string, rest: string, gaps: seq<string>, words: seq<string>)
    requires AllSpace(prefix) && IsWord(w) && (rest == [] || IsSpace(rest[0]))
    requires s == prefix + w + rest
    requires SplitsInto(rest, gaps, words)
    ensures SplitsInto(s, [prefix] + gaps, [w] + words)
  {
    var g := [prefix] + gaps;
    assert words != [] ==> gaps[0] != [];
    assert g[1..] == gaps && ([w] + words)[1..] == words;
    assert Interleave(g, [w] + words) == prefix + w + rest;
  }

  /** Leading white space does not change the words. */
  lemma {:induction false} SplitAfterAllSpace(g: string, t: string)
    requires AllSpace(g)
    ensures SplitWhitespace(g + t) == SplitWhitespace(t)
    decreases |g|
  {
    if g != [] {
      assert (g + t)[1..] == g[1..] + t;
      assert TrimStart(g + t) == TrimStart(g[1..] + t);
      SplitAfterAllSpace(g[1..], t);
    } else {
      assert g + t == t;
    }
  }

  /**
   * The decomposition into words and gaps is unique: whenever `s` splits into
   * `words`, `SplitWhitespace(s)` is those words.
   */
  lemma {:induction false} SplitOfInterleave(s: string, gaps: seq<string>, words: seq<string>)
    requires SplitsInto(s, gaps, words)
    ensures SplitWhitespace(s) == words
    decreases words
  {
    if words == [] {
      SplitAfterAllSpace(gaps[0], []);
      assert gaps[0] + [] == gaps[0];
      assert TrimStart([]) == [];
    } else {
      var w, rest := words[0], Interleave(gaps[1..], words[1..]);
      assert words == [w] + words[1..];
      SplitsIntoTail(s, gaps, words);
      SplitOfInterleave(rest, gaps[1..], words[1..]);
      SplitLeadingWord(w, rest);
      SplitAfterAllSpace(gaps[0], w + rest);
      assert SplitWhitespace(s) == SplitWhitespace(w + rest) == [w] + SplitWhitespace(rest);
    }
  }

  /** After the first gap and word, the rest of a decomposition is one too, and starts with white space. */
  lemma {:induction false} SplitsIntoTail(s: string, gaps: seq<string>, words: seq<string>)
    requires SplitsInto(s, gaps, words) && words != []
    ensures var rest := Interleave(gaps[1..], words[1..]);
      && SplitsInto(rest, gaps[1..], words[1..])
      && (rest == [] || IsSpace(rest[0]))
      && s == gaps[0] + (words[0] + rest)
  {
    var rest := Interleave(gaps[1..], words[1..]);
    forall k | 0 < k < |words[1..]|
      ensures gaps[1..][k] != []
    {
      assert gaps[1..][k] == gaps[k + 1];
    }
    if |words| > 1 {
      assert gaps[1..][1..] == gaps[2..] && words[1..][1..] == words[2..];
      assert rest == gaps[1] + words[1] + Interleave(gaps[2..], words[2..]);
      assert gaps[1] != [] && AllSpace(gaps[1]);
    }
  }

  /** Python's `sep.join(parts)`. */
  function Join(parts: seq<string>, sep: string): string
  {
    if |parts| == 0 then ""
    else if |parts| == 1 then parts[0]
    else parts[0] + (sep + Join(parts[1..], sep))
  }

  lemma JoinStartsWithFirst(parts: seq<string>, sep: string)
    requires |parts| >= 1
    ensures parts[0] <= Join(parts, sep)
  {
  }

  lemma LeadingWordOf(w: string, rest: string)
    requires IsWord(w)
    requires rest == [] || IsSpace(rest[0])
    ensures LeadingWord(w + rest) == w
  {
    if |w| > 1 {
      assert (w + rest)[1..] == w[1..] + rest;
      LeadingWordOf(w[1..], rest);
    }
  }

  lemma SplitAfterSpace(s: string)
    ensures SplitWhitespace(" " + s) == SplitWhitespace(s)
  {
    assert (" " + s)[1..] == s;
  }

  /** A word followed by white space (or nothing) is split off as the first word. */
  lemma SplitLeadingWord(w: string, rest: string)
    requires IsWord(w)
    requires rest == [] || IsSpace(rest[0])
    ensures SplitWhitespace(w + rest) == [w] + SplitWhitespace(rest)
  {
    var s := w + rest;
    assert TrimStart(s) == s by {
      assert s[0] == w[0];
    }
    LeadingWordOf(w, rest);
    assert s[|w|..] == rest;
  }

  /** A single word splits back to itself. */
  lemma SplitJoinSingle(w: string)
    requires IsWord(w)
    ensures SplitWhitespace(Join([w], " ")) == [w]
  {
    SplitLeadingWord(w, []);
    assert w + [] == w;
    assert SplitWhitespace([]) == [];
  }

  /** One word in front of a joined list that splits back splits back too. */
  lemma SplitJoinCons(w: string, rest: seq<string>)
    requires IsWord(w) && |rest| >= 1
    requires SplitWhitespace(Join(rest, " ")) == rest
    ensures SplitWhitespace(Join([w] + rest, " ")) == [w] + rest
  {
    var joined := Join(rest, " ");
    calc {
      SplitWhitespace(Join([w] + rest, " "));
      { assert ([w] + rest)[0] == w && ([w] + rest)[1..] == rest; }
      SplitWhitespace(w + (" " + joined));
      { SplitLeadingWord(w, " " + joined); }
      [w] + SplitWhitespace(" " + joined);
      { SplitAfterSpace(joined); }
      [w] + rest;
    }
  }

  /** A word in front of any list that splits back splits back too. */
  lemma SplitJoinFront(w: string, rest: seq<string>)
    requires IsWord(w)
    requires SplitWhitespace(Join(rest, " ")) == rest
    ensures SplitWhitespace(Join([w] + rest, " ")) == [w] + rest
  {
    if rest == [] {
      SplitJoinSingle(w);
      assert [w] + rest == [w];
    } else {
      SplitJoinCons(w, rest);
    }
  }

  /** Splitting words joined by single spaces gives the words back. */
  lemma {:induction false} SplitJoinRoundTrip(words: seq<string>)
    requires forall k :: 0 <= k < |words| ==> IsWord(words[k])
    ensures SplitWhitespace(Join(words, " ")) == words
  {
    if words == [] {
      assert Join(words, " ") == "" && TrimStart("") == "";
    } else {
      var w, rest := words[0], words[1..];
      assert [w] + rest == words;
      SplitJoinRoundTrip(rest);
      SplitJoinFront(w, rest);
    }
  }

  function Digit(d: nat): (c: char)
    requires d < 10
    ensures '0' <= c <= '9'
  {
    ('0' as int + d) as char
  }

  /** Python's `str(n)` for a natural number: decimal digits, most significant first, no leading zero. */
  function NatToString(n: nat): (r: string)
    ensures 1 <= |r|
    ensures forall i :: 0 <= i < |r| ==> '0' <= r[i] <= '9'
    ensures r[0] == '0' <==> n == 0
    ensures |r| == 1 <==> n < 10
  {
    if n < 10 then [Digit(n)] else NatToString(n / 10) + [Digit(n % 10)]
  }

  /** The number a string of decimal digits denotes. */
  function DigitsValue(s: string): nat
    requires forall i :: 0 <= i < |s| ==> '0' <= s[i] <= '9'
  {
    if s == [] then 0 else DigitsValue(s[..|s| - 1]) * 10 + (s[|s| - 1] as int - '0' as int)
  }

  /** Reading back the digits of `n` gives `n`. */
  lemma {:induction false} NatToStringRoundTrip(n: nat)
    ensures DigitsValue(NatToString(n)) == n
  {
    if n >= 10 {
      NatToStringRoundTrip(n / 10);
      var r := NatToString(n);
      assert r[..|r| - 1] == NatToString(n / 10);
    }
  }

  /** Python's `str(i)` (and `f"{i}"`) for an integer. */
  function IntToString(i: int): (r: string)
    ensures r != []
    ensures i < 0 <==> r[0] == '-'
    ensures var digits := if i < 0 then r[1..] else r;
            && digits != []
            && (forall k :: 0 <= k < |digits| ==> '0' <= digits[k] <= '9')
            && DigitsValue(digits) == if i < 0 then -i else i
  {
    if i < 0 then
      NatToStringRoundTrip(-i);
      assert ("-" + NatToString(-i))[1..] == NatToString(-i);
      "-" + NatToString(-i)
    else
      NatToStringRoundTrip(i);
      NatToString(i)
  }

  function CountChar(s: string, c: char): nat
  {
    if s == [] then 0 else (if s[0] == c then 1 else 0) + CountChar(s[1..], c)
  }

  /** Python's `s.replace('"', '""')`: every double quote doubled. */
  function EscapeQuotes(s: string): (r: string)
    ensures |r| == |s| + CountChar(s, '"')
  {
    if s == [] then [] else (if s[0] == '"' then "\"\"" else [s[0]]) + EscapeQuotes(s[1..])
  }

  /** Python's `s.replace('""', '"')`: scans left to right, collapsing each pair of double quotes into one. */
  function UnescapeQuotes(s: string): string
  {
    if |s| >= 2 && s[0] == '"' && s[1] == '"' then "\"" + UnescapeQuotes(s[2..])
    else if s == [] then []
    else [s[0]] + UnescapeQuotes(s[1..])
  }

  /** Collapsing the doubled quotes of an escaped string gives the original back. */
  lemma {:induction false} UnescapeEscape(s: string)
    ensures UnescapeQuotes(EscapeQuotes(s)) == s
  {
    if s != [] {
      var e := EscapeQuotes(s[1..]);
      UnescapeEscape(s[1..]);
      if s[0] == '"' {
        assert EscapeQuotes(s) == "\"\"" + e;
        assert ("\"\"" + e)[2..] == e;
      } else {
        assert EscapeQuotes(s) == [s[0]] + e;
        assert ([s[0]] + e)[1..] == e;
      }
      assert [s[0]] + s[1..] == s;
    }
  }

  /** Python's `c * n` for a one-character string `c`. */
  function Repeat(c: char, n: nat): (r: string)
    ensures |r| == n
    ensures forall i :: 0 <= i < n ==> r[i] == c
  {
    seq(n, _ => c)
  }
}
