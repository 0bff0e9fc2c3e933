// The Python string operations the date grammars rely on: str.isspace,
// strip, split, replace and ASCII case-insensitive comparison.
module Strings {
  import opened Exceptions

  /**
   * `c.isspace()`: the ASCII whitespace and separators (tab to carriage
   * return, 0x1c to 0x1f, space) and the Unicode spaces Python recognises.
   * Python's regular-expression class `\s` uses the same set.
   */
  predicate IsSpace(c: char)
  {
    || c == ' '
    || ('\t' <= c <= '\r')
    || ('\U{1c}' <= c <= '\U{1f}')
    || c == '\U{85}' || c == '\U{a0}' || c == '\U{1680}'
    || ('\U{2000}' <= c <= '\U{200a}')
    || c == '\U{2028}' || c == '\U{2029}' || c == '\U{202f}' || c == '\U{205f}' || c == '\U{3000}'
  }

  /** The ASCII letters, digits and underscore: the `\w` class for ASCII text. */
  predicate IsWordChar(c: char)
  {
    ('a' <= c <= 'z') || ('A' <= c <= 'Z') || ('0' <= c <= '9') || c == '_'
  }

  function LowerChar(c: char): char
  {
    if 'A' <= c <= 'Z' then ((c as int) + 32) as char else c
  }

  function UpperChar(c: char): char
  {
    if 'a' <= c <= 'z' then ((c as int) - 32) as char else c
  }

  /** `s.upper()` on ASCII letters; other characters are kept. */
  function Upper(s: string): (r: string)
    ensures |r| == |s| && forall i :: 0 <= i < |s| ==> r[i] == UpperChar(s[i])
  {
    if s == [] then [] else [UpperChar(s[0])] + Upper(s[1..])
  }

  function Lower(s: string): (r: string)
    ensures |r| == |s| && forall i :: 0 <= i < |s| ==> r[i] == LowerChar(s[i])
  {
    if s == [] then [] else [LowerChar(s[0])] + Lower(s[1..])
  }

  /** `s[p:]` starts with the lower-case word `w`, ignoring ASCII case. */
  predicate StartsWithIgnoreCase(s: string, p: nat, w: string)
  {
    p + |w| <= |s| && Lower(s[p..p + |w|]) == w
  }

  // ----------------------------------------------------------------- stripping

  /** `s.lstrip()`. */
  function TrimStart(s: string): (r: string)
    ensures |r| <= |s| && r == s[|s| - |r|..]
    ensures r == [] || !IsSpace(r[0])
    ensures forall i :: 0 <= i < |s| - |r| ==> IsSpace(s[i])
  {
    if s != [] && IsSpace(s[0]) then TrimStart(s[1..]) else s
  }

  /** `s.rstrip()`. */
  function TrimEnd(s: string): (r: string)
    ensures |r| <= |s| && r == s[..|r|]
    ensures r == [] || !IsSpace(r[|r| - 1])
    ensures forall i :: |r| <= i < |s| ==> IsSpace(s[i])
  {
    if s != [] && IsSpace(s[|s| - 1]) then TrimEnd(s[..|s| - 1]) else s
  }

  /** `s.strip()`: no whitespace at either end, and the middle kept as it is. */
  function Strip(s: string): (r: string)
    ensures r == [] || (!IsSpace(r[0]) && !IsSpace(r[|r| - 1]))
    ensures r == [] <==> SpaceRun(s)
  {
    TrimEnd(TrimStart(s))
  }

  /** A possibly empty run of whitespace. */
  predicate SpaceRun(w: string)
  {
    forall j :: 0 <= j < |w| ==> IsSpace(w[j])
  }

  /** Whitespace before a and a non-space at a (or the end) is exactly what `lstrip` removes. */
  lemma {:induction false} TrimStartAt(s: string, a: nat)
    requires a <= |s| && SpaceRun(s[..a])
    requires a == |s| || !IsSpace(s[a])
    ensures TrimStart(s) == s[a..]
  {
    if a > 0 {
      assert IsSpace(s[..a][0]);
      assert s[1..][..a - 1] == s[1..a];
      assert SpaceRun(s[1..a]) by {
        forall j | 0 <= j < a - 1 ensures IsSpace(s[1..a][j]) {
          assert s[1..a][j] == s[..a][j + 1];
        }
      }
      TrimStartAt(s[1..], a - 1);
      assert s[1..][a - 1..] == s[a..];
    }
  }

  /** Whitespace from b on and a non-space before b (or the start) is exactly what `rstrip` removes. */
  lemma {:induction false} TrimEndAt(s: string, b: nat)
    requires b <= |s| && SpaceRun(s[b..])
    requires b == 0 || !IsSpace(s[b - 1])
    ensures TrimEnd(s) == s[..b]
    decreases |s| - b
  {
    if b < |s| {
      var t := s[..|s| - 1];
      assert IsSpace(s[b..][|s| - 1 - b]);
      assert SpaceRun(t[b..]) by {
        forall j | 0 <= j < |t| - b ensures IsSpace(t[b..][j]) {
          assert t[b..][j] == s[b..][j];
        }
      }
      assert b == 0 || t[b - 1] == s[b - 1];
      TrimEndAt(t, b);
      assert t[..b] == s[..b];
    }
  }

  /**
   * Whatever the split of s into leading whitespace, a slice that starts and
   * ends with a non-space, and trailing whitespace, `strip` returns that slice.
   */
  lemma {:induction false} StripSlice(s: string, a: nat, b: nat)
    requires a <= b <= |s|
    requires SpaceRun(s[..a]) && SpaceRun(s[b..])
    requires a == b || (!IsSpace(s[a]) && !IsSpace(s[b - 1]))
    ensures Strip(s) == s[a..b]
  {
    if a == b {
      SpaceAround(s, a);
      assert s[a..b] == [];
    } else {
      StripSliceText(s, a, b);
    }
  }

  lemma {:induction false} StripSliceText(s: string, a: nat, b: nat)
    requires a < b <= |s|
    requires SpaceRun(s[..a]) && SpaceRun(s[b..])
    requires !IsSpace(s[a]) && !IsSpace(s[b - 1])
    ensures TrimEnd(TrimStart(s)) == s[a..b]
  {
    TrimStartAt(s, a);
    TrimEndFrom(s, a, b);
  }

  lemma {:induction false} TrimEndFrom(s: string, a: nat, b: nat)
    requires a < b <= |s| && SpaceRun(s[b..]) && !IsSpace(s[b - 1])
    ensures TrimEnd(s[a..]) == s[a..b]
  {
    var t := s[a..];
    DropDrop(s, a, b);
    assert t[b - a - 1] == s[b - 1];
    TrimEndAt(t, b - a);
    DropTake(s, a, b);
  }

  lemma {:induction false} DropDrop(s: string, a: nat, b: nat)
    requires a <= b <= |s|
    ensures s[a..][b - a..] == s[b..]
  {
  }

  /** Whitespace around a text that starts and ends with a non-space is what `strip` removes. */
  lemma {:induction false} StripPadded(lead: string, text: string, trail: string)
    requires SpaceRun(lead) && SpaceRun(trail)
    requires text != [] && !IsSpace(text[0]) && !IsSpace(text[|text| - 1])
    ensures Strip(lead + text + trail) == text
  {
    var x := lead + text + trail;
    var a, b := |lead|, |lead| + |text|;
    PaddedParts(lead, text, trail);
    StripSlice(x, a, b);
  }

  lemma {:induction false} PaddedParts(lead: string, text: string, trail: string)
    ensures var x := lead + text + trail;
      x[..|lead|] == lead && x[|lead| + |text|..] == trail && x[|lead|..|lead| + |text|] == text
  {
  }

  lemma {:induction false} TakeDrop(s: string, n: nat)
    requires n <= |s|
    ensures s == s[..n] + s[n..]
  {
  }

  lemma {:induction false} DropTake(s: string, a: nat, b: nat)
    requires a <= b <= |s|
    ensures s[a..][..b - a] == s[a..b]
  {
  }

  lemma {:induction false} SpaceAround(s: string, a: nat)
    requires a <= |s| && SpaceRun(s[..a]) && SpaceRun(s[a..])
    ensures SpaceRun(s)
  {
    forall j | 0 <= j < |s| ensures IsSpace(s[j]) {
      if j < a {
        assert s[..a][j] == s[j];
      } else {
        assert s[a..][j - a] == s[j];
      }
    }
  }

  /** Stripping twice is stripping once. */
  lemma {:induction false} StripIdempotent(s: string)
    ensures Strip(Strip(s)) == Strip(s)
  {
    var r := Strip(s);
    assert r == [] || !IsSpace(r[0]);
    assert TrimStart(r) == r;
    assert r == [] || !IsSpace(r[|r| - 1]);
  }

  /** A string with no whitespace at its ends is its own strip. */
  /** `strip` ignores a leading whitespace character. */
  lemma {:induction false} StripDropFirst(s: string)
    requires s != [] && IsSpace(s[0])
    ensures Strip(s) == Strip(s[1..])
  {
  }

  /** `strip` ignores a trailing whitespace character. */
  lemma {:induction false} StripDropLast(s: string)
    requires s != [] && IsSpace(s[|s| - 1])
    ensures Strip(s) == Strip(s[..|s| - 1])
    decreases |s|, 1
  {
    if !IsSpace(s[0]) {
      StripDropLastAfterText(s);
    } else if |s| > 1 {
      StripDropLastAfterSpace(s);
    }
  }

  lemma {:induction false} StripDropLastAfterText(s: string)
    requires s != [] && !IsSpace(s[0]) && IsSpace(s[|s| - 1])
    ensures Strip(s) == Strip(s[..|s| - 1])
  {
    var u := s[..|s| - 1];
    assert TrimStart(s) == s;
    assert TrimStart(u) == u by {
      assert u[0] == s[0];
    }
  }

  lemma {:induction false} StripDropLastAfterSpace(s: string)
    requires |s| > 1 && IsSpace(s[0]) && IsSpace(s[|s| - 1])
    ensures Strip(s) == Strip(s[..|s| - 1])
    decreases |s|, 0
  {
    var u, v := s[..|s| - 1], s[1..];
    assert u[0] == s[0] && v[|v| - 1] == s[|s| - 1];
    StripDropFirst(s);
    StripDropFirst(u);
    StripDropLast(v);
    MiddleSlice(s, u, v);
    assert Strip(s) == Strip(v) == Strip(u[1..]) == Strip(u);
  }

  lemma {:induction false} MiddleSlice(s: string, u: string, v: string)
    requires |s| > 1 && u == s[..|s| - 1] && v == s[1..]
    ensures v[..|v| - 1] == u[1..]
  {
  }

  lemma {:induction false} StripUnchanged(s: string)
    requires s == [] || (!IsSpace(s[0]) && !IsSpace(s[|s| - 1]))
    ensures Strip(s) == s
  {
  }

  // ------------------------------------------------------------------ splitting

  /** The length of the run of non-space characters at the start of t. */
  function WordLength(t: string): (n: nat)
    ensures n <= |t|
    ensures forall j :: 0 <= j < n ==> !IsSpace(t[j])
    ensures n == |t| || IsSpace(t[n])
  {
    if t == [] || IsSpace(t[0]) then 0 else 1 + WordLength(t[1..])
  }

  /** A non-empty run of characters none of which is whitespace. */
  predicate IsWord(w: string)
  {
    w != [] && forall j :: 0 <= j < |w| ==> !IsSpace(w[j])
  }

  /** `s.split()`: the maximal runs of non-whitespace characters, in order. */
  function SplitWhitespace(s: string): (parts: seq<string>)
    ensures forall i :: 0 <= i < |parts| ==> IsWord(parts[i])
    decreases |s|
  {
    var t := TrimStart(s);
    if t == [] then []
    else
      var n := WordLength(t);
      var rest := SplitWhitespace(t[n..]);
      LeadingWord(t, n);
      ConsWord(t[..n], rest);
      [t[..n]] + rest
  }

  /** The run WordLength finds at the start of a stripped, non-empty text is a word. */
  lemma {:induction false} LeadingWord(t: string, n: nat)
    requires t != [] && !IsSpace(t[0]) && n == WordLength(t)
    ensures 0 < n <= |t| && IsWord(t[..n])
  {
  }

  lemma {:induction false} ConsWord(w: string, rest: seq<string>)
    requires IsWord(w) && forall i :: 0 <= i < |rest| ==> IsWord(rest[i])
    ensures forall i :: 0 <= i < |[w] + rest| ==> IsWord(([w] + rest)[i])
  {
  }

  /** gaps[0] + words[0] + gaps[1] + ... + words[n - 1] + gaps[n]. */
  function Interleave(gaps: seq<string>, words: seq<string>): string
    requires |gaps| == |words| + 1
  {
    if words == [] then gaps[0] else gaps[0] + (words[0] + Interleave(gaps[1..], words[1..]))
  }

  /** Whitespace runs around and between n words, those between them non-empty. */
  predicate Separators(gaps: seq<string>, n: nat)
  {
    && |gaps| == n + 1
    && (forall i :: 0 <= i < |gaps| ==> SpaceRun(gaps[i]))
    && (forall i :: 0 < i < n ==> gaps[i] != [])
  }

  /** Any words laid out between whitespace runs are split back into exactly those words. */
  /** Each of the strings is a word. */
  predicate AllWords(words: seq<string>)
  {
    forall i :: 0 <= i < |words| ==> IsWord(words[i])
  }

  lemma {:induction false} AllWordsTail(words: seq<string>)
    requires AllWords(words) && words != []
    ensures IsWord(words[0]) && AllWords(words[1..])
  {
    assert IsWord(words[0]);
  }

  lemma {:induction false} SplitInterleave(gaps: seq<string>, words: seq<string>)
    requires Separators(gaps, |words|) && AllWords(words)
    ensures SplitWhitespace(Interleave(gaps, words)) == words
  {
    if words == [] {
      SplitLeadingSpaces(gaps[0], "");
      AppendEmpty(gaps[0]);
    } else {
      SeparatorsTail(gaps, |words|);
      AllWordsTail(words);
      var rest := Interleave(gaps[1..], words[1..]);
      InterleaveStart(gaps[1..], words[1..]);
      SplitGapWord(gaps[0], words[0], rest);
      SplitInterleave(gaps[1..], words[1..]);
      HeadTail(words);
    }
  }

  lemma {:induction false} AppendEmpty(s: string)
    ensures s + "" == s
  {
  }

  lemma {:induction false} HeadTail(s: seq<string>)
    requires s != []
    ensures s == [s[0]] + s[1..]
  {
  }

  /** Whitespace, a word, then nothing or whitespace: the word is the first part. */
  lemma {:induction false} SplitGapWord(g: string, w: string, rest: string)
    requires SpaceRun(g) && IsWord(w) && (rest == [] || IsSpace(rest[0]))
    ensures SplitWhitespace(g + (w + rest)) == [w] + SplitWhitespace(rest)
  {
    SplitLeadingSpaces(g, w + rest);
    SplitWordThen(w, rest);
  }

  lemma {:induction false} SeparatorsTail(gaps: seq<string>, n: nat)
    requires Separators(gaps, n) && n > 0
    ensures SpaceRun(gaps[0]) && Separators(gaps[1..], n - 1)
    ensures n > 1 ==> gaps[1] != []
  {
    assert SpaceRun(gaps[0]);
  }

  lemma {:induction false} SeparatorsCons(g: string, gaps: seq<string>, n: nat)
    requires SpaceRun(g) && Separators(gaps, n)
    requires n == 0 || gaps[0] != []
    ensures Separators([g] + gaps, n + 1)
  {
    assert ([g] + gaps)[0] == g && ([g] + gaps)[1..] == gaps;
  }

  /** A layout whose first gap is non-empty, or which holds no word, starts with whitespace or is empty. */
  lemma {:induction false} InterleaveStart(gaps: seq<string>, words: seq<string>)
    requires |gaps| == |words| + 1 && SpaceRun(gaps[0])
    requires words == [] || gaps[0] != []
    ensures var x := Interleave(gaps, words); x == [] || IsSpace(x[0])
  {
  }

  /** Whitespace in front does not change the split. */
  lemma {:induction false} SplitLeadingSpaces(g: string, rest: string)
    requires SpaceRun(g)
    ensures SplitWhitespace(g + rest) == SplitWhitespace(rest)
  {
    TrimStartSpaces(g, rest);
  }

  lemma {:induction false} TrimStartSpaces(g: string, rest: string)
    requires SpaceRun(g)
    ensures TrimStart(g + rest) == TrimStart(rest)
  {
    if g != [] {
      var h := g[1..];
      var x := g + rest;
      assert x[1..] == h + rest;
      assert IsSpace(x[0]);
      assert TrimStart(x) == TrimStart(x[1..]);
      assert SpaceRun(h);
      TrimStartSpaces(h, rest);
    } else {
      assert g + rest == rest;
    }
  }

  /** Every string is its split parts laid out between whitespace runs. */
  lemma {:induction false} SplitGaps(s: string) returns (gaps: seq<string>)
    ensures Separators(gaps, |SplitWhitespace(s)|)
    ensures Interleave(gaps, SplitWhitespace(s)) == s
    decreases |s|
  {
    if TrimStart(s) == [] {
      gaps := GapsOfBlank(s);
    } else {
      var lead, w, tail := FirstWord(s);
      var rest := SplitGaps(tail);
      gaps := GapsOfWord(lead, w, tail, SplitWhitespace(tail), rest);
    }
  }

  lemma {:induction false} GapsOfBlank(s: string) returns (gaps: seq<string>)
    requires TrimStart(s) == []
    ensures Separators(gaps, |SplitWhitespace(s)|)
    ensures Interleave(gaps, SplitWhitespace(s)) == s
  {
    gaps := [s];
    assert SplitWhitespace(s) == [];
    assert SpaceRun(s) by {
      assert s[|s| - 0..] == [];
    }
  }

  /** A string with a word in it: whitespace, the first word, and what follows. */
  lemma {:induction false} FirstWord(s: string) returns (lead: string, w: string, tail: string)
    requires TrimStart(s) != []
    ensures SpaceRun(lead) && IsWord(w) && (tail == [] || IsSpace(tail[0]))
    ensures |tail| < |s| && s == lead + (w + tail)
    ensures SplitWhitespace(s) == [w] + SplitWhitespace(tail)
  {
    var t := TrimStart(s);
    var n := WordLength(t);
    w, tail := t[..n], t[n..];
    TakeDrop(t, n);
    LeadingWord(t, n);
    lead := LeadingSpace(s);
  }

  /** Laying out one more word after a whitespace run keeps the separators well formed. */
  lemma {:induction false} GapsOfWord(lead: string, w: string, tail: string, words: seq<string>, rest: seq<string>)
    returns (gaps: seq<string>)
    requires SpaceRun(lead) && IsWord(w) && (tail == [] || IsSpace(tail[0]))
    requires Separators(rest, |words|) && Interleave(rest, words) == tail && AllWords(words)
    ensures Separators(gaps, |words| + 1)
    ensures Interleave(gaps, [w] + words) == lead + (w + tail)
  {
    if words != [] {
      AllWordsTail(words);
      GapBeforeWord(rest, words, tail);
    }
    SeparatorsCons(lead, rest, |words|);
    gaps := [lead] + rest;
    InterleaveCons(lead, rest, w, words);
  }

  /** The whitespace `lstrip` removes. */
  lemma {:induction false} LeadingSpace(s: string) returns (lead: string)
    ensures SpaceRun(lead) && s == lead + TrimStart(s)
  {
    lead := s[..|s| - |TrimStart(s)|];
  }

  lemma {:induction false} InterleaveCons(g: string, gaps: seq<string>, w: string, words: seq<string>)
    requires |gaps| == |words| + 1
    ensures Interleave([g] + gaps, [w] + words) == g + (w + Interleave(gaps, words))
  {
    assert ([g] + gaps)[1..] == gaps && ([w] + words)[1..] == words;
  }

  /** A text that starts with whitespace and holds a word has a non-empty gap before it. */
  lemma {:induction false} GapBeforeWord(gaps: seq<string>, words: seq<string>, text: string)
    requires |gaps| == |words| + 1 && words != [] && IsWord(words[0])
    requires text == Interleave(gaps, words) && text != [] && IsSpace(text[0])
    ensures gaps[0] != []
  {
  }

  /** `sep.join(parts)`. */
  function Join(parts: seq<string>, sep: string): string
  {
    if parts == [] then ""
    else if |parts| == 1 then parts[0]
    else parts[0] + sep + Join(parts[1..], sep)
  }

  /** Words without whitespace, joined by single spaces, split back into the same words. */
  lemma {:induction false} SplitJoinWords(words: seq<string>)
    requires forall i :: 0 <= i < |words| ==> IsWord(words[i])
    ensures SplitWhitespace(Join(words, " ")) == words
  {
    assert AllWords(words);
    if words == [] {
      SplitEmpty();
    } else if |words| == 1 {
      SplitOneWord(words[0]);
    } else {
      AllWordsTail(words);
      var rest := Join(words[1..], " ");
      assert Join(words, " ") == words[0] + (" " + rest);
      SplitWordSpace(words[0], rest);
      SplitJoinWords(words[1..]);
      assert words == [words[0]] + words[1..];
    }
  }

  lemma {:induction false} SplitOneWord(w: string)
    requires IsWord(w)
    ensures SplitWhitespace(w) == [w]
  {
    SplitWordThen(w, "");
    SplitEmpty();
    assert w + "" == w;
  }

  lemma {:induction false} SplitWordSpace(w: string, rest: string)
    requires IsWord(w)
    ensures SplitWhitespace(w + (" " + rest)) == [w] + SplitWhitespace(rest)
  {
    SplitWordThen(w, " " + rest);
    SplitLeadingSpace(' ', rest);
    assert [' '] + rest == " " + rest;
  }

  lemma {:induction false} SplitEmpty()
    ensures SplitWhitespace("") == []
  {
    assert TrimStart("") == "";
  }

  /** A word followed by nothing or by whitespace is split off as the first part. */
  lemma {:induction false} SplitWordThen(w: string, tail: string)
    requires IsWord(w)
    requires tail == [] || IsSpace(tail[0])
    ensures SplitWhitespace(w + tail) == [w] + SplitWhitespace(tail)
  {
    var t := w + tail;
    assert TrimStart(t) == t;
    WordLengthOf(w, tail);
    assert t[..|w|] == w;
    assert t[|w|..] == tail;
  }

  /** Leading whitespace does not change the split. */
  lemma {:induction false} SplitLeadingSpace(c: char, rest: string)
    requires IsSpace(c)
    ensures SplitWhitespace([c] + rest) == SplitWhitespace(rest)
  {
    assert ([c] + rest)[1..] == rest;
    assert TrimStart([c] + rest) == TrimStart(rest);
  }

  lemma {:induction false} WordLengthOf(w: string, tail: string)
    requires forall j :: 0 <= j < |w| ==> !IsSpace(w[j])
    requires tail == [] || IsSpace(tail[0])
    ensures WordLength(w + tail) == |w|
  {
    if w != [] {
      assert (w + tail)[1..] == w[1..] + tail;
      WordLengthOf(w[1..], tail);
    }
  }

  /** `s.split(c)` for a one-character separator: the pieces between the separators. */
  function SplitOn(s: string, c: char): (parts: seq<string>)
    ensures |parts| >= 1
    ensures forall i :: 0 <= i < |parts| ==> c !in parts[i]
  {
    if c !in s then [s]
    else
      var i := IndexOf(s, c);
      [s[..i]] + SplitOn(s[i + 1..], c)
  }

  /** Joining the pieces with the separator gives back the string. */
  lemma {:induction false} JoinSplitOn(s: string, c: char)
    ensures Join(SplitOn(s, c), [c]) == s
  {
    if c in s {
      var i := IndexOf(s, c);
      var rest := SplitOn(s[i + 1..], c);
      var parts := [s[..i]] + rest;
      assert SplitOn(s, c) == parts;
      assert |parts| >= 2 && parts[0] == s[..i] && parts[1..] == rest;
      assert Join(parts, [c]) == s[..i] + [c] + Join(rest, [c]);
      JoinSplitOn(s[i + 1..], c);
      assert s == s[..i] + [c] + s[i + 1..];
    }
  }

  // ------------------------------------------------------------------ replacing

  /** `s.replace(pat, rep)`: non-overlapping occurrences, left to right. */
  function ReplaceAll(s: string, pat: string, rep: string): string
    requires pat != []
    decreases |s|
  {
    if |s| < |pat| then s
    else if s[..|pat|] == pat then rep + ReplaceAll(s[|pat|..], pat, rep)
    else [s[0]] + ReplaceAll(s[1..], pat, rep)
  }

  /** Replacing a single character replaces it at every position and keeps the rest. */
  lemma {:induction false} ReplaceChar(s: string, c: char, d: char)
    ensures |ReplaceAll(s, [c], [d])| == |s|
    ensures forall i :: 0 <= i < |s| ==> ReplaceAll(s, [c], [d])[i] == if s[i] == c then d else s[i]
  {
    if |s| >= 1 {
      ReplaceChar(s[1..], c, d);
      assert s[..1] == [s[0]];
    }
  }

  /** pat occurs in s at position i. */
  predicate OccursAt(s: string, i: nat, pat: string)
  {
    i + |pat| <= |s| && s[i..i + |pat|] == pat
  }

  /** A string without the pattern is left unchanged. */
  lemma {:induction false} ReplaceAbsent(s: string, pat: string, rep: string)
    requires pat != []
    requires forall i :: 0 <= i ==> !OccursAt(s, i, pat)
    ensures ReplaceAll(s, pat, rep) == s
    decreases |s|
  {
    if |s| >= |pat| {
      assert !OccursAt(s, 0, pat);
      assert s[0..|pat|] == s[..|pat|];
      forall i | 0 <= i ensures !OccursAt(s[1..], i, pat) {
        assert !OccursAt(s, i + 1, pat);
        if i + |pat| <= |s| - 1 {
          assert s[1..][i..i + |pat|] == s[i + 1..i + 1 + |pat|];
        }
      }
      ReplaceAbsent(s[1..], pat, rep);
      assert s == [s[0]] + s[1..];
    }
  }
}
