// The interpolation syntax of configuration strings: text with `${...}`
// references (the variable delimiters src/smartconfig/_internals.py gives its
// Jinja2 environment). Only references to dotted paths are modelled; Jinja2
// expressions, filters and statements are not.
module Templates {
  import opened Exceptions
  import opened Strings

  /** A piece of a template: literal text, or the text between `${` and `}`. */
  datatype Segment = Lit(text: string) | Ref(expr: string)

  /** A reference starts at j. */
  predicate OpensAt(s: string, j: int)
  {
    0 <= j && j + 1 < |s| && s[j] == '$' && s[j + 1] == '{'
  }

  /** The first `${` at or after i. */
  function FindOpen(s: string, i: nat): (r: Option<nat>)
    requires i <= |s|
    ensures r.Some? ==> i <= r.value && OpensAt(s, r.value)
    ensures r.Some? ==> forall j :: i <= j < r.value ==> !OpensAt(s, j)
    ensures r.None? ==> forall j :: i <= j < |s| ==> !OpensAt(s, j)
    decreases |s| - i
  {
    if i + 1 >= |s| then None
    else if OpensAt(s, i) then Some(i)
    else FindOpen(s, i + 1)
  }

  /**
   * The segments of a template, or None when a `${` is never closed (Jinja2
   * raises a TemplateSyntaxError).
   */
  function Parse(s: string): (r: Option<seq<Segment>>)
    ensures r.Some? ==> forall k :: 0 <= k < |r.value| ==> r.value[k] != Lit("")
    decreases |s|
  {
    match FindOpen(s, 0)
    case None => Some(if s == [] then [] else [Lit(s)])
    case Some(i) =>
      var rest := s[i + 2..];
      if '}' !in rest then None
      else
        var j := IndexOf(rest, '}');
        match Parse(rest[j + 1..])
        case None => None
        case Some(tail) => Some((if i == 0 then [] else [Lit(s[..i])]) + [Ref(rest[..j])] + tail)
  }

  /** The text of one segment. */
  function SegmentText(seg: Segment): string
  {
    match seg
    case Lit(t) => t
    case Ref(e) => "${" + e + "}"
  }

  /** The text of a template. */
  function Unparse(segs: seq<Segment>): string
  {
    if segs == [] then "" else SegmentText(segs[0]) + Unparse(segs[1..])
  }

  lemma UnparseAppend(a: seq<Segment>, b: seq<Segment>)
    ensures Unparse(a + b) == Unparse(a) + Unparse(b)
  {
    if a != [] {
      assert (a + b)[0] == a[0];
      assert (a + b)[1..] == a[1..] + b;
      UnparseAppend(a[1..], b);
      calc {
        Unparse(a + b);
        SegmentText(a[0]) + Unparse(a[1..] + b);
        SegmentText(a[0]) + (Unparse(a[1..]) + Unparse(b));
        (SegmentText(a[0]) + Unparse(a[1..])) + Unparse(b);
      }
    } else {
      assert a + b == b;
    }
  }

  /** Parsing loses nothing: the segments spell out the template. */
  lemma {:induction false} ParseUnparse(s: string)
    requires Parse(s).Some?
    ensures Unparse(Parse(s).value) == s
    decreases |s|
  {
    if FindOpen(s, 0).Some? {
      var i, rest, j, tail := ParseStep(s);
      ParseUnparse(rest[j + 1..]);
      ParsedPieces(s, i, rest, j, if i == 0 then [] else [Lit(s[..i])], tail);
    }
  }

  /** One step of Parse: the text before the first `${`, the reference, and the rest. */
  lemma ParseStep(s: string) returns (i: nat, rest: string, j: nat, tail: seq<Segment>)
    requires Parse(s).Some? && FindOpen(s, 0).Some?
    ensures i + 2 <= |s| && rest == s[i + 2..] && s[i] == '$' && s[i + 1] == '{'
    ensures j < |rest| && rest[j] == '}'
    ensures Parse(rest[j + 1..]) == Some(tail)
    ensures Parse(s).value == (if i == 0 then [] else [Lit(s[..i])]) + [Ref(rest[..j])] + tail
  {
    i := FindOpen(s, 0).value;
    rest := s[i + 2..];
    assert '}' in rest;
    j := IndexOf(rest, '}');
    assert Parse(rest[j + 1..]).Some?;
    tail := Parse(rest[j + 1..]).value;
  }

  lemma ParsedPieces(s: string, i: nat, rest: string, j: nat, head: seq<Segment>, tail: seq<Segment>)
    requires i + 2 <= |s| && rest == s[i + 2..] && s[i] == '$' && s[i + 1] == '{'
    requires j < |rest| && rest[j] == '}'
    requires head == if i == 0 then [] else [Lit(s[..i])]
    requires Unparse(tail) == rest[j + 1..]
    ensures Unparse(head + [Ref(rest[..j])] + tail) == s
  {
    var r := Ref(rest[..j]);
    UnparseThree(head, r, tail);
    assert Unparse(head) == s[..i] by {
      if i != 0 {
        assert Unparse(head) == SegmentText(Lit(s[..i])) + Unparse([]);
      }
    }
    Rejoin(s, i, rest, j);
  }

  /** The text before `${`, the delimited reference and the text after `}` give back s. */
  lemma Rejoin(s: string, i: nat, rest: string, j: nat)
    requires i + 2 <= |s| && rest == s[i + 2..] && s[i] == '$' && s[i + 1] == '{'
    requires j < |rest| && rest[j] == '}'
    ensures s[..i] + ("${" + rest[..j] + "}") + rest[j + 1..] == s
  {
    calc {
      s[..i] + ("${" + rest[..j] + "}") + rest[j + 1..];
      s[..i] + "${" + (rest[..j] + "}" + rest[j + 1..]);
      { assert rest[j..j + 1] == "}"; SplitAround(rest, j, "}"); }
      s[..i] + "${" + rest;
      { assert s[i..i + 2] == "${"; SplitAround(s, i, "${"); }
      s;
    }
  }

  lemma UnparseThree(head: seq<Segment>, r: Segment, tail: seq<Segment>)
    ensures Unparse(head + [r] + tail) == Unparse(head) + SegmentText(r) + Unparse(tail)
  {
    UnparseAppend(head + [r], tail);
    UnparseAppend(head, [r]);
    assert Unparse([r]) == SegmentText(r) + Unparse([]);
  }

  /** Cutting a string around the delimiter d found at i. */
  lemma SplitAround(s: string, i: nat, d: string)
    requires i + |d| <= |s| && s[i..i + |d|] == d
    ensures s == s[..i] + d + s[i + |d|..]
  {
    assert s == s[..i] + s[i..i + |d|] + s[i + |d|..];
  }

  /** A string with no `${` is a single literal (or nothing): interpolation leaves it alone. */
  lemma PlainText(s: string)
    requires forall j :: 0 <= j < |s| ==> !OpensAt(s, j)
    ensures Parse(s) == Some(if s == [] then [] else [Lit(s)])
    ensures RefCount(Parse(s).value) == 0
    ensures Fill(Parse(s).value, []) == s
  {
  }

  /** The number of references in a template. */
  function RefCount(segs: seq<Segment>): nat
  {
    if segs == [] then 0 else (if segs[0].Ref? then 1 else 0) + RefCount(segs[1..])
  }

  /** Counting the references of a template one segment further. */
  lemma {:induction false} RefCountSnoc(segs: seq<Segment>, i: nat)
    requires i < |segs|
    ensures RefCount(segs[..i + 1]) == RefCount(segs[..i]) + (if segs[i].Ref? then 1 else 0)
  {
    RefCountAppend(segs[..i], [segs[i]]);
    assert segs[..i + 1] == segs[..i] + [segs[i]];
    assert RefCount([segs[i]]) == (if segs[i].Ref? then 1 else 0) + RefCount([]);
  }

  lemma {:induction false} RefCountAppend(a: seq<Segment>, b: seq<Segment>)
    ensures RefCount(a + b) == RefCount(a) + RefCount(b)
  {
    if a == [] {
      assert a + b == b;
    } else {
      assert (a + b)[1..] == a[1..] + b;
      RefCountAppend(a[1..], b);
    }
  }

  /** The references of a template, in order. */
  function Refs(segs: seq<Segment>): (r: seq<string>)
    ensures |r| == RefCount(segs)
  {
    if segs == [] then [] else (if segs[0].Ref? then [segs[0].expr] else []) + Refs(segs[1..])
  }

  /** The rendered template: each reference replaced by the text of its value. */
  function Fill(segs: seq<Segment>, texts: seq<string>): string
    requires |texts| == RefCount(segs)
  {
    if segs == [] then ""
    else if segs[0].Lit? then segs[0].text + Fill(segs[1..], texts)
    else texts[0] + Fill(segs[1..], texts[1..])
  }

  /** Each reference written back as its own `${...}` text. */
  function OwnTexts(segs: seq<Segment>): (r: seq<string>)
    ensures |r| == RefCount(segs)
  {
    if segs == [] then []
    else (if segs[0].Ref? then ["${" + segs[0].expr + "}"] else []) + OwnTexts(segs[1..])
  }

  /** Filling each reference with its own `${...}` text gives back the template. */
  lemma {:induction false} FillWithOwnText(segs: seq<Segment>)
    ensures Fill(segs, OwnTexts(segs)) == Unparse(segs)
  {
    if segs != [] {
      FillWithOwnText(segs[1..]);
      if segs[0].Ref? {
        assert OwnTexts(segs)[1..] == OwnTexts(segs[1..]);
      } else {
        assert OwnTexts(segs) == OwnTexts(segs[1..]);
      }
    }
  }

  /** The dotted path a reference names: its expression without surrounding blanks, split on ".". */
  function Path(expr: string): (p: seq<string>)
    ensures |p| >= 1
  {
    SplitDotted(Strip(expr))
  }
}
