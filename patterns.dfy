// The regular expressions of the date grammars, as data, and the
// backtracking matcher Python's `re` module applies to them. Only the
// features those expressions use are modelled: literal text, `|`
// alternatives between words, character classes with `{m,n}`, `+`, `*`, `?`
// (greedy) or `+?` (lazy), and a final `$`; `re.IGNORECASE` folds ASCII
// letters only.
module Patterns {
  import opened Exceptions
  import opened Strings

  datatype CharClass =
    | Digit          // \d (ASCII digits)
    | Space          // \s
    | NotNewline     // .
    | WordOrSpace    // [\w ] (ASCII word characters and the space)
    | OneOf(chars: string)  // [abc]

  predicate InClass(c: char, cls: CharClass, ignoreCase: bool)
  {
    match cls
    case Digit => '0' <= c <= '9'
    case Space => IsSpace(c)
    case NotNewline => c != '\n'
    case WordOrSpace => IsWordChar(c) || c == ' '
    case OneOf(cs) => c in cs || (ignoreCase && (LowerChar(c) in cs || UpperChar(c) in cs))
  }

  /** One element of a pattern; each capturing group of the date grammars is exactly one item. */
  datatype Item =
    | Lit(text: string)                                            // literal text
    | Alt(words: seq<string>)                                      // (w1|w2|...), tried in order
    | Repeat(cls: CharClass, min: nat, max: Option<nat>, greedy: bool)  // cls{min,max}, or {min,max}?

  /** A pattern anchored at the start and ending in `$`. */
  datatype Pattern = Pattern(items: seq<Item>, ignoreCase: bool)

  /** `$`: the end of the text, or just before a final newline. */
  predicate AtLineEnd(s: string, pos: nat)
  {
    pos == |s| || (pos + 1 == |s| && s[pos] == '\n')
  }

  /** The literal t occurs in s at pos (ignoring ASCII case when asked). */
  predicate LitAt(s: string, pos: nat, t: string, ignoreCase: bool)
  {
    pos + |t| <= |s| && (if ignoreCase then Lower(s[pos..pos + |t|]) == Lower(t) else s[pos..pos + |t|] == t)
  }

  /** The longest run of class characters from pos, at most `cap` long. */
  function Run(s: string, pos: nat, cls: CharClass, ic: bool, cap: Option<nat>): (n: nat)
    requires pos <= |s|
    ensures pos + n <= |s|
    ensures forall j :: pos <= j < pos + n ==> InClass(s[j], cls, ic)
    ensures cap.Some? ==> n <= cap.value
    ensures pos + n == |s| || (cap.Some? && n == cap.value) || !InClass(s[pos + n], cls, ic)
    decreases |s| - pos
  {
    if pos == |s| || (cap.Some? && cap.value == 0) || !InClass(s[pos], cls, ic) then 0
    else 1 + Run(s, pos + 1, cls, ic, if cap.Some? then Some(cap.value - 1) else None)
  }

  // ------------------------------------------------------------ what a match is

  /** Item `item` covers exactly s[from..to]. */
  predicate Covers(item: Item, ic: bool, s: string, from: nat, to: nat)
  {
    from <= to <= |s| &&
    match item
    case Lit(t) => LitAt(s, from, t, ic) && to == from + |t|
    case Alt(ws) => exists j :: 0 <= j < |ws| && LitAt(s, from, ws[j], ic) && to == from + |ws[j]|
    case Repeat(cls, min, max, _) =>
      && min <= to - from
      && (max.None? || to - from <= max.value)
      && forall j :: from <= j < to ==> InClass(s[j], cls, ic)
  }

  /**
   * `ends` is a match of items[i..] against s from pos: item i + k covers the
   * text from the previous end to ends[k], and the last end is at `$`.
   */
  predicate IsMatch(p: Pattern, i: nat, s: string, pos: nat, ends: seq<nat>)
    requires i <= |p.items|
    decreases |p.items| - i
  {
    && |ends| == |p.items| - i
    && if i == |p.items| then pos <= |s| && AtLineEnd(s, pos)
       else Covers(p.items[i], p.ignoreCase, s, pos, ends[0]) && IsMatch(p, i + 1, s, ends[0], ends[1..])
  }

  // ------------------------------------------------------------------ the matcher

  function Prepend(e: nat, r: Option<seq<nat>>): Option<seq<nat>>
  {
    if r.Some? then Some([e] + r.value) else None
  }

  /**
   * The match Python's backtracking finds for items[i..] from pos: greedy
   * repeats try the longest run first, lazy ones the shortest, alternatives
   * are tried in order; None when there is no match.
   */
  function MatchFrom(p: Pattern, i: nat, s: string, pos: nat): (r: Option<seq<nat>>)
    requires i <= |p.items| && pos <= |s|
    ensures r.Some? ==> IsMatch(p, i, s, pos, r.value)
    decreases |p.items| - i, 2
  {
    if i == |p.items| then (if AtLineEnd(s, pos) then Some([]) else None)
    else match p.items[i]
      case Lit(t) =>
        if LitAt(s, pos, t, p.ignoreCase) then Prepend(pos + |t|, MatchFrom(p, i + 1, s, pos + |t|)) else None
      case Alt(ws) => TryWords(p, i, s, pos, 0)
      case Repeat(cls, min, max, greedy) =>
        var m := Run(s, pos, cls, p.ignoreCase, max);
        if m < min then None
        else if greedy then TryDown(p, i, s, pos, m)
        else TryUp(p, i, s, pos, min)
  }

  /** The alternatives from the j-th on. */
  function TryWords(p: Pattern, i: nat, s: string, pos: nat, j: nat): (r: Option<seq<nat>>)
    requires i < |p.items| && pos <= |s| && p.items[i].Alt? && j <= |p.items[i].words|
    ensures r.Some? ==> IsMatch(p, i, s, pos, r.value)
    decreases |p.items| - i, 1, |p.items[i].words| - j
  {
    var ws := p.items[i].words;
    if j == |ws| then None
    else if LitAt(s, pos, ws[j], p.ignoreCase) && MatchFrom(p, i + 1, s, pos + |ws[j]|).Some? then
      Prepend(pos + |ws[j]|, MatchFrom(p, i + 1, s, pos + |ws[j]|))
    else TryWords(p, i, s, pos, j + 1)
  }

  /** A greedy repeat taking k characters, then fewer. */
  function TryDown(p: Pattern, i: nat, s: string, pos: nat, k: nat): (r: Option<seq<nat>>)
    requires i < |p.items| && p.items[i].Repeat? && pos <= |s|
    requires var it := p.items[i]; it.min <= k <= Run(s, pos, it.cls, p.ignoreCase, it.max)
    ensures r.Some? ==> IsMatch(p, i, s, pos, r.value)
    decreases |p.items| - i, 1, k
  {
    var next := MatchFrom(p, i + 1, s, pos + k);
    if next.Some? then Prepend(pos + k, next)
    else if k == p.items[i].min then None
    else TryDown(p, i, s, pos, k - 1)
  }

  /** A lazy repeat taking k characters, then more. */
  function TryUp(p: Pattern, i: nat, s: string, pos: nat, k: nat): (r: Option<seq<nat>>)
    requires i < |p.items| && p.items[i].Repeat? && pos <= |s|
    requires var it := p.items[i]; it.min <= k <= Run(s, pos, it.cls, p.ignoreCase, it.max)
    ensures r.Some? ==> IsMatch(p, i, s, pos, r.value)
    decreases |p.items| - i, 1, Run(s, pos, p.items[i].cls, p.ignoreCase, p.items[i].max) - k
  {
    var next := MatchFrom(p, i + 1, s, pos + k);
    if next.Some? then Prepend(pos + k, next)
    else if k == Run(s, pos, p.items[i].cls, p.ignoreCase, p.items[i].max) then None
    else TryUp(p, i, s, pos, k + 1)
  }

  // ------------------------------------------------------------- completeness

  /** The matcher misses no match: whenever one exists, it finds one. */
  lemma {:induction false} MatchComplete(p: Pattern, i: nat, s: string, pos: nat, ends: seq<nat>)
    requires i <= |p.items| && pos <= |s|
    requires IsMatch(p, i, s, pos, ends)
    ensures MatchFrom(p, i, s, pos).Some?
    decreases |p.items| - i
  {
    if i < |p.items| {
      var e := ends[0];
      assert Covers(p.items[i], p.ignoreCase, s, pos, e);
      MatchComplete(p, i + 1, s, e, ends[1..]);
      CompleteStep(p, i, s, pos, e);
    }
  }

  /** If item i covers s[pos..e] and the rest matches from e, the matcher succeeds at item i. */
  lemma CompleteStep(p: Pattern, i: nat, s: string, pos: nat, e: nat)
    requires i < |p.items| && pos <= |s|
    requires Covers(p.items[i], p.ignoreCase, s, pos, e)
    requires MatchFrom(p, i + 1, s, e).Some?
    ensures MatchFrom(p, i, s, pos).Some?
  {
    match p.items[i]
    case Lit(t) =>
    case Alt(ws) =>
      var j :| 0 <= j < |ws| && LitAt(s, pos, ws[j], p.ignoreCase) && e == pos + |ws[j]|;
      TryWordsComplete(p, i, s, pos, 0, j);
    case Repeat(_, _, _, _) =>
      CompleteRepeat(p, i, s, pos, e);
  }

  /** CompleteStep for a repeat: the run it covers is within what the matcher tries. */
  lemma CompleteRepeat(p: Pattern, i: nat, s: string, pos: nat, e: nat)
    requires i < |p.items| && pos <= |s| && p.items[i].Repeat?
    requires Covers(p.items[i], p.ignoreCase, s, pos, e)
    requires MatchFrom(p, i + 1, s, e).Some?
    ensures MatchFrom(p, i, s, pos).Some?
  {
    var it := p.items[i];
    RunCovers(s, pos, it.cls, p.ignoreCase, it.max, e - pos);
    var m := Run(s, pos, it.cls, p.ignoreCase, it.max);
    assert pos + (e - pos) == e;
    if it.greedy {
      TryDownComplete(p, i, s, pos, m, e - pos);
      assert MatchFrom(p, i, s, pos) == TryDown(p, i, s, pos, m);
    } else {
      TryUpComplete(p, i, s, pos, it.min, e - pos);
      assert MatchFrom(p, i, s, pos) == TryUp(p, i, s, pos, it.min);
    }
  }

  /** A run of k class characters (within the cap) is no longer than the longest run. */
  lemma {:induction false} RunCovers(s: string, pos: nat, cls: CharClass, ic: bool, cap: Option<nat>, k: nat)
    requires pos + k <= |s|
    requires forall j :: pos <= j < pos + k ==> InClass(s[j], cls, ic)
    requires cap.None? || k <= cap.value
    ensures k <= Run(s, pos, cls, ic, cap)
    decreases k
  {
    if k > 0 {
      RunCovers(s, pos + 1, cls, ic, if cap.Some? then Some(cap.value - 1) else None, k - 1);
    }
  }

  lemma {:induction false} TryWordsComplete(p: Pattern, i: nat, s: string, pos: nat, j: nat, hit: nat)
    requires i < |p.items| && pos <= |s| && p.items[i].Alt?
    requires j <= hit < |p.items[i].words|
    requires LitAt(s, pos, p.items[i].words[hit], p.ignoreCase)
    requires MatchFrom(p, i + 1, s, pos + |p.items[i].words[hit]|).Some?
    ensures TryWords(p, i, s, pos, j).Some?
    decreases hit - j
  {
    if j < hit {
      TryWordsComplete(p, i, s, pos, j + 1, hit);
    }
  }

  lemma {:induction false} TryDownComplete(p: Pattern, i: nat, s: string, pos: nat, k: nat, hit: nat)
    requires i < |p.items| && p.items[i].Repeat? && pos <= |s|
    requires var it := p.items[i]; it.min <= hit <= k <= Run(s, pos, it.cls, p.ignoreCase, it.max)
    requires MatchFrom(p, i + 1, s, pos + hit).Some?
    ensures TryDown(p, i, s, pos, k).Some?
    decreases k
  {
    if k > hit {
      TryDownComplete(p, i, s, pos, k - 1, hit);
    }
  }

  lemma {:induction false} TryUpComplete(p: Pattern, i: nat, s: string, pos: nat, k: nat, hit: nat)
    requires i < |p.items| && p.items[i].Repeat? && pos <= |s|
    requires var it := p.items[i]; it.min <= k <= hit <= Run(s, pos, it.cls, p.ignoreCase, it.max)
    requires MatchFrom(p, i + 1, s, pos + hit).Some?
    ensures TryUp(p, i, s, pos, k).Some?
    decreases hit - k
  {
    if k < hit {
      TryUpComplete(p, i, s, pos, k + 1, hit);
    }
  }

  // ------------------------------------------------------------ match and search

  /** `re.match(p, s)`: the item ends of the match at the start of s. */
  function Match(p: Pattern, s: string): (r: Option<seq<nat>>)
    ensures r.Some? ==> IsMatch(p, 0, s, 0, r.value)
    ensures r.None? ==> forall ends :: !IsMatch(p, 0, s, 0, ends)
  {
    var r := MatchFrom(p, 0, s, 0);
    if r.None? then
      forall ends | IsMatch(p, 0, s, 0, ends) ensures false {
        MatchComplete(p, 0, s, 0, ends);
      }
      r
    else r
  }

  /** The start of item k of a match beginning at `start` with item ends `ends`. */
  function ItemStart(start: nat, ends: seq<nat>, k: nat): nat
    requires k < |ends|
  {
    if k == 0 then start else ends[k - 1]
  }

  /** The text item k of a match covers (the group when the item is a capturing group). */
  function Group(s: string, start: nat, ends: seq<nat>, k: nat): string
    requires k < |ends|
  {
    var from := ItemStart(start, ends, k);
    if from <= ends[k] <= |s| then s[from..ends[k]] else ""
  }

  /** `re.search(p, s)`: the leftmost start from which the pattern matches, with its item ends. */
  function Search(p: Pattern, s: string, start: nat): (r: Option<(nat, seq<nat>)>)
    requires start <= |s| + 1
    ensures r.Some? ==> start <= r.value.0 <= |s| && MatchFrom(p, 0, s, r.value.0) == Some(r.value.1)
    ensures r.Some? ==> forall j :: start <= j < r.value.0 ==> MatchFrom(p, 0, s, j).None?
    ensures r.None? ==> forall j :: start <= j <= |s| ==> MatchFrom(p, 0, s, j).None?
    decreases |s| + 1 - start
  {
    if start > |s| then None
    else
      var m := MatchFrom(p, 0, s, start);
      if m.Some? then Some((start, m.value)) else Search(p, s, start + 1)
  }
}
