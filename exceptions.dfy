// The error vocabulary of smartconfig (src/smartconfig/exceptions.py) together
// with the Option/Result wrappers every other module returns.
module Exceptions {

  /** A keypath names a node: the keys (and decimal list indices) from the root. */
  type KeyPath = seq<string>

  datatype Option<T> = None | Some(value: T)

  /**
   * The exceptions the modelled code raises. `InvalidSchema` and `Resolution`
   * are the two library exceptions that carry a reason and a keypath; the
   * others stand for the Python built-in exceptions the code raises or lets
   * escape (their text is the exception's message).
   */
  datatype Error =
    | InvalidSchema(reason: string, keypath: KeyPath)
    | Resolution(reason: string, keypath: KeyPath)
    | Conversion(message: string)
    | ValueError(message: string)
    | TypeError(message: string)
    | KeyError(message: string)
    | IndexError(message: string)
    | AttributeError(message: string)
    | SyntaxError(message: string)
    | Parse(message: string)  // ParseError, the error type of the older parsers module
    | AssertionFailed  // a failed `assert` statement in the source
    | RecursionLimit   // Python's RecursionError: the model's fuel ran out

  datatype Result<T> = Ok(value: T) | Err(error: Error)

  /** The outcome of a check that only raises: it passes or fails with an error. */
  datatype Outcome = Pass | Fail(error: Error)

  /** The segments of a keypath joined by ".", the empty keypath giving "". */
  function JoinDotted(keypath: KeyPath): string
  {
    if |keypath| == 0 then ""
    else if |keypath| == 1 then keypath[0]
    else keypath[0] + "." + JoinDotted(keypath[1..])
  }

  /** Splits a dotted string at every "."; the inverse of JoinDotted. */
  function SplitDotted(s: string): (parts: seq<string>)
    ensures |parts| >= 1
    ensures forall i :: 0 <= i < |parts| ==> '.' !in parts[i]
  {
    if '.' !in s then [s]
    else
      var i := IndexOf(s, '.');
      [s[..i]] + SplitDotted(s[i + 1..])
  }

  /** The position of the first occurrence of `c` in `s`. */
  function IndexOf(s: string, c: char): (i: nat)
    requires c in s
    ensures i < |s| && s[i] == c && c !in s[..i]
  {
    if s[0] == c then 0 else 1 + IndexOf(s[1..], c)
  }

  predicate NoDots(keypath: KeyPath)
  {
    forall i :: 0 <= i < |keypath| ==> '.' !in keypath[i]
  }

  lemma {:induction false} JoinDottedEmpty()
    ensures JoinDotted([]) == ""
  {
  }

  /** Joining is associative with "." as the separator between two non-empty keypaths. */
  lemma {:induction false} JoinDottedAppend(a: KeyPath, b: KeyPath)
    requires |a| > 0 && |b| > 0
    ensures JoinDotted(a + b) == JoinDotted(a) + "." + JoinDotted(b)
  {
    if |a| == 1 {
      assert (a + b)[1..] == b;
    } else {
      assert (a + b)[1..] == a[1..] + b;
      JoinDottedAppend(a[1..], b);
    }
  }

  /** A non-empty keypath whose segments contain no "." is recovered from its dotted form. */
  lemma {:induction false} SplitJoinDotted(keypath: KeyPath)
    requires |keypath| > 0 && NoDots(keypath)
    ensures SplitDotted(JoinDotted(keypath)) == keypath
  {
    if |keypath| == 1 {
    } else {
      var head := keypath[0];
      var rest := JoinDotted(keypath[1..]);
      var s := head + "." + rest;
      assert s[|head|] == '.';
      assert '.' in s;
      assert s[..|head|] == head;
      assert IndexOf(s, '.') == |head| by {
        var i := IndexOf(s, '.');
        if i < |head| {
          assert false;
        } else if i > |head| {
          assert false;
        }
      }
      assert s[|head| + 1..] == rest;
      SplitJoinDotted(keypath[1..]);
    }
  }

  /** `str(InvalidSchemaError)`. */
  function InvalidSchemaMessage(reason: string, keypath: KeyPath): string
  {
    "Invalid schema at " + "keypath: \"" + JoinDotted(keypath) + "\". " + reason
  }

  /** `str(ResolutionError)`. */
  function ResolutionMessage(reason: string, keypath: KeyPath): string
  {
    "Cannot resolve " + "keypath \"" + JoinDotted(keypath) + "\": " + reason
  }

  const ResolutionPrefix: string := "Cannot resolve " + "keypath \""
  const InvalidSchemaPrefix: string := "Invalid schema at " + "keypath: \""

  /**
   * Reads a message of the form prefix + dotted + '"' + sep + reason back into
   * its dotted keypath and reason: the dotted keypath runs up to the next
   * double quote.
   */
  function ParseMessage(msg: string, prefix: string, sep: string): Option<(string, string)>
  {
    if |msg| < |prefix| || msg[..|prefix|] != prefix then None
    else
      var rest := msg[|prefix|..];
      if '"' !in rest then None
      else
        var q := IndexOf(rest, '"');
        if |rest| >= q + 1 + |sep| && rest[q + 1..q + 1 + |sep|] == sep
        then Some((rest[..q], rest[q + 1 + |sep|..]))
        else None
  }

  lemma {:induction false} ParseMessageRoundTrip(prefix: string, d: string, sep: string, reason: string)
    requires '"' !in d
    ensures ParseMessage(prefix + d + "\"" + sep + reason, prefix, sep) == Some((d, reason))
  {
    var msg := prefix + d + "\"" + sep + reason;
    assert msg == prefix + (d + "\"" + sep + reason);
    assert msg[..|prefix|] == prefix;
    var rest := msg[|prefix|..];
    assert rest == d + "\"" + sep + reason;
    assert rest[|d|] == '"';
    assert rest[..|d|] == d;
    assert IndexOf(rest, '"') == |d| by {
      var q := IndexOf(rest, '"');
      if q < |d| {
        assert false;
      } else if q > |d| {
        assert false;
      }
    }
    assert rest[|d| + 1..|d| + 1 + |sep|] == sep;
    assert rest[|d| + 1 + |sep|..] == reason;
  }

  /**
   * A ResolutionError message determines its dotted keypath and its reason,
   * provided no keypath segment contains a double quote.
   */
  lemma ResolutionMessageRoundTrip(reason: string, keypath: KeyPath)
    requires '"' !in JoinDotted(keypath)
    ensures ParseMessage(ResolutionMessage(reason, keypath), ResolutionPrefix, ": ")
            == Some((JoinDotted(keypath), reason))
  {
    var d := JoinDotted(keypath);
    assert ResolutionMessage(reason, keypath) == ResolutionPrefix + d + "\"" + ": " + reason;
    ParseMessageRoundTrip(ResolutionPrefix, d, ": ", reason);
  }

  /**
   * An InvalidSchemaError message determines its dotted keypath and its reason,
   * provided no keypath segment contains a double quote.
   */
  lemma InvalidSchemaMessageRoundTrip(reason: string, keypath: KeyPath)
    requires '"' !in JoinDotted(keypath)
    ensures ParseMessage(InvalidSchemaMessage(reason, keypath), InvalidSchemaPrefix, ". ")
            == Some((JoinDotted(keypath), reason))
  {
    var d := JoinDotted(keypath);
    assert InvalidSchemaMessage(reason, keypath) == InvalidSchemaPrefix + d + "\"" + ". " + reason;
    ParseMessageRoundTrip(InvalidSchemaPrefix, d, ". ", reason);
  }
}
