/**
 * The JavaScript string built-ins the handlers rely on, for a
 * one-character separator: `String.prototype.split`, `Array.prototype.join`
 * and `String.prototype.trim`.
 */
module JsStrings {

  /** ECMAScript WhiteSpace and LineTerminator code points, the set `trim` removes. */
  predicate IsWhitespace(c: char) {
    c == '\t' || c == '\n' || c == '\U{B}' || c == '\U{C}' || c == '\r' || c == ' '
    || c == '\U{A0}' || c == '\U{1680}' || ('\U{2000}' <= c <= '\U{200A}')
    || c == '\U{2028}' || c == '\U{2029}' || c == '\U{202F}' || c == '\U{205F}'
    || c == '\U{3000}' || c == '\U{FEFF}'
  }

  /** Position of the first `c` in `s` at or after `from`, or `|s|` when there is none. */
  function IndexFrom(s: string, c: char, from: nat): (i: nat)
    requires from <= |s|
    ensures from <= i <= |s|
    ensures i < |s| ==> s[i] == c
    decreases |s| - from
  {
    if from == |s| then from
    else if s[from] == c then from
    else IndexFrom(s, c, from + 1)
  }

  /** No `c` lies between `from` and the position `IndexFrom` finds. */
  lemma {:induction false} IndexFromFirst(s: string, c: char, from: nat)
    requires from <= |s|
    ensures forall j :: from <= j < IndexFrom(s, c, from) ==> s[j] != c
    decreases |s| - from
  {
    if from < |s| && s[from] != c {
      IndexFromFirst(s, c, from + 1);
    }
  }

  /** `s.indexOf(c)` with `|s|` for "not found". */
  function IndexOf(s: string, c: char): (i: nat)
    ensures i <= |s|
    ensures i < |s| ==> s[i] == c
  {
    IndexFrom(s, c, 0)
  }

  /** `IndexOf` finds the first `c`: there is none before it (and none at all when it returns `|s|`). */
  lemma IndexOfFirst(s: string, c: char)
    ensures forall j :: 0 <= j < IndexOf(s, c) ==> s[j] != c
    ensures IndexOf(s, c) == |s| <==> c !in s
  {
    IndexFromFirst(s, c, 0);
  }

  /** `s.split(sep)`: the pieces between occurrences of `sep`, in order. */
  function Split(s: string, sep: char): (parts: seq<string>)
    ensures |parts| >= 1
    decreases |s|
  {
    var i := IndexOf(s, sep);
    if i == |s| then [s] else [s[..i]] + Split(s[i + 1..], sep)
  }

  /** `parts.join(sep)`. */
  function Join(parts: seq<string>, sep: char): (s: string)
    ensures |parts| > 0 ==> parts[0] <= s
    ensures |parts| > 1 ==> |parts[0]| < |s| && s[|parts[0]|] == sep
  {
    if |parts| == 0 then ""
    else if |parts| == 1 then parts[0]
    else parts[0] + [sep] + Join(parts[1..], sep)
  }

  /** Joining the pieces of a split gives back the original text. */
  lemma {:induction false} JoinSplit(s: string, sep: char)
    ensures Join(Split(s, sep), sep) == s
    decreases |s|
  {
    var i := IndexOf(s, sep);
    if i < |s| {
      var rest := Split(s[i + 1..], sep);
      assert Split(s, sep) == [s[..i]] + rest;
      assert ([s[..i]] + rest)[1..] == rest;
      JoinSplit(s[i + 1..], sep);
      assert Join(Split(s, sep), sep) == s[..i] + [sep] + s[i + 1..];
      assert s == s[..i] + [sep] + s[i + 1..];
    }
  }

  /** Splitting a join of separator-free pieces gives back the pieces. */
  lemma {:induction false} SplitJoin(parts: seq<string>, sep: char)
    requires |parts| >= 1
    requires forall k :: 0 <= k < |parts| ==> sep !in parts[k]
    ensures Split(Join(parts, sep), sep) == parts
  {
    if |parts| > 1 {
      var s := Join(parts, sep);
      var rest := Join(parts[1..], sep);
      assert s == parts[0] + [sep] + rest;
      FirstSeparator(parts[0], sep, rest);
      assert s[..|parts[0]|] == parts[0];
      assert s[|parts[0]| + 1..] == rest;
      SplitJoin(parts[1..], sep);
    } else {
      assert IndexOf(parts[0], sep) == |parts[0]|;
    }
  }

  /** In `a + [sep] + b` with no `sep` in `a`, the first `sep` sits right after `a`. */
  lemma FirstSeparator(a: string, sep: char, b: string)
    requires sep !in a
    ensures IndexOf(a + [sep] + b, sep) == |a|
  {
    var s := a + [sep] + b;
    IndexOfFirst(s, sep);
    assert s[|a|] == sep;
    assert forall k :: 0 <= k < |a| ==> s[k] == a[k];
  }

  /** A separator inside `a` is still the first one after anything is appended to `a`. */
  lemma IndexOfInPrefix(a: string, b: string, sep: char)
    requires IndexOf(a, sep) < |a|
    ensures IndexOf(a + b, sep) == IndexOf(a, sep)
  {
    var i := IndexOf(a, sep);
    IndexOfFirst(a, sep);
    IndexOfFirst(a + b, sep);
    assert (a + b)[i] == sep;
    assert forall j :: 0 <= j < i ==> (a + b)[j] == a[j];
  }

  /** A split at the first separator: the piece before it, then the split of the rest. */
  lemma SplitAtFirst(s: string, sep: char)
    requires IndexOf(s, sep) < |s|
    ensures Split(s, sep) == [s[..IndexOf(s, sep)]] + Split(s[IndexOf(s, sep) + 1..], sep)
  {
  }

  /** A split at the first separator, at position `i`: `head`, then the split of `rest`. */
  lemma SplitAround(s: string, sep: char, i: nat, head: string, rest: string)
    requires i == IndexOf(s, sep) && i < |s|
    requires head == s[..i] && rest == s[i + 1..]
    ensures Split(s, sep) == [head] + Split(rest, sep)
  {
  }

  /** Across the first separator of `a + [sep] + b`: `a` stays one piece. */
  lemma SplitAppendWhole(a: string, sep: char, b: string)
    requires IndexOf(a, sep) == |a|
    ensures Split(a + [sep] + b, sep) == Split(a, sep) + Split(b, sep)
  {
    var s := a + [sep] + b;
    IndexOfFirst(a, sep);
    FirstSeparator(a, sep, b);
    SplitAtFirst(s, sep);
    assert s[..|a|] == a && s[|a| + 1..] == b;
  }

  /** Across a separator inside `a`: the piece before it, then the split of the rest. */
  lemma SplitAppendStep(a: string, sep: char, b: string)
    requires IndexOf(a, sep) < |a|
    ensures var i := IndexOf(a, sep);
            Split(a + [sep] + b, sep) == [a[..i]] + Split(a[i + 1..] + [sep] + b, sep)
  {
    var i := IndexOf(a, sep);
    FirstSeparatorInPrefix(a, sep, b);
    SplitAround(a + [sep] + b, sep, i, a[..i], a[i + 1..] + [sep] + b);
  }

  /** Where the first separator of `a + [sep] + b` lies when `a` has one, and the text around it. */
  lemma FirstSeparatorInPrefix(a: string, sep: char, b: string)
    requires IndexOf(a, sep) < |a|
    ensures var s, i := a + [sep] + b, IndexOf(a, sep);
            IndexOf(s, sep) == i && s[..i] == a[..i] && s[i + 1..] == a[i + 1..] + [sep] + b
  {
    var s, i := a + [sep] + b, IndexOf(a, sep);
    assert s == a + ([sep] + b);
    IndexOfInPrefix(a, [sep] + b, sep);
    SlicesAroundInPrefix(a, [sep] + b, i);
    assert a[i + 1..] + ([sep] + b) == a[i + 1..] + [sep] + b;
  }

  /** Cutting `a + c` around a position inside `a`. */
  lemma SlicesAroundInPrefix(a: string, c: string, i: nat)
    requires i < |a|
    ensures (a + c)[..i] == a[..i]
    ensures (a + c)[i + 1..] == a[i + 1..] + c
  {
  }

  /** Splitting across a separator splits each side. */
  lemma {:induction false} SplitAppend(a: string, sep: char, b: string)
    ensures Split(a + [sep] + b, sep) == Split(a, sep) + Split(b, sep)
    decreases |a|
  {
    var i := IndexOf(a, sep);
    if i == |a| {
      SplitAppendWhole(a, sep, b);
    } else {
      var head, tail := a[..i], a[i + 1..];
      SplitAppendStep(a, sep, b);
      SplitAtFirst(a, sep);
      SplitAppend(tail, sep, b);
      assert [head] + (Split(tail, sep) + Split(b, sep)) == ([head] + Split(tail, sep)) + Split(b, sep);
    }
  }

  /** The first piece of a split is the text before the first separator. */
  lemma SplitHead(s: string, sep: char)
    ensures Split(s, sep)[0] == s[..IndexOf(s, sep)]
    ensures sep !in Split(s, sep)[0]
  {
    var i := IndexOf(s, sep);
    IndexOfFirst(s, sep);
    assert forall j :: 0 <= j < i ==> s[..i][j] == s[j];
  }

  /** No piece of a split holds the separator. */
  lemma {:induction false} SplitPiecesLackSeparator(s: string, sep: char)
    ensures forall k :: 0 <= k < |Split(s, sep)| ==> sep !in Split(s, sep)[k]
    decreases |s|
  {
    var i := IndexOf(s, sep);
    SplitHead(s, sep);
    if i < |s| {
      SplitPiecesLackSeparator(s[i + 1..], sep);
      assert Split(s, sep) == [s[..i]] + Split(s[i + 1..], sep);
    }
  }

  /** The remaining pieces, joined, are the text after the first separator. */
  lemma {:induction false} SplitTail(s: string, sep: char)
    requires IndexOf(s, sep) < |s|
    ensures |Split(s, sep)| >= 2
    ensures Join(Split(s, sep)[1..], sep) == s[IndexOf(s, sep) + 1..]
  {
    var i := IndexOf(s, sep);
    assert Split(s, sep)[1..] == Split(s[i + 1..], sep);
    JoinSplit(s[i + 1..], sep);
  }

  /** The last piece of a split is the text after the last separator. */
  lemma SplitLast(s: string, sep: char)
    ensures var parts := Split(s, sep);
            AfterLastSeparator(s, sep, parts[|parts| - 1])
  {
    var parts := Split(s, sep);
    assert sep !in parts[|parts| - 1] by { SplitPiecesLackSeparator(s, sep); }
    JoinLast(parts, sep);
    assert Join(parts, sep) == s by { JoinSplit(s, sep); }
  }

  /** In a join of pieces, the last piece, if free of `sep`, is the text after the last `sep`. */
  lemma {:induction false} JoinLast(parts: seq<string>, sep: char)
    requires |parts| >= 1 && sep !in parts[|parts| - 1]
    ensures AfterLastSeparator(Join(parts, sep), sep, parts[|parts| - 1])
  {
    if |parts| == 1 {
      assert parts[0][0..] == parts[0];
    } else {
      var rest := parts[1..];
      var s := Join(parts, sep);
      assert s == parts[0] + [sep] + Join(rest, sep);
      assert rest[|rest| - 1] == parts[|parts| - 1];
      JoinLast(rest, sep);
      assert s[|parts[0]|] == sep && s[|parts[0]| + 1..] == Join(rest, sep);
      AfterLastSeparatorExtends(s, sep, |parts[0]|, parts[|parts| - 1]);
    }
  }

  /** `t` is the text of `s` after its last `sep` (all of `s` when it has none). */
  predicate AfterLastSeparator(s: string, sep: char, t: string) {
    sep !in t && |t| <= |s| && t == s[|s| - |t|..]
    && (|t| == |s| || s[|s| - |t| - 1] == sep)
  }

  /** What follows the last separator of `s[i + 1..]` follows the last one of `s`, for `s[i]` a separator. */
  lemma AfterLastSeparatorExtends(s: string, sep: char, i: nat, t: string)
    requires i < |s| && s[i] == sep
    requires AfterLastSeparator(s[i + 1..], sep, t)
    ensures AfterLastSeparator(s, sep, t)
  {
    var rest := s[i + 1..];
    assert s[|s| - |t|..] == rest[|rest| - |t|..];
    if |t| < |rest| {
      assert s[|s| - |t| - 1] == rest[|rest| - |t| - 1];
    }
  }

  /** `s.trimStart()`. */
  function TrimStart(s: string): (r: string)
    ensures |r| <= |s|
    ensures forall k :: 0 <= k < |s| - |r| ==> IsWhitespace(s[k])
    ensures r == [] || !IsWhitespace(r[0])
  {
    if |s| > 0 && IsWhitespace(s[0]) then TrimStart(s[1..]) else s
  }

  /** `s.trimEnd()`. */
  function TrimEnd(s: string): (r: string)
    ensures |r| <= |s|
    ensures forall k :: |r| <= k < |s| ==> IsWhitespace(s[k])
    ensures r == [] || !IsWhitespace(r[|r| - 1])
  {
    if |s| > 0 && IsWhitespace(s[|s| - 1]) then TrimEnd(s[..|s| - 1]) else s
  }

  /** `s.trim()`: `s` without its leading and trailing white space. */
  function Trim(s: string): (r: string)
    ensures r == [] || (!IsWhitespace(r[0]) && !IsWhitespace(r[|r| - 1]))
  {
    TrimEndIsPrefix(TrimStart(s));
    TrimEnd(TrimStart(s))
  }

  /** What `trimStart` keeps is a suffix of its input. */
  lemma {:induction false} TrimStartIsSuffix(s: string)
    ensures TrimStart(s) == s[|s| - |TrimStart(s)|..]
  {
    if |s| > 0 && IsWhitespace(s[0]) {
      TrimStartIsSuffix(s[1..]);
    }
  }

  /** What `trimEnd` keeps is a prefix of its input. */
  lemma {:induction false} TrimEndIsPrefix(s: string)
    ensures TrimEnd(s) == s[..|TrimEnd(s)|]
  {
    if |s| > 0 && IsWhitespace(s[|s| - 1]) {
      TrimEndIsPrefix(s[..|s| - 1]);
    }
  }

  /** Text that neither starts nor ends with white space is its own trim. */
  lemma TrimUntouched(s: string)
    requires s == [] || (!IsWhitespace(s[0]) && !IsWhitespace(s[|s| - 1]))
    ensures Trim(s) == s
  {
  }

  /** Trimming keeps a sub-range of the text, so it never brings in a character the text lacks. */
  lemma TrimKeepsOut(s: string, c: char)
    requires c !in s
    ensures c !in Trim(s)
  {
    TrimStartIsSuffix(s);
    TrimEndIsPrefix(TrimStart(s));
  }

  /** Trimming twice is trimming once. */
  lemma TrimIdempotent(s: string)
    ensures Trim(Trim(s)) == Trim(s)
  {
    TrimUntouched(Trim(s));
  }
}
