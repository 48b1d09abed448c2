/**
 * The JavaScript string operations the tail-expression rewrite is built from:
 * `trim`, `trimEnd`, `split` on a one-character separator, `join`, and the
 * global replace of `/\/\/.*\/g` (removal of `//` line comments).
 */
module Text {

  /** The characters JavaScript's `trim` removes: WhiteSpace and LineTerminator. */
  predicate IsWhitespace(c: char)
  {
    c == '\t' || c == '\n' || c == '\U{B}' || c == '\U{C}' || c == '\r' || c == ' '
    || c == '\U{A0}' || c == '\U{1680}' || ('\U{2000}' <= c <= '\U{200A}')
    || c == '\U{2028}' || c == '\U{2029}' || c == '\U{202F}' || c == '\U{205F}'
    || c == '\U{3000}' || c == '\U{FEFF}'
  }

  /** The characters a regular expression's `.` does not match. */
  predicate IsLineTerminator(c: char)
  {
    c == '\n' || c == '\r' || c == '\U{2028}' || c == '\U{2029}'
  }

  /** `s.trimEnd()`: the longest prefix of `s` that does not end in whitespace. */
  function TrimEnd(s: string): string
  {
    if s == [] || !IsWhitespace(s[|s| - 1]) then s else TrimEnd(s[..|s| - 1])
  }

  /** `trimEnd` keeps a prefix that does not end in whitespace, and drops only whitespace. */
  lemma {:induction false} TrimEndPrefix(s: string)
    ensures var r := TrimEnd(s);
      |r| <= |s| && r == s[..|r|]
      && (r == [] || !IsWhitespace(r[|r| - 1]))
      && (forall i :: |r| <= i < |s| ==> IsWhitespace(s[i]))
    decreases |s|
  {
    if s != [] && IsWhitespace(s[|s| - 1]) {
      var t := s[..|s| - 1];
      TrimEndPrefix(t);
      assert TrimEnd(s) == TrimEnd(t);
      assert t[..|TrimEnd(t)|] == s[..|TrimEnd(t)|];
    }
  }

  /** `s.trimStart()`: the longest suffix of `s` that does not start with whitespace. */
  function TrimStart(s: string): string
  {
    if s == [] || !IsWhitespace(s[0]) then s else TrimStart(s[1..])
  }

  /** `trimStart` keeps a suffix that does not start with whitespace, and drops only whitespace. */
  lemma {:induction false} TrimStartSuffix(s: string)
    ensures var r := TrimStart(s);
      |r| <= |s| && r == s[|s| - |r|..]
      && (r == [] || !IsWhitespace(r[0]))
      && (forall i :: 0 <= i < |s| - |r| ==> IsWhitespace(s[i]))
    decreases |s|
  {
    if s != [] && IsWhitespace(s[0]) {
      var t := s[1..];
      TrimStartSuffix(t);
      assert TrimStart(s) == TrimStart(t);
      assert t[|t| - |TrimStart(t)|..] == s[|s| - |TrimStart(t)|..];
      forall i | 0 <= i < |s| - |TrimStart(t)| ensures IsWhitespace(s[i]) {
        if i > 0 {
          assert s[i] == t[i - 1];
        }
      }
    }
  }

  /** `s.trim()`: `s` without its leading and trailing whitespace. */
  function Trim(s: string): string
  {
    TrimStart(TrimEnd(s))
  }

  /** `trim` keeps a slice of `s` that neither starts nor ends with whitespace. */
  lemma TrimSlice(s: string)
    ensures var r := Trim(s);
      r == [] || (!IsWhitespace(r[0]) && !IsWhitespace(r[|r| - 1]))
    ensures var r := Trim(s);
      var k := |TrimEnd(s)| - |r|;
      0 <= k && k + |r| <= |s| && r == s[k..k + |r|]
  {
    var e := TrimEnd(s);
    var r := TrimStart(e);
    TrimEndPrefix(s);
    TrimStartSuffix(e);
    var k := |e| - |r|;
    assert r != [] ==> r[|r| - 1] == e[|e| - 1];
    assert e == s[..|e|];
    assert r == s[k..|e|];
  }

  /** What `trim` drops, before and after the slice it keeps, is all whitespace. */
  lemma TrimDropsOnlyWhitespace(s: string)
    ensures |Trim(s)| <= |TrimEnd(s)| <= |s|
    ensures var k := |TrimEnd(s)| - |Trim(s)|;
      (forall i :: 0 <= i < k ==> IsWhitespace(s[i]))
      && (forall i :: k + |Trim(s)| <= i < |s| ==> IsWhitespace(s[i]))
  {
    var e := TrimEnd(s);
    var r := TrimStart(e);
    TrimEndPrefix(s);
    TrimStartSuffix(e);
    var k := |e| - |r|;
    assert forall i :: 0 <= i < k ==> s[i] == e[i];
  }

  /** Text without leading or trailing whitespace is its own trim. */
  lemma TrimOfTrimmed(s: string)
    requires s == [] || (!IsWhitespace(s[0]) && !IsWhitespace(s[|s| - 1]))
    ensures Trim(s) == s
  {
  }

  /** `parts.join(sep)`. */
  function Join(parts: seq<string>, sep: string): string
  {
    if |parts| == 0 then ""
    else if |parts| == 1 then parts[0]
    else parts[0] + sep + Join(parts[1..], sep)
  }

  /** Joining one more piece puts exactly one separator before it. */
  lemma {:induction false} JoinSnoc(parts: seq<string>, x: string, sep: string)
    ensures Join(parts + [x], sep) == if parts == [] then x else Join(parts, sep) + sep + x
  {
    if |parts| >= 2 {
      assert (parts + [x])[1..] == parts[1..] + [x];
      JoinSnoc(parts[1..], x, sep);
    } else if |parts| == 1 {
      assert (parts + [x])[1..] == [x];
    }
  }

  /** `s.split(sep)` for a one-character separator: the pieces between the separators. */
  function Split(s: string, sep: char): (parts: seq<string>)
    ensures |parts| >= 1
  {
    if s == [] then [""]
    else
      var rest := Split(s[1..], sep);
      if s[0] == sep then [""] + rest else [[s[0]] + rest[0]] + rest[1..]
  }

  /** Joining the pieces of `split` with the separator gives `s` back. */
  lemma {:induction false} SplitJoinsBack(s: string, sep: char)
    ensures Join(Split(s, sep), [sep]) == s
    decreases |s|
  {
    if s != [] {
      var rest := Split(s[1..], sep);
      SplitJoinsBack(s[1..], sep);
      var parts := Split(s, sep);
      if s[0] != sep {
        assert |rest| >= 2 ==> Join(rest, [sep]) == rest[0] + [sep] + Join(rest[1..], [sep]);
        assert parts[1..] == rest[1..];
      }
    }
  }

  /** No piece of `split` holds the separator. */
  lemma {:induction false} SplitPiecesFree(s: string, sep: char)
    ensures forall i :: 0 <= i < |Split(s, sep)| ==> sep !in Split(s, sep)[i]
    decreases |s|
  {
    if s != [] {
      var rest := Split(s[1..], sep);
      SplitPiecesFree(s[1..], sep);
      var parts := Split(s, sep);
      if s[0] != sep {
        forall i | 1 <= i < |parts| ensures sep !in parts[i] {
          assert parts[i] == rest[i];
        }
      } else {
        forall i | 1 <= i < |parts| ensures sep !in parts[i] {
          assert parts[i] == rest[i - 1];
        }
      }
    }
  }

  /** A separator-free prefix followed by the separator becomes the first piece. */
  lemma {:induction false} SplitAfterPiece(p: string, t: string, sep: char)
    requires sep !in p
    ensures Split(p + [sep] + t, sep) == [p] + Split(t, sep)
  {
    if p == [] {
      assert p + [sep] + t == [sep] + t;
      assert ([sep] + t)[1..] == t;
    } else {
      assert (p + [sep] + t)[1..] == p[1..] + [sep] + t;
      SplitAfterPiece(p[1..], t, sep);
      assert [p[0]] + p[1..] == p;
    }
  }

  /** A separator-free string splits into itself alone. */
  lemma {:induction false} SplitOfPiece(p: string, sep: char)
    requires sep !in p
    ensures Split(p, sep) == [p]
  {
    if p != [] {
      SplitOfPiece(p[1..], sep);
      assert [p[0]] + p[1..] == p;
    }
  }

  /** `split` inverts `join` on a non-empty list of separator-free pieces. */
  lemma {:induction false} SplitJoin(parts: seq<string>, sep: char)
    requires |parts| >= 1
    requires forall i :: 0 <= i < |parts| ==> sep !in parts[i]
    ensures Split(Join(parts, [sep]), sep) == parts
  {
    if |parts| == 1 {
      SplitOfPiece(parts[0], sep);
    } else {
      SplitJoin(parts[1..], sep);
      SplitAfterPiece(parts[0], Join(parts[1..], [sep]), sep);
      assert [parts[0]] + parts[1..] == parts;
    }
  }

  /** `s` begins a `//` line comment. */
  predicate StartsComment(s: string)
  {
    |s| >= 2 && s[0] == '/' && s[1] == '/'
  }

  /** The rest of `s` from its first line terminator on (what `.*` cannot consume). */
  function SkipToLineEnd(s: string): (r: string)
    ensures |r| <= |s|
  {
    if s == [] || IsLineTerminator(s[0]) then s else SkipToLineEnd(s[1..])
  }

  /** `.*` consumes exactly the characters before the first line terminator. */
  lemma {:induction false} SkipToLineEndSuffix(s: string)
    ensures var r := SkipToLineEnd(s);
      r == s[|s| - |r|..]
      && (r == [] || IsLineTerminator(r[0]))
      && (forall i :: 0 <= i < |s| - |r| ==> !IsLineTerminator(s[i]))
    decreases |s|
  {
    if s != [] && !IsLineTerminator(s[0]) {
      var t := s[1..];
      SkipToLineEndSuffix(t);
      assert t[|t| - |SkipToLineEnd(t)|..] == s[|s| - |SkipToLineEnd(t)|..];
      forall i | 0 <= i < |s| - |SkipToLineEnd(t)| ensures !IsLineTerminator(s[i]) {
        if i > 0 {
          assert s[i] == t[i - 1];
        }
      }
    }
  }

  /**
   * `s.replace(/\/\/.*\/g, '')`: every `//` and the rest of its line is
   * removed, scanning left to right.
   */
  function StripLineComments(s: string): string
    decreases |s|
  {
    if StartsComment(s) then
      StripLineComments(SkipToLineEnd(s[2..]))
    else if s == [] then
      []
    else
      [s[0]] + StripLineComments(s[1..])
  }

  /**
   * The removal never lengthens the text and leaves no `//` at all; text not
   * starting a comment keeps its first character, and a comment is removed
   * up to its line terminator.
   */
  lemma {:induction false} StripLineCommentsFacts(s: string)
    ensures var r := StripLineComments(s);
      |r| <= |s|
      && (forall i :: 0 <= i < |r| - 1 ==> !(r[i] == '/' && r[i + 1] == '/'))
      && (s != [] && !StartsComment(s) ==> r != [] && r[0] == s[0])
      && (StartsComment(s) ==> r == [] || IsLineTerminator(r[0]))
    decreases |s|
  {
    if StartsComment(s) {
      var t := SkipToLineEnd(s[2..]);
      SkipToLineEndSuffix(s[2..]);
      StripLineCommentsFacts(t);
      if t != [] {
        assert !StartsComment(t);
      }
    } else if s != [] {
      var r' := StripLineComments(s[1..]);
      StripLineCommentsFacts(s[1..]);
      var r := StripLineComments(s);
      assert r == [s[0]] + r';
      forall i | 0 <= i < |r| - 1 ensures !(r[i] == '/' && r[i + 1] == '/') {
        if i > 0 {
          assert r[i] == r'[i - 1] && r[i + 1] == r'[i];
        } else if s[0] == '/' && r' != [] {
          assert r'[0] == s[1];
        }
      }
    }
  }

  /**
   * The removal keeps the text before the first `//`: if no comment starts
   * in the first k characters, they begin the result, whatever line
   * terminators they hold.
   */
  lemma {:induction false} StripLineCommentsKeepsPrefix(s: string, k: nat)
    requires k <= |s|
    requires forall i :: 0 <= i < k ==> !StartsComment(s[i..])
    ensures s[..k] <= StripLineComments(s)
    decreases k
  {
    if k > 0 {
      assert !StartsComment(s[0..]);
      assert s[0..] == s;
      forall i | 0 <= i < k - 1 ensures !StartsComment(s[1..][i..]) {
        assert s[1..][i..] == s[i + 1..];
      }
      StripLineCommentsKeepsPrefix(s[1..], k - 1);
      assert StripLineComments(s) == [s[0]] + StripLineComments(s[1..]);
      assert s[..k] == [s[0]] + s[1..][..k - 1];
    }
  }

  /**
   * On text without line terminators the removal is a truncation at the
   * first `//`: the result is the prefix of `s` before it (all of `s` if none).
   */
  lemma {:induction false} StripLineCommentsSingleLine(s: string)
    requires forall i :: 0 <= i < |s| ==> !IsLineTerminator(s[i])
    ensures StripLineComments(s) <= s
    ensures forall i :: 0 <= i < |StripLineComments(s)| ==> !StartsComment(s[i..])
    ensures |StripLineComments(s)| == |s| || StartsComment(s[|StripLineComments(s)|..])
    decreases |s|
  {
    var r := StripLineComments(s);
    if StartsComment(s) {
      var t := SkipToLineEnd(s[2..]);
      SkipToLineEndSuffix(s[2..]);
      assert t == [];
      assert r == StripLineComments(t);
      assert StripLineComments([]) == [];
    } else if s != [] {
      StripLineCommentsSingleLine(s[1..]);
      var r' := StripLineComments(s[1..]);
      assert r == [s[0]] + r';
      forall i | 0 <= i < |r| ensures !StartsComment(s[i..]) {
        if i > 0 {
          assert s[i..] == s[1..][i - 1..];
        }
      }
      if |r| < |s| {
        assert s[|r|..] == s[1..][|r'|..];
      }
    }
  }
}
