/**
 * The JavaScript string operations the templates and components use:
 * `trim`, ASCII `toLowerCase`/`toUpperCase`, `split` on one character,
 * `join`, and `slice` of a leading part.
 */
module Text {

  /** The WhiteSpace and LineTerminator code points that `String.prototype.trim` strips. */
  predicate IsWhitespace(c: char) {
    || c == ' ' || c == '\t' || c == '\n' || c == '\r'
    || c == '\U{000B}' || c == '\U{000C}' || c == '\U{00A0}' || c == '\U{FEFF}'
    || c == '\U{1680}' || ('\U{2000}' <= c <= '\U{200A}')
    || c == '\U{2028}' || c == '\U{2029}' || c == '\U{202F}' || c == '\U{205F}' || c == '\U{3000}'
  }

  /** No line break at any position: the form in which a literal's lines are checked character by character. */
  predicate Breakless(s: string) {
    forall k :: 0 <= k < |s| ==> s[k] != '\n'
  }

  lemma BreaklessNotIn(s: string)
    requires Breakless(s)
    ensures '\n' !in s
  {
  }

  predicate AllWhitespace(s: string) {
    forall k :: 0 <= k < |s| ==> IsWhitespace(s[k])
  }

  /** Drops the leading whitespace: the result is the longest suffix that does not start with whitespace. */
  function TrimStart(s: string): (r: string)
    ensures |r| <= |s| && r == s[|s| - |r|..]
    ensures AllWhitespace(s[..|s| - |r|])
    ensures r == [] || !IsWhitespace(r[0])
  {
    if |s| > 0 && IsWhitespace(s[0]) then
      var r := TrimStart(s[1..]);
      assert s[..|s| - |r|] == [s[0]] + s[1..][..|s| - 1 - |r|];
      r
    else s
  }

  /** Drops the trailing whitespace: the result is the longest prefix that does not end with whitespace. */
  function TrimEnd(s: string): (r: string)
    ensures |r| <= |s| && r == s[..|r|]
    ensures AllWhitespace(s[|r|..])
    ensures r == [] || !IsWhitespace(r[|r| - 1])
  {
    if |s| > 0 && IsWhitespace(s[|s| - 1]) then
      var r := TrimEnd(s[..|s| - 1]);
      assert s[|r|..] == s[..|s| - 1][|r|..] + [s[|s| - 1]];
      r
    else s
  }

  /** `s.trim()`. */
  function Trim(s: string): string {
    TrimEnd(TrimStart(s))
  }

  /**
   * Trimming text that is wrapped in whitespace gives back the text, as long
   * as the text itself neither starts nor ends with whitespace.
   */
  lemma {:induction false} TrimWrapped(before: string, s: string, after: string)
    requires AllWhitespace(before) && AllWhitespace(after)
    requires |s| > 0 && !IsWhitespace(s[0]) && !IsWhitespace(s[|s| - 1])
    ensures Trim(before + s + after) == s
  {
    var whole := before + s + after;
    assert whole[|before|] == s[0];
    var t := TrimStart(whole);
    assert t == s + after;
    assert t[|s| - 1] == s[|s| - 1];
  }

  /** ASCII `toLowerCase` of one character; other code points are left unchanged. */
  function LowerChar(c: char): char {
    if 'A' <= c <= 'Z' then (c as int + 32) as char else c
  }

  /** ASCII `toUpperCase` of one character; other code points are left unchanged. */
  function UpperChar(c: char): char {
    if 'a' <= c <= 'z' then (c as int - 32) as char else c
  }

  /** `s.toLowerCase()`, character by character. */
  function Lower(s: string): (r: string)
    ensures |r| == |s|
    ensures forall k :: 0 <= k < |s| ==> r[k] == LowerChar(s[k])
  {
    if s == [] then [] else [LowerChar(s[0])] + Lower(s[1..])
  }

  /** `s.toUpperCase()`, character by character. */
  function Upper(s: string): (r: string)
    ensures |r| == |s|
    ensures forall k :: 0 <= k < |s| ==> r[k] == UpperChar(s[k])
  {
    if s == [] then [] else [UpperChar(s[0])] + Upper(s[1..])
  }

  /** Lower-casing leaves no ASCII capital and is idempotent. */
  lemma LowerIsLowered(s: string)
    ensures forall k :: 0 <= k < |s| ==> !('A' <= Lower(s)[k] <= 'Z')
    ensures Lower(Lower(s)) == Lower(s)
  {
  }

  /** Lower-casing brings in no character that is not a capital letter's image. */
  lemma LowerKeepsAbsent(s: string, c: char)
    requires c !in s && !('a' <= c <= 'z')
    ensures c !in Lower(s)
  {
  }

  lemma AbsentFromPrefix<T>(s: seq<T>, n: nat, c: T)
    requires n <= |s| && c !in s
    ensures c !in s[..n]
  {
  }

  /** A value absent from `s` is absent from its first piece. */
  lemma FirstPieceKeepsAbsent<T>(s: seq<T>, sep: T, c: T)
    requires c !in s
    ensures c !in FirstPiece(s, sep)
  {
    FirstPieceIsPrefix(s, sep);
    AbsentFromPrefix(s, |FirstPiece(s, sep)|, c);
  }

  /** `parts.join(sep)`, for pieces of any element type. */
  function Join<T>(parts: seq<seq<T>>, sep: seq<T>): seq<T> {
    if |parts| == 0 then []
    else if |parts| == 1 then parts[0]
    else parts[0] + sep + Join(parts[1..], sep)
  }

  /**
   * `s.split(sep)` for a one-element separator: the pieces between the
   * separators, always at least one (the empty string splits into `[""]`).
   * Joining the pieces with the separator gives `s` back.
   */
  function Split<T(==)>(s: seq<T>, sep: T): (r: seq<seq<T>>)
    ensures |r| >= 1
    ensures forall k :: 0 <= k < |r| ==> sep !in r[k]
    ensures Join(r, [sep]) == s
  {
    if s == [] then [[]]
    else
      var rest := Split(s[1..], sep);
      if s[0] == sep then [[]] + rest
      else [[s[0]] + rest[0]] + rest[1..]
  }

  /** Joining with a leading empty piece starts with the separator. */
  lemma JoinEmptyHead<T>(parts: seq<seq<T>>, sep: seq<T>)
    requires |parts| >= 2 && parts[0] == []
    ensures Join(parts, sep) == sep + Join(parts[1..], sep)
  {
  }

  /** Joining peels the first character of a non-empty first piece. */
  lemma JoinConsHead<T>(parts: seq<seq<T>>, sep: seq<T>)
    requires |parts| >= 1 && parts[0] != []
    ensures Join(parts, sep) == [parts[0][0]] + Join([parts[0][1..]] + parts[1..], sep)
  {
    var shorter := [parts[0][1..]] + parts[1..];
    assert shorter[1..] == parts[1..];
  }

  /** Splitting text that starts with a character other than the separator. */
  lemma SplitConsOther<T>(c: T, rest: seq<T>, sep: T)
    requires c != sep
    ensures Split([c] + rest, sep) == [[c] + Split(rest, sep)[0]] + Split(rest, sep)[1..]
  {
    assert ([c] + rest)[1..] == rest;
  }

  /** Splitting text that starts with the separator. */
  lemma SplitConsSep<T>(rest: seq<T>, sep: T)
    ensures Split([sep] + rest, sep) == [[]] + Split(rest, sep)
  {
    assert ([sep] + rest)[1..] == rest;
  }

  /** Splitting joined pieces gives the pieces back when none of them holds the separator. */
  lemma {:induction false} SplitJoin<T>(parts: seq<seq<T>>, sep: T)
    requires |parts| >= 1
    requires forall k :: 0 <= k < |parts| ==> sep !in parts[k]
    ensures Split(Join(parts, [sep]), sep) == parts
    decreases |parts|, |parts[0]|
  {
    if parts[0] == [] {
      if |parts| > 1 {
        JoinEmptyHead(parts, [sep]);
        SplitJoin(parts[1..], sep);
        SplitConsSep(Join(parts[1..], [sep]), sep);
        assert [[]] + parts[1..] == parts;
      }
    } else {
      var c := parts[0][0];
      var shorter := [parts[0][1..]] + parts[1..];
      assert sep !in shorter[0] by {
        assert forall m :: 0 <= m < |parts[0][1..]| ==> parts[0][1..][m] == parts[0][m + 1];
      }
      assert forall k :: 1 <= k < |shorter| ==> shorter[k] == parts[k];
      SplitJoin(shorter, sep);
      JoinConsHead(parts, [sep]);
      SplitConsOther(c, Join(shorter, [sep]), sep);
      assert [c] + shorter[0] == parts[0];
      assert shorter[1..] == parts[1..];
    }
  }

  predicate StartsWith<T(==)>(s: seq<T>, prefix: seq<T>) {
    |prefix| <= |s| && s[..|prefix|] == prefix
  }

  predicate EndsWith<T(==)>(s: seq<T>, suffix: seq<T>) {
    |suffix| <= |s| && s[|s| - |suffix|..] == suffix
  }

  /** Joining two non-empty runs of pieces puts one separator between them. */
  lemma {:induction false} JoinAppend<T>(a: seq<seq<T>>, b: seq<seq<T>>, sep: seq<T>)
    requires |a| >= 1 && |b| >= 1
    ensures Join(a + b, sep) == Join(a, sep) + sep + Join(b, sep)
  {
    if |a| == 1 {
      assert (a + b)[1..] == b;
    } else {
      JoinAppend(a[1..], b, sep);
      assert (a + b)[1..] == a[1..] + b;
    }
  }

  /** `s.split(sep)[0]`: the text before the first separator, or all of `s` when there is none. */
  function FirstPiece<T(==)>(s: seq<T>, sep: T): (r: seq<T>)
    ensures sep !in r
  {
    Split(s, sep)[0]
  }

  /**
   * The first piece is the longest prefix of `s` free of the separator: it is
   * all of `s` when `s` holds no separator, and otherwise is followed by one.
   */
  lemma {:induction false} FirstPieceIsPrefix<T>(s: seq<T>, sep: T)
    ensures |FirstPiece(s, sep)| <= |s| && FirstPiece(s, sep) == s[..|FirstPiece(s, sep)|]
    ensures sep !in s ==> FirstPiece(s, sep) == s
    ensures sep in s ==> |FirstPiece(s, sep)| < |s| && s[|FirstPiece(s, sep)|] == sep
  {
    if s != [] {
      FirstPieceIsPrefix(s[1..], sep);
      if s[0] != sep {
        assert sep in s ==> sep in s[1..] by {
          if sep in s {
            var k :| 0 <= k < |s| && s[k] == sep;
            assert s[1..][k - 1] == sep;
          }
        }
      }
    }
  }

  /** The first `count` pieces joined back are a prefix of the joined whole. */
  lemma {:induction false} JoinTakeIsPrefix<T>(parts: seq<seq<T>>, sep: seq<T>, count: nat)
    requires count <= |parts|
    ensures var p := Join(parts[..count], sep);
      |p| <= |Join(parts, sep)| && p == Join(parts, sep)[..|p|]
  {
    if count == 0 {
    } else if |parts| == 1 {
      assert parts[..count] == parts;
    } else if count == 1 {
      assert parts[..1] == [parts[0]];
    } else {
      JoinTakeIsPrefix(parts[1..], sep, count - 1);
      assert parts[..count][1..] == parts[1..][..count - 1];
    }
  }

  /** `s.slice(0, n)`: at most the first `n` characters. */
  function SliceFront(s: string, n: nat): (r: string)
    ensures |r| == if n <= |s| then n else |s|
    ensures r == s[..|r|]
  {
    if n <= |s| then s[..n] else s
  }
}
