/** String operations the console performs on user input and fetched text:
    `toLowerCase`, `includes`, `split(',')` and `trim`. */
module Text {

  /** `toLowerCase`, restricted to the ASCII letters; every other character is
      left as it is. */
  function LowerChar(c: char): (r: char)
    ensures !('A' <= r <= 'Z')
    ensures 'A' <= c <= 'Z' ==> r as int == c as int + 32
    ensures !('A' <= c <= 'Z') ==> r == c
  {
    if 'A' <= c <= 'Z' then (c as int + 32) as char else c
  }

  function Lower(s: string): (r: string)
    ensures |r| == |s| && forall i :: 0 <= i < |s| ==> r[i] == LowerChar(s[i])
  {
    seq(|s|, i requires 0 <= i < |s| => LowerChar(s[i]))
  }

  /** Lower-casing twice is lower-casing once. */
  lemma LowerIdempotent(s: string)
    ensures Lower(Lower(s)) == Lower(s)
  {
  }

  /** `s.includes(t)`: `t` occurs in `s` as a contiguous block. */
  predicate IsInfix(t: string, s: string)
    decreases |s|
  {
    t <= s || (s != [] && IsInfix(t, s[1..]))
  }

  /** `t` occupies the window of `s` that starts at `i`. */
  predicate OccursAt(t: string, s: string, i: int) {
    0 <= i <= |s| - |t| && s[i..i + |t|] == t
  }

  /** `IsInfix` agrees with "some window of `s` equals `t`". */
  lemma {:induction false} IsInfixWindow(t: string, s: string)
    ensures IsInfix(t, s) <==> exists i :: OccursAt(t, s, i)
    decreases |s|
  {
    if s != [] {
      IsInfixWindow(t, s[1..]);
      if t <= s {
        assert OccursAt(t, s, 0);
      } else if IsInfix(t, s[1..]) {
        var i :| OccursAt(t, s[1..], i);
        assert OccursAt(t, s, i + 1);
      }
      if exists i :: OccursAt(t, s, i) {
        var i :| OccursAt(t, s, i);
        if i > 0 {
          assert OccursAt(t, s[1..], i - 1);
        } else {
          assert t <= s;
        }
      }
    } else {
      if t == [] {
        assert OccursAt(t, s, 0);
      }
    }
  }

  /** The empty string occurs in every string, so an empty search term matches. */
  lemma EmptyIsInfix(s: string)
    ensures IsInfix("", s)
  {
  }

  /** `s.toLowerCase().includes(t.toLowerCase())`. */
  predicate ContainsIgnoringCase(s: string, t: string) {
    IsInfix(Lower(t), Lower(s))
  }

  /** An empty search term matches every text. */
  lemma EmptyTermMatches(s: string)
    ensures ContainsIgnoringCase(s, "")
  {
    assert Lower("") == "";
  }

  /** The match ignores the case of both the text and the term: lower-casing
      either one first gives the same answer. */
  lemma CaseInsensitive(s: string, t: string)
    ensures ContainsIgnoringCase(Lower(s), t) == ContainsIgnoringCase(s, t)
    ensures ContainsIgnoringCase(s, Lower(t)) == ContainsIgnoringCase(s, t)
  {
    LowerIdempotent(s);
    LowerIdempotent(t);
  }

  /** `s.split(sep)`: the pieces between separators, with the empty pieces
      that consecutive or edge separators produce. */
  function Split(s: string, sep: char): (r: seq<string>)
    ensures |r| >= 1
    ensures forall i :: 0 <= i < |r| ==> sep !in r[i]
    decreases |s|
  {
    if s == [] then [""]
    else
      var rest := Split(s[1..], sep);
      if s[0] == sep then [""] + rest
      else [[s[0]] + rest[0]] + rest[1..]
  }

  /** `parts.join(sep)`. */
  function Join(parts: seq<string>, sep: char): string
    requires |parts| >= 1
    decreases |parts|
  {
    if |parts| == 1 then parts[0] else parts[0] + [sep] + Join(parts[1..], sep)
  }

  /** Joining the pieces back with the separator gives the original text. */
  lemma {:induction false} JoinSplit(s: string, sep: char)
    ensures Join(Split(s, sep), sep) == s
    decreases |s|
  {
    if s != [] {
      JoinSplit(s[1..], sep);
      var rest := Split(s[1..], sep);
      if s[0] == sep {
        assert ([""] + rest)[1..] == rest;
      } else {
        var r := Split(s, sep);
        assert r[0] == [s[0]] + rest[0];
        if |rest| == 1 {
          assert |r| == 1;
        } else {
          assert r[1..] == rest[1..];
        }
        assert s == [s[0]] + s[1..];
      }
    }
  }

  lemma {:induction false} SplitWithoutSep(a: string, sep: char)
    requires sep !in a
    ensures Split(a, sep) == [a]
    decreases |a|
  {
    if a != [] {
      SplitWithoutSep(a[1..], sep);
      assert [a[0]] + a[1..] == a;
    }
  }

  lemma {:induction false} SplitAfterPiece(a: string, sep: char, b: string)
    requires sep !in a
    ensures Split(a + [sep] + b, sep) == [a] + Split(b, sep)
    decreases |a|
  {
    var s := a + [sep] + b;
    if a == [] {
      assert s[0] == sep && s[1..] == b;
    } else {
      assert s[0] == a[0] && s[1..] == a[1..] + [sep] + b;
      SplitAfterPiece(a[1..], sep, b);
      assert [a[0]] + a[1..] == a;
    }
  }

  /** Splitting a join of separator-free pieces gives the pieces back. */
  lemma {:induction false} SplitJoin(parts: seq<string>, sep: char)
    requires |parts| >= 1
    requires forall i :: 0 <= i < |parts| ==> sep !in parts[i]
    ensures Split(Join(parts, sep), sep) == parts
    decreases |parts|
  {
    if |parts| == 1 {
      SplitWithoutSep(parts[0], sep);
    } else {
      SplitJoin(parts[1..], sep);
      SplitAfterPiece(parts[0], sep, Join(parts[1..], sep));
      assert [parts[0]] + parts[1..] == parts;
    }
  }

  /** The characters `trim` and `parseInt` skip: ECMAScript's WhiteSpace and
      LineTerminator code points. */
  predicate IsJsSpace(c: char) {
    c == ' ' || c == '\t' || c == '\n' || c == '\r' || c == '\U{000B}' || c == '\U{000C}'
    || c == '\U{00A0}' || c == '\U{1680}' || ('\U{2000}' <= c <= '\U{200A}')
    || c == '\U{2028}' || c == '\U{2029}' || c == '\U{202F}' || c == '\U{205F}'
    || c == '\U{3000}' || c == '\U{FEFF}'
  }

  /** `trimStart`: the suffix left after dropping leading white space. */
  function TrimStart(s: string): (r: string)
    ensures |r| <= |s| && r == s[|s| - |r|..]
    ensures forall i :: 0 <= i < |s| - |r| ==> IsJsSpace(s[i])
    ensures r != [] ==> !IsJsSpace(r[0])
    decreases |s|
  {
    if s != [] && IsJsSpace(s[0]) then TrimStart(s[1..]) else s
  }

  /** `trimEnd`: the prefix left after dropping trailing white space. */
  function TrimEnd(s: string): (r: string)
    ensures |r| <= |s| && r == s[..|r|]
    ensures forall i :: |r| <= i < |s| ==> IsJsSpace(s[i])
    ensures r != [] ==> !IsJsSpace(r[|r| - 1])
    decreases |s|
  {
    if s != [] && IsJsSpace(s[|s| - 1]) then TrimEnd(s[..|s| - 1]) else s
  }

  /** `trim`. */
  function Trim(s: string): (r: string)
    ensures r != [] ==> !IsJsSpace(r[0]) && !IsJsSpace(r[|r| - 1])
  {
    TrimEnd(TrimStart(s))
  }

  /** `trimStart` drops exactly the leading white space. */
  lemma {:induction false} TrimStartSpaces(spaces: string, x: string)
    requires forall i :: 0 <= i < |spaces| ==> IsJsSpace(spaces[i])
    requires x != [] ==> !IsJsSpace(x[0])
    ensures TrimStart(spaces + x) == x
    decreases |spaces|
  {
    if spaces == [] {
      assert spaces + x == x;
    } else {
      assert (spaces + x)[1..] == spaces[1..] + x;
      TrimStartSpaces(spaces[1..], x);
    }
  }

  /** Leading white space is dropped and text without white space at either
      edge is left alone: `" 7".trim() == "7"`. */
  lemma {:induction false} TrimSpacesThenText(spaces: string, x: string)
    requires forall i :: 0 <= i < |spaces| ==> IsJsSpace(spaces[i])
    requires x != [] ==> !IsJsSpace(x[0]) && !IsJsSpace(x[|x| - 1])
    ensures Trim(spaces + x) == x
    decreases |spaces|
  {
    if spaces == [] {
      assert spaces + x == x;
      assert TrimStart(x) == x;
      assert TrimEnd(x) == x;
    } else {
      assert (spaces + x)[1..] == spaces[1..] + x;
      TrimSpacesThenText(spaces[1..], x);
    }
  }
}
