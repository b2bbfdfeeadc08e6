/**
 * The .NET string primitives that Pudelko.Parse is built from:
 * String.Split on one character or on white space (empty entries kept),
 * StringSplitOptions.RemoveEmptyEntries, String.Trim and String.ToLower.
 */
module Text {

  /** char.IsWhiteSpace: the Unicode space separators, line and paragraph
      separators, U+0009..U+000D, U+0085 and U+00A0. */
  predicate IsWhiteSpace(c: char)
  {
    c == ' ' || ('\t' <= c <= '\r') || c == '\U{0085}' || c == '\U{00A0}' ||
    c == '\U{1680}' || ('\U{2000}' <= c <= '\U{200A}') || c == '\U{2028}' ||
    c == '\U{2029}' || c == '\U{202F}' || c == '\U{205F}' || c == '\U{3000}'
  }

  /** What a String.Split call splits on: one given character, or (the
      argument-less overload) every white-space character. */
  datatype Separator = Char(c: char) | WhiteSpace

  predicate Separates(sep: Separator, c: char)
  {
    match sep
    case Char(d) => c == d
    case WhiteSpace => IsWhiteSpace(c)
  }

  predicate NoSeparator(s: string, sep: Separator)
  {
    forall i :: 0 <= i < |s| ==> !Separates(sep, s[i])
  }

  /** The number of separator characters in s. */
  function SeparatorCount(s: string, sep: Separator): nat
  {
    if s == [] then 0
    else (if Separates(sep, s[0]) then 1 else 0) + SeparatorCount(s[1..], sep)
  }

  /** String.Split without RemoveEmptyEntries: the pieces between the
      separators, empty pieces included; never an empty list. */
  function Split(s: string, sep: Separator): (r: seq<string>)
    ensures |r| >= 1
  {
    if s == [] then [""]
    else
      var rest := Split(s[1..], sep);
      if Separates(sep, s[0]) then [""] + rest
      else [[s[0]] + rest[0]] + rest[1..]
  }

  /** Concatenation of the pieces with the separator character between them. */
  function Join(parts: seq<string>, c: char): string
  {
    if |parts| <= 1 then (if parts == [] then "" else parts[0])
    else parts[0] + [c] + Join(parts[1..], c)
  }

  /** StringSplitOptions.RemoveEmptyEntries: the non-empty pieces, in order. */
  function RemoveEmptyEntries(parts: seq<string>): (r: seq<string>)
    ensures forall i :: 0 <= i < |r| ==> r[i] != []
    ensures forall i :: 0 <= i < |r| ==> r[i] in parts
    ensures |r| <= |parts|
  {
    if parts == [] then []
    else (if parts[0] == [] then [] else [parts[0]]) + RemoveEmptyEntries(parts[1..])
  }

  function TrimStart(s: string): string
  {
    if s != [] && IsWhiteSpace(s[0]) then TrimStart(s[1..]) else s
  }

  function TrimEnd(s: string): string
  {
    if s != [] && IsWhiteSpace(s[|s| - 1]) then TrimEnd(s[..|s| - 1]) else s
  }

  /** String.Trim(): strips white space from both ends. */
  function Trim(s: string): (r: string)
    ensures |r| <= |s|
    ensures r != [] ==> !IsWhiteSpace(r[0]) && !IsWhiteSpace(r[|r| - 1])
  {
    TrimStartEnds(s);
    TrimEndEnds(TrimStart(s));
    TrimEnd(TrimStart(s))
  }

  function LowerChar(c: char): char
  {
    if 'A' <= c <= 'Z' then (c as int + 32) as char else c
  }

  /** String.ToLower() on the letters that matter here (see README): no
      upper-case letter is left, and every other character is kept. */
  function ToLower(s: string): (r: string)
    ensures |r| == |s|
    ensures forall i :: 0 <= i < |r| ==> !('A' <= r[i] <= 'Z')
    ensures forall i :: 0 <= i < |r| ==> !('A' <= s[i] <= 'Z') ==> r[i] == s[i]
    ensures forall i :: 0 <= i < |r| ==> r[i] == s[i] || r[i] as int == s[i] as int + 32
  {
    seq(|s|, i requires 0 <= i < |s| => LowerChar(s[i]))
  }

  // ---------------------------------------------------------------------
  // Properties of Split

  /** Splitting at one separator character splits the two sides independently. */
  lemma {:induction false} SplitAtSeparator(a: string, c: char, b: string, sep: Separator)
    requires Separates(sep, c)
    ensures Split(a + [c] + b, sep) == Split(a, sep) + Split(b, sep)
  {
    if a == [] {
      assert a + [c] + b == [c] + b;
      assert ([c] + b)[1..] == b;
    } else {
      assert (a + [c] + b)[1..] == a[1..] + [c] + b;
      SplitAtSeparator(a[1..], c, b, sep);
    }
  }

  /** A leading separator produces an empty first piece. */
  lemma SplitLeadingSeparator(c: char, b: string, sep: Separator)
    requires Separates(sep, c)
    ensures Split([c] + b, sep) == [""] + Split(b, sep)
  {
    assert ([c] + b)[1..] == b;
  }

  /** A piece without separators is not split. */
  lemma {:induction false} SplitWithoutSeparator(s: string, sep: Separator)
    requires NoSeparator(s, sep)
    ensures Split(s, sep) == [s]
  {
    if s != [] {
      SplitWithoutSeparator(s[1..], sep);
      assert [s[0]] + s[1..] == s;
    }
  }

  /** Split yields one piece more than there are separators. */
  lemma {:induction false} SplitCount(s: string, sep: Separator)
    ensures |Split(s, sep)| == SeparatorCount(s, sep) + 1
  {
    if s != [] {
      SplitCount(s[1..], sep);
    }
  }

  /** No piece of a split contains a separator. */
  lemma {:induction false} SplitPiecesHaveNoSeparator(s: string, sep: Separator)
    ensures forall k :: 0 <= k < |Split(s, sep)| ==> NoSeparator(Split(s, sep)[k], sep)
  {
    if s != [] {
      SplitPiecesHaveNoSeparator(s[1..], sep);
    }
  }

  /** Joining the pieces with the separator gives the original text back. */
  lemma {:induction false} JoinSplit(s: string, c: char)
    ensures Join(Split(s, Char(c)), c) == s
  {
    if s != [] {
      var rest := Split(s[1..], Char(c));
      JoinSplit(s[1..], c);
      if s[0] == c {
        assert Split(s, Char(c)) == [""] + rest;
        assert ([""] + rest)[1..] == rest;
        assert [c] + s[1..] == s;
      } else {
        var r := Split(s, Char(c));
        assert r == [[s[0]] + rest[0]] + rest[1..];
        assert r[1..] == rest[1..];
        if |rest| == 1 {
          assert [s[0]] + s[1..] == s;
        } else {
          assert Join(rest, c) == rest[0] + [c] + Join(rest[1..], c);
          assert [s[0]] + s[1..] == s;
        }
      }
    }
  }

  /** Dropping empty entries distributes over concatenation. */
  lemma {:induction false} RemoveEmptyEntriesAppend(a: seq<string>, b: seq<string>)
    ensures RemoveEmptyEntries(a + b) == RemoveEmptyEntries(a) + RemoveEmptyEntries(b)
  {
    if a == [] {
      assert a + b == b;
    } else {
      assert (a + b)[1..] == a[1..] + b;
      RemoveEmptyEntriesAppend(a[1..], b);
    }
  }

  /** RemoveEmptyEntries keeps exactly the non-empty pieces: with no empty
      piece nothing is dropped. */
  lemma {:induction false} RemoveEmptyEntriesOfNonEmpty(parts: seq<string>)
    requires forall i :: 0 <= i < |parts| ==> parts[i] != []
    ensures RemoveEmptyEntries(parts) == parts
  {
    if parts != [] {
      RemoveEmptyEntriesOfNonEmpty(parts[1..]);
      assert [parts[0]] + parts[1..] == parts;
    }
  }

  // ---------------------------------------------------------------------
  // Properties of Trim

  predicate AllWhiteSpace(s: string)
  {
    forall i :: 0 <= i < |s| ==> IsWhiteSpace(s[i])
  }

  /** Trim removes nothing but white space, and leaves none at either end. */
  lemma {:induction false} TrimBounds(s: string)
    ensures exists i, j :: 0 <= i <= j <= |s| && Trim(s) == s[i..j]
              && AllWhiteSpace(s[..i]) && AllWhiteSpace(s[j..])
    ensures Trim(s) != [] ==> !IsWhiteSpace(Trim(s)[0]) && !IsWhiteSpace(Trim(s)[|Trim(s)| - 1])
  {
    var i := TrimStartBounds(s);
    var t := s[i..];
    var j := TrimEndBounds(t);
    assert Trim(s) == s[i..i + j];
    assert s[i + j..] == t[j..];
  }

  lemma {:induction false} TrimStartBounds(s: string) returns (i: nat)
    ensures i <= |s| && TrimStart(s) == s[i..] && AllWhiteSpace(s[..i])
    ensures TrimStart(s) != [] ==> !IsWhiteSpace(TrimStart(s)[0])
  {
    if s != [] && IsWhiteSpace(s[0]) {
      var k := TrimStartBounds(s[1..]);
      i := k + 1;
      assert s[1..][k..] == s[i..];
      assert forall m :: 1 <= m < i ==> s[..i][m] == s[1..][..k][m - 1];
    } else {
      i := 0;
    }
  }

  lemma {:induction false} TrimEndBounds(s: string) returns (j: nat)
    ensures j <= |s| && TrimEnd(s) == s[..j] && AllWhiteSpace(s[j..])
    ensures TrimEnd(s) != [] ==> !IsWhiteSpace(TrimEnd(s)[|TrimEnd(s)| - 1])
  {
    if s != [] && IsWhiteSpace(s[|s| - 1]) {
      var p := s[..|s| - 1];
      j := TrimEndBounds(p);
      assert p[..j] == s[..j];
      assert forall m :: j <= m < |s| - 1 ==> s[m] == p[j..][m - j];
    } else {
      j := |s|;
    }
  }

  /** TrimStart keeps a suffix with a non-blank first character. */
  lemma TrimStartEnds(s: string)
    ensures |TrimStart(s)| <= |s|
    ensures TrimStart(s) != [] ==> !IsWhiteSpace(TrimStart(s)[0])
  {
    var i := TrimStartBounds(s);
  }

  /** TrimEnd keeps a prefix with a non-blank last character. */
  lemma TrimEndEnds(s: string)
    ensures |TrimEnd(s)| <= |s| && TrimEnd(s) == s[..|TrimEnd(s)|]
    ensures TrimEnd(s) != [] ==> !IsWhiteSpace(TrimEnd(s)[|TrimEnd(s)| - 1])
  {
    var j := TrimEndBounds(s);
  }

  /** Trim of white space around a text with non-blank ends is that text. */
  lemma {:induction false} TrimSurrounded(pre: string, t: string, post: string)
    requires AllWhiteSpace(pre) && AllWhiteSpace(post)
    requires t != [] && !IsWhiteSpace(t[0]) && !IsWhiteSpace(t[|t| - 1])
    ensures Trim(pre + t + post) == t
  {
    TrimStartPrefix(pre, t + post);
    assert pre + t + post == pre + (t + post);
    TrimEndSuffix(t, post);
  }

  lemma {:induction false} TrimStartPrefix(pre: string, s: string)
    requires AllWhiteSpace(pre)
    requires s != [] && !IsWhiteSpace(s[0])
    ensures TrimStart(pre + s) == s
  {
    if pre == [] {
      assert pre + s == s;
    } else {
      assert (pre + s)[1..] == pre[1..] + s;
      TrimStartPrefix(pre[1..], s);
    }
  }

  lemma {:induction false} TrimEndSuffix(s: string, post: string)
    requires AllWhiteSpace(post)
    requires s != [] && !IsWhiteSpace(s[|s| - 1])
    ensures TrimEnd(s + post) == s
  {
    if post == [] {
      assert s + post == s;
    } else {
      var p := post[..|post| - 1];
      assert (s + post)[..|s + post| - 1] == s + p;
      TrimEndSuffix(s, p);
    }
  }

  // ---------------------------------------------------------------------
  // Properties of ToLower

  /** Lower-casing is idempotent. */
  lemma ToLowerIdempotent(s: string)
    ensures ToLower(ToLower(s)) == ToLower(s)
  {
  }
}
