/**
 * The Python string operations the tooling scripts use, on `seq<char>`:
 * `str.split` and `str.join` on a one-character separator, the `in`
 * substring test, `str.strip`, `str.replace("\\_", "_")` and its inverse,
 * and `ch * n`.
 */
module PyStr {

  /** `s.split(sep)`: the pieces between separators, so never empty. */
  function Split(s: string, sep: char): (r: seq<string>)
    ensures |r| >= 1
    ensures forall i :: 0 <= i < |r| ==> sep !in r[i]
  {
    if s == [] then [""]
    else
      var rest := Split(s[1..], sep);
      if s[0] == sep then [""] + rest
      else [[s[0]] + rest[0]] + rest[1..]
  }

  /** `sep.join(ls)`. */
  function Join(ls: seq<string>, sep: char): string
  {
    if |ls| == 0 then ""
    else if |ls| == 1 then ls[0]
    else ls[0] + [sep] + Join(ls[1..], sep)
  }

  /** Joining the pieces of a split gives back the string. */
  lemma {:induction false} JoinSplit(s: string, sep: char)
    ensures Join(Split(s, sep), sep) == s
  {
    if s != [] {
      var rest := Split(s[1..], sep);
      JoinSplit(s[1..], sep);
      if s[0] == sep {
        assert Split(s, sep) == [""] + rest;
        assert ([""] + rest)[1..] == rest;
      } else {
        var r := [[s[0]] + rest[0]] + rest[1..];
        assert Split(s, sep) == r;
        if |rest| == 1 {
          assert Join(rest, sep) == rest[0];
        } else {
          assert r[1..] == rest[1..];
          assert Join(rest, sep) == rest[0] + [sep] + Join(rest[1..], sep);
        }
      }
    }
  }

  /** Splitting a join of separator-free pieces gives back the pieces. */
  lemma {:induction false} SplitJoin(ls: seq<string>, sep: char)
    requires |ls| >= 1
    requires forall i :: 0 <= i < |ls| ==> sep !in ls[i]
    ensures Split(Join(ls, sep), sep) == ls
  {
    if |ls| == 1 {
      SplitPiece(ls[0], sep);
    } else {
      SplitJoin(ls[1..], sep);
      SplitAppend(ls[0], Join(ls[1..], sep), sep);
      assert [ls[0]] + ls[1..] == ls;
    }
  }

  /** A string without the separator splits into itself. */
  lemma {:induction false} SplitPiece(p: string, sep: char)
    requires sep !in p
    ensures Split(p, sep) == [p]
  {
    if p != [] {
      SplitPiece(p[1..], sep);
      assert [p[0]] + p[1..] == p;
    }
  }

  /** Splitting `p + sep + t`, where p has no separator, yields p then the
      pieces of t. */
  lemma {:induction false} SplitAppend(p: string, t: string, sep: char)
    requires sep !in p
    ensures Split(p + [sep] + t, sep) == [p] + Split(t, sep)
  {
    if p == [] {
      assert p + [sep] + t == [sep] + t;
      assert ([sep] + t)[1..] == t;
    } else {
      SplitAppend(p[1..], t, sep);
      var s := p + [sep] + t;
      assert s[0] == p[0];
      assert s[1..] == p[1..] + [sep] + t;
      assert [p[0]] + p[1..] == p;
    }
  }

  /** `sub in s`: sub occurs at some position of s. */
  predicate Contains(s: string, sub: string)
  {
    sub <= s || (s != [] && Contains(s[1..], sub))
  }

  /** The recursive test agrees with "some suffix of s starts with sub". */
  lemma {:induction false} ContainsIff(s: string, sub: string)
    ensures Contains(s, sub) <==> exists i :: 0 <= i <= |s| && sub <= s[i..]
  {
    if s == [] {
      if exists i :: 0 <= i <= |s| && sub <= s[i..] {
        var i :| 0 <= i <= |s| && sub <= s[i..];
        assert s[i..] == s;
      }
    } else {
      ContainsIff(s[1..], sub);
      if Contains(s, sub) {
        if sub <= s {
          assert sub <= s[0..];
        } else {
          var i :| 0 <= i <= |s[1..]| && sub <= s[1..][i..];
          assert s[1..][i..] == s[i + 1..];
        }
      }
      if exists i :: 0 <= i <= |s| && sub <= s[i..] {
        var i :| 0 <= i <= |s| && sub <= s[i..];
        if i == 0 {
          assert s[0..] == s;
        } else {
          assert s[1..][i - 1..] == s[i..];
        }
      }
    }
  }

  /** A string contains any of its prefixes. */
  lemma ContainsPrefix(s: string, p: string)
    requires p <= s
    ensures Contains(s, p)
  {
  }

  /** The characters `str.strip()` removes: Python 3's whitespace, the
      ASCII controls tab to carriage return and the four separators
      U+001C to U+001F, the space, and the Unicode spaces and line and
      paragraph separators. */
  predicate IsSpace(c: char)
  {
    c == ' ' || '\t' <= c <= '\r' || '\U{1C}' <= c <= '\U{1F}' || c == '\U{85}' || c == '\U{A0}'
    || c == '\U{1680}' || '\U{2000}' <= c <= '\U{200A}' || c == '\U{2028}' || c == '\U{2029}'
    || c == '\U{202F}' || c == '\U{205F}' || c == '\U{3000}'
  }

  function StripLeft(s: string): (r: string)
    ensures |r| <= |s| && r == s[|s| - |r|..]
    ensures r == [] || !IsSpace(r[0])
  {
    if s != [] && IsSpace(s[0]) then StripLeft(s[1..]) else s
  }

  function StripRight(s: string): (r: string)
    ensures |r| <= |s| && r == s[..|r|]
    ensures r == [] || !IsSpace(r[|r| - 1])
  {
    if s != [] && IsSpace(s[|s| - 1]) then StripRight(s[..|s| - 1]) else s
  }

  /** `s.strip()`. */
  function Strip(s: string): string
  {
    StripRight(StripLeft(s))
  }

  /** Stripping keeps a contiguous run of s that starts and ends with a
      non-space character, and leaves a string without such ends alone. */
  lemma StripIsTrimmedRun(s: string)
    ensures exists i, j :: 0 <= i <= j <= |s| && Strip(s) == s[i..j]
    ensures Strip(s) == [] || (!IsSpace(Strip(s)[0]) && !IsSpace(Strip(s)[|Strip(s)| - 1]))
    ensures s == [] || (!IsSpace(s[0]) && !IsSpace(s[|s| - 1])) ==> Strip(s) == s
  {
    StripIsRun(s);
    if s != [] && !IsSpace(s[0]) && !IsSpace(s[|s| - 1]) {
      StripLeftKeeps(s);
      StripRightKeeps(s);
    }
  }

  /** The stripped string is the slice between the two cut points. */
  lemma StripIsRun(s: string)
    ensures 0 <= |s| - |StripLeft(s)| <= |s| - |StripLeft(s)| + |Strip(s)| <= |s|
    ensures Strip(s) == s[|s| - |StripLeft(s)|..|s| - |StripLeft(s)| + |Strip(s)|]
  {
    var l := StripLeft(s);
    var r := StripRight(l);
    var i := |s| - |l|;
    assert l == s[i..];
    assert r == l[..|r|];
  }

  /** A string that does not start with a space is its own left strip. */
  lemma StripLeftKeeps(s: string)
    requires s != [] && !IsSpace(s[0])
    ensures StripLeft(s) == s
  {
  }

  /** A string that does not end with a space is its own right strip. */
  lemma StripRightKeeps(s: string)
    requires s != [] && !IsSpace(s[|s| - 1])
    ensures StripRight(s) == s
  {
  }

  /** `s.replace("\\_", "_")`, scanning left to right. */
  function Unescape(s: string): (r: string)
    ensures |r| <= |s|
  {
    if |s| >= 2 && s[0] == '\\' && s[1] == '_' then "_" + Unescape(s[2..])
    else if s == [] then ""
    else [s[0]] + Unescape(s[1..])
  }

  /** What reStructuredText heading generators write: every `_` as `\_`. */
  function Escape(s: string): (r: string)
    ensures |r| >= |s|
    ensures r == [] || r[0] != '_'
    ensures |r| == |s| <==> '_' !in s
  {
    if s == [] then ""
    else if s[0] == '_' then "\\_" + Escape(s[1..])
    else [s[0]] + Escape(s[1..])
  }

  /** Unescaping undoes escaping, whatever the string holds. */
  lemma {:induction false} UnescapeEscape(s: string)
    ensures Unescape(Escape(s)) == s
  {
    if s != [] {
      UnescapeEscape(s[1..]);
      var e := Escape(s[1..]);
      if s[0] == '_' {
        assert ("\\_" + e)[2..] == e;
      } else {
        assert ([s[0]] + e)[1..] == e;
        assert [s[0]] + s[1..] == s;
      }
    }
  }

  /** A string with no backslash is left alone by unescaping. */
  lemma {:induction false} UnescapeNoBackslash(s: string)
    requires '\\' !in s
    ensures Unescape(s) == s
  {
    if s != [] {
      UnescapeNoBackslash(s[1..]);
      assert [s[0]] + s[1..] == s;
    }
  }

  /** `c * n`. */
  function Repeat(c: char, n: nat): (r: string)
    ensures |r| == n
    ensures forall i :: 0 <= i < n ==> r[i] == c
  {
    if n == 0 then "" else [c] + Repeat(c, n - 1)
  }

  /** `s.endswith(suffix)`. */
  predicate EndsWith(s: string, suffix: string)
  {
    |suffix| <= |s| && s[|s| - |suffix|..] == suffix
  }

  /** `s.split(sep)[-1]`: the text after the last separator. */
  function LastPiece(s: string, sep: char): (r: string)
    ensures sep !in r
  {
    var ps := Split(s, sep);
    ps[|ps| - 1]
  }

  /** The last piece is a suffix of s, and all of s when s has no separator. */
  lemma LastPieceIsSuffix(s: string, sep: char)
    ensures EndsWith(s, LastPiece(s, sep))
    ensures sep !in s ==> LastPiece(s, sep) == s
  {
    LastPieceEnds(s, sep);
    if sep !in s {
      SplitPiece(s, sep);
    }
  }

  lemma {:induction false} LastPieceEnds(s: string, sep: char)
    ensures EndsWith(s, LastPiece(s, sep))
  {
    if s != [] {
      LastPieceEnds(s[1..], sep);
      var rest := Split(s[1..], sep);
      var last := rest[|rest| - 1];
      if s[0] == sep || |rest| > 1 {
        assert LastPiece(s, sep) == last;
        SuffixOfTail(s, last);
      } else {
        JoinSplit(s[1..], sep);
        assert last == s[1..];
        assert LastPiece(s, sep) == [s[0]] + s[1..];
        assert [s[0]] + s[1..] == s;
      }
    }
  }

  /** A suffix of the tail is a suffix of the string. */
  lemma SuffixOfTail(s: string, x: string)
    requires s != [] && EndsWith(s[1..], x)
    ensures EndsWith(s, x)
  {
    assert s[|s| - |x|..] == s[1..][|s| - 1 - |x|..];
  }
}
