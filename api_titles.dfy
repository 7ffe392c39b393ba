/**
 * The API-page title rewrite of the documentation build: the first line of
 * every generated `.rst` page, `<dotted.name> package` or `<dotted.name>
 * module`, becomes the last segment of the dotted name, and the second line
 * an `=` underline of matching length. Two scripts do this:
 * `clean_api_titles` in docs/conf.py (unescapes `\_` and matches the whole
 * stripped line) and `shorten_api_titles_remove_suffix` in
 * docs/remove_extra_text.py (matches only a prefix of the raw line). Also
 * the autodoc hook that skips inherited members.
 */
module ApiTitles {
  import opened Python
  import opened PyStr

  /** A character of the regular-expression class `\w`, taken over ASCII:
      letters, digits and underscore. Python 3's `\w` on a str pattern also
      takes every other Unicode letter and digit; titles with those are
      outside this model. */
  predicate IsWordChar(c: char)
  {
    ('a' <= c <= 'z') || ('A' <= c <= 'Z') || ('0' <= c <= '9') || c == '_'
  }

  /** A character of the class `[\w\.]`. */
  predicate IsNameChar(c: char)
  {
    IsWordChar(c) || c == '.'
  }

  /** A string the group `([\w\.]+)` can match as a whole. */
  predicate IsName(s: string)
  {
    |s| > 0 && forall i :: 0 <= i < |s| ==> IsNameChar(s[i])
  }

  /** The length of the longest prefix of s made of `[\w\.]` characters. */
  function NameRun(s: string): (n: nat)
    ensures n <= |s|
    ensures forall i :: 0 <= i < n ==> IsNameChar(s[i])
    ensures n < |s| ==> !IsNameChar(s[n])
  {
    if s != [] && IsNameChar(s[0]) then 1 + NameRun(s[1..]) else 0
  }

  /** A run of name characters followed by anything else ends where the
      name does. */
  lemma {:induction false} NameRunOf(name: string, t: string)
    requires forall i :: 0 <= i < |name| ==> IsNameChar(name[i])
    requires t == [] || !IsNameChar(t[0])
    ensures NameRun(name + t) == |name|
  {
    if name != [] {
      assert (name + t)[1..] == name[1..] + t;
      NameRunOf(name[1..], t);
    }
  }

  /** `re.match(r"([\w\.]+) (package|module)", s)`: the match is anchored
      only at the start, and the result is group 1. */
  function MatchPrefix(s: string): Option<string>
  {
    var n := NameRun(s);
    var tail := s[n..];
    if n > 0 && (" package" <= tail || " module" <= tail) then Some(s[..n]) else None
  }

  /** `re.match(r"^([\w\.]+) (package|module)$", s)`: `$` also matches
      just before a final newline. */
  function MatchFull(s: string): Option<string>
  {
    var n := NameRun(s);
    var tail := s[n..];
    if n > 0 && (tail == " package" || tail == " module" || tail == " package\n" || tail == " module\n")
    then Some(s[..n])
    else None
  }

  /** The prefix match succeeds with group `name` exactly when s starts
      with the name, a space and one of the two words. */
  lemma MatchPrefixIff(s: string, name: string)
    ensures MatchPrefix(s) == Some(name) <==>
            IsName(name) && (name + " package" <= s || name + " module" <= s)
  {
    if MatchPrefix(s) == Some(name) {
      MatchPrefixSound(s, name);
    }
    if IsName(name) && (name + " package" <= s || name + " module" <= s) {
      MatchPrefixComplete(s, name);
    }
  }

  lemma MatchPrefixSound(s: string, name: string)
    requires MatchPrefix(s) == Some(name)
    ensures IsName(name) && (name + " package" <= s || name + " module" <= s)
  {
    var n := NameRun(s);
    PrefixAfter(s, n, " package");
    PrefixAfter(s, n, " module");
  }

  lemma MatchPrefixComplete(s: string, name: string)
    requires IsName(name) && (name + " package" <= s || name + " module" <= s)
    ensures MatchPrefix(s) == Some(name)
  {
    var w := if name + " package" <= s then " package" else " module";
    assert (name + w)[|name|] == ' ';
    var t := s[|name|..];
    assert s == name + t;
    assert t[0] == ' ';
    NameRunOf(name, t);
    PrefixAfter(s, |name|, w);
  }

  /** w starts the rest of s after n characters exactly when s starts with
      its first n characters followed by w. */
  lemma PrefixAfter(s: string, n: nat, w: string)
    requires n <= |s|
    ensures w <= s[n..] <==> s[..n] + w <= s
  {
    if s[..n] + w <= s {
      assert s[n..][..|w|] == (s[..n] + w)[n..];
    }
  }

  /** The full match succeeds with group `name` exactly when s is the
      name, a space and one of the two words, with at most a final newline. */
  lemma MatchFullIff(s: string, name: string)
    ensures MatchFull(s) == Some(name) <==>
            IsName(name) &&
            (s == name + " package" || s == name + " module" ||
             s == name + " package\n" || s == name + " module\n")
  {
    if IsName(name) && |name| < |s| && s[..|name|] == name && s[|name|] == ' ' {
      var t := s[|name|..];
      assert s == name + t;
      NameRunOf(name, t);
    }
  }

  /** A full match is also a prefix match with the same group. */
  lemma FullMatchIsPrefixMatch(s: string)
    ensures MatchFull(s).Some? ==> MatchPrefix(s) == MatchFull(s)
  {
  }

  /** The title the two scripts compute: the text after the last `.`. */
  function Leaf(name: string): string
  {
    LastPiece(name, '.')
  }

  /** The per-file rewrite of `clean_api_titles`, on the list `readlines`
      returns: `Ok(Some(lines'))` when the file is written back,
      `Ok(None)` when it is left alone, an error when an index is missing. */
  function CleanTitle(lines: seq<string>): (r: Result<Option<seq<string>>>)
    ensures r.Err? ==> r.error == IndexError
    ensures r.Ok? && r.value.Some? ==>
              |r.value.value| == |lines| >= 2 && r.value.value[2..] == lines[2..]
  {
    var first :- At(lines, 0);
    match MatchFull(Unescape(Strip(first)))
    case None => Ok(None)
    case Some(name) =>
      var leaf := Leaf(name);
      if |lines| < 2 then Err(IndexError)
      else Ok(Some([leaf + "\n", Repeat('=', |leaf|) + "\n"] + lines[2..]))
  }

  /** The per-file rewrite of `shorten_api_titles_remove_suffix`. */
  function ShortenTitle(lines: seq<string>): (r: Result<Option<seq<string>>>)
    ensures r.Err? ==> r.error == IndexError
    ensures r.Ok? && r.value.Some? ==>
              |r.value.value| == |lines| >= 2 && r.value.value[2..] == lines[2..]
  {
    var first :- At(lines, 0);
    match MatchPrefix(first)
    case None => Ok(None)
    case Some(name) =>
      var title := Leaf(name) + "\n";
      if |lines| < 2 then Err(IndexError)
      else Ok(Some([title, Repeat('=', |Strip(title)|) + "\n"] + lines[2..]))
  }

  /** The leaf of a name holds only name characters. */
  lemma LeafChars(name: string)
    requires IsName(name)
    ensures forall i :: 0 <= i < |Leaf(name)| ==> IsNameChar(Leaf(name)[i])
  {
    LastPieceIsSuffix(name, '.');
    var l := Leaf(name);
    forall i | 0 <= i < |l| ensures IsNameChar(l[i]) {
      assert l[i] == name[|name| - |l| + i];
    }
  }

  /** Stripping a line of non-space characters ended by a newline gives
      the characters. */
  lemma StripLine(x: string)
    requires forall i :: 0 <= i < |x| ==> !IsSpace(x[i])
    ensures Strip(x + "\n") == x
  {
    if x == [] {
      assert x + "\n" == "\n";
      assert StripLeft("\n") == StripLeft("");
    } else {
      StripTitleLine(x);
    }
  }

  /** Stripping a line whose text starts and ends with non-space characters,
      ended by a newline, gives the text. */
  lemma StripTitleLine(x: string)
    requires |x| > 0 && !IsSpace(x[0]) && !IsSpace(x[|x| - 1])
    ensures Strip(x + "\n") == x
  {
    var y := x + "\n";
    assert y[0] == x[0];
    assert StripLeft(y) == y;
    assert y[|y| - 1] == '\n';
    assert y[..|y| - 1] == x;
    assert StripRight(y) == StripRight(x);
  }

  /** `Escape` distributes over concatenation. */
  lemma {:induction false} EscapeAppend(a: string, b: string)
    ensures Escape(a + b) == Escape(a) + Escape(b)
  {
    if a == [] {
      assert a + b == b;
    } else {
      assert (a + b)[0] == a[0];
      assert (a + b)[1..] == a[1..] + b;
      EscapeAppend(a[1..], b);
      var head := if a[0] == '_' then "\\_" else [a[0]];
      assert Escape(a) == head + Escape(a[1..]);
      ConcatAssoc(head, Escape(a[1..]), Escape(b));
    }
  }

  /** One step of `Unescape` on a character that does not open `\_`. */
  lemma UnescapeCons(c: char, e: string)
    requires c != '\\' || e == [] || e[0] != '_'
    ensures Unescape([c] + e) == [c] + Unescape(e)
  {
    assert ([c] + e)[1..] == e;
  }

  /** One step of `Unescape` on `\_`. */
  lemma UnescapePair(e: string)
    ensures Unescape("\\_" + e) == "_" + Unescape(e)
  {
    assert ("\\_" + e)[2..] == e;
  }

  /** Unescaping an escaped string followed by text that does not start with
      `_` gives back the string followed by the unescaped text. */
  lemma {:induction false} UnescapeEscapeAppend(s: string, t: string)
    requires t == [] || t[0] != '_'
    ensures Unescape(Escape(s) + t) == s + Unescape(t)
  {
    if s == [] {
      assert Escape(s) + t == t;
    } else {
      UnescapeEscapeAppend(s[1..], t);
      UnescapeEscapeHead(s, t);
      ConcatAssoc([s[0]], s[1..], Unescape(t));
      assert [s[0]] + s[1..] == s;
    }
  }

  /** Unescaping an escaped string undoes the escape of its first character. */
  lemma UnescapeEscapeHead(s: string, t: string)
    requires s != []
    requires t == [] || t[0] != '_'
    ensures Unescape(Escape(s) + t) == [s[0]] + Unescape(Escape(s[1..]) + t)
  {
    if s[0] == '_' {
      UnescapeEscapeUnderscore(s, t);
    } else {
      UnescapeEscapeOther(s, t);
    }
  }

  lemma UnescapeEscapeUnderscore(s: string, t: string)
    requires s != [] && s[0] == '_'
    ensures Unescape(Escape(s) + t) == "_" + Unescape(Escape(s[1..]) + t)
  {
    var e := Escape(s[1..]) + t;
    assert Escape(s) == "\\_" + Escape(s[1..]);
    ConcatAssoc("\\_", Escape(s[1..]), t);
    UnescapePair(e);
  }

  lemma UnescapeEscapeOther(s: string, t: string)
    requires s != [] && s[0] != '_'
    requires t == [] || t[0] != '_'
    ensures Unescape(Escape(s) + t) == [s[0]] + Unescape(Escape(s[1..]) + t)
  {
    var r := Escape(s[1..]);
    var e := r + t;
    assert Escape(s) == [s[0]] + r;
    ConcatAssoc([s[0]], r, t);
    if r != [] {
      assert e[0] == r[0];
    }
    UnescapeCons(s[0], e);
  }

  /** The two words a generated title ends with. */
  datatype Kind = Package | Module

  function Word(k: Kind): string
  {
    match k
    case Package => "package"
    case Module => "module"
  }

  /** How conf.py retitles a page whose first line fully matches. */
  lemma CleanTitleStep(lines: seq<string>, name: string)
    requires |lines| >= 2 && MatchFull(Unescape(Strip(lines[0]))) == Some(name)
    ensures CleanTitle(lines) == Ok(Some([Leaf(name) + "\n", Repeat('=', |Leaf(name)|) + "\n"] + lines[2..]))
  {
  }

  /** How remove_extra_text.py retitles a page whose first line matches. */
  lemma ShortenTitleStep(lines: seq<string>, name: string)
    requires |lines| >= 2 && MatchPrefix(lines[0]) == Some(name)
    ensures ShortenTitle(lines) ==
            Ok(Some([Leaf(name) + "\n", Repeat('=', |Strip(Leaf(name) + "\n")|) + "\n"] + lines[2..]))
  {
  }

  /** The words hold no backslash, so unescaping leaves them alone. */
  lemma TailUnescaped(k: Kind)
    ensures Unescape(" " + Word(k)) == " " + Word(k)
  {
    var w := " " + Word(k);
    assert forall i :: 0 <= i < |w| ==> w[i] != '\\';
    UnescapeNoBackslash(w);
  }

  /** The first line of a generated page, stripped, loses only its newline. */
  lemma GeneratedTitleStrips(name: string, k: Kind)
    requires IsName(name)
    ensures Strip(Escape(name) + " " + Word(k) + "\n") == Escape(name) + " " + Word(k)
  {
    var x := Escape(name) + " " + Word(k);
    assert x[0] == Escape(name)[0];
    assert x[|x| - 1] == 'e';
    StripTitleLine(x);
  }

  /** The unescaped title of a generated page is the name and the word. */
  lemma GeneratedTitleUnescapes(name: string, k: Kind)
    ensures Unescape(Escape(name) + " " + Word(k)) == name + " " + Word(k)
  {
    var tail := " " + Word(k);
    ConcatAssoc(Escape(name), " ", Word(k));
    UnescapeEscapeAppend(name, tail);
    TailUnescaped(k);
    ConcatAssoc(name, " ", Word(k));
  }

  /** A name followed by a space and one of the two words matches in full. */
  lemma TitleMatches(name: string, k: Kind)
    requires IsName(name)
    ensures MatchFull(name + " " + Word(k)) == Some(name)
  {
    var tail := " " + Word(k);
    var s := name + tail;
    ConcatAssoc(name, " ", Word(k));
    NameRunOf(name, tail);
    assert s[|name|..] == tail;
    assert s[..|name|] == name;
  }

  /** The first line of a generated page unescapes and strips to the
      title the full match accepts. */
  lemma GeneratedTitleMatches(name: string, k: Kind)
    requires IsName(name)
    ensures MatchFull(Unescape(Strip(Escape(name) + " " + Word(k) + "\n"))) == Some(name)
  {
    GeneratedTitleStrips(name, k);
    GeneratedTitleUnescapes(name, k);
    TitleMatches(name, k);
  }

  /** conf.py on a generated page: the title `name module` (or `package`)
      with every `_` escaped becomes the leaf of the name, unescaped, with an
      underline of the leaf's length; the other lines are kept. */
  lemma CleanTitleOfGenerated(name: string, k: Kind, underline: string, rest: seq<string>)
    requires IsName(name)
    ensures CleanTitle([Escape(name) + " " + Word(k) + "\n", underline] + rest) ==
            Ok(Some([Leaf(name) + "\n", Repeat('=', |Leaf(name)|) + "\n"] + rest))
  {
    var lines := [Escape(name) + " " + Word(k) + "\n", underline] + rest;
    GeneratedTitleMatches(name, k);
    CleanTitleStep(lines, name);
    assert lines[2..] == rest;
  }

  /** The run of name characters of an escaped name stops at the backslash
      before its first underscore. */
  lemma {:induction false} EscapedNameRun(name: string, t: string)
    requires forall i :: 0 <= i < |name| ==> IsNameChar(name[i])
    requires '_' in name
    ensures NameRun(Escape(name) + t) < |Escape(name) + t|
    ensures (Escape(name) + t)[NameRun(Escape(name) + t)] == '\\'
  {
    if name[0] == '_' {
      assert Escape(name) == "\\_" + Escape(name[1..]);
      ConcatAssoc("\\_", Escape(name[1..]), t);
    } else {
      assert '_' in name[1..];
      EscapedNameRun(name[1..], t);
      var u := Escape(name[1..]) + t;
      assert Escape(name) == [name[0]] + Escape(name[1..]);
      ConcatAssoc([name[0]], Escape(name[1..]), t);
      assert ([name[0]] + u)[1..] == u;
    }
  }

  /** remove_extra_text.py on the same page misses every name holding an
      underscore: the run of name characters stops at the backslash, so the
      page is left as it was. */
  lemma ShortenTitleMissesEscaped(name: string, k: Kind, underline: string, rest: seq<string>)
    requires IsName(name) && '_' in name
    ensures ShortenTitle([Escape(name) + " " + Word(k) + "\n", underline] + rest) == Ok(None)
  {
    var t := " " + Word(k) + "\n";
    var line := Escape(name) + t;
    ConcatAssoc(Escape(name), " ", Word(k));
    ConcatAssoc(Escape(name), " " + Word(k), "\n");
    EscapedNameRun(name, t);
    var n := NameRun(line);
    assert line[n..][0] == '\\';
    assert MatchPrefix(line) == None;
  }

  /** A raw generated title line matches the prefix pattern. */
  lemma TitleLineMatchesPrefix(name: string, k: Kind)
    requires IsName(name)
    ensures MatchPrefix(name + " " + Word(k) + "\n") == Some(name)
  {
    var w := " " + Word(k);
    ConcatAssoc(name, " ", Word(k));
    assert name + w <= (name + w) + "\n";
    MatchPrefixComplete(name + " " + Word(k) + "\n", name);
  }

  /** A string without underscores is its own escape. */
  lemma {:induction false} EscapeNoUnderscore(s: string)
    requires '_' !in s
    ensures Escape(s) == s
  {
    if s != [] {
      EscapeNoUnderscore(s[1..]);
      assert [s[0]] + s[1..] == s;
    }
  }

  /** A name without underscores is retitled the same by both scripts. */
  lemma ScriptsAgreeWithoutUnderscore(name: string, k: Kind, underline: string, rest: seq<string>)
    requires IsName(name) && '_' !in name
    ensures var lines := [name + " " + Word(k) + "\n", underline] + rest;
            ShortenTitle(lines) == CleanTitle(lines)
  {
    var lines := [name + " " + Word(k) + "\n", underline] + rest;
    EscapeNoUnderscore(name);
    CleanTitleOfGenerated(name, k, underline, rest);
    TitleLineMatchesPrefix(name, k);
    assert lines[0] == name + " " + Word(k) + "\n";
    ShortenTitleStep(lines, name);
    LeafChars(name);
    NoSpaceInName(Leaf(name));
    StripLine(Leaf(name));
    assert lines[2..] == rest;
  }

  /** A retitled page is left alone by a second run of either script. */
  lemma RetitleIdempotent(name: string, rest: seq<string>)
    requires IsName(name)
    ensures var lines := [Leaf(name) + "\n", Repeat('=', |Leaf(name)|) + "\n"] + rest;
            CleanTitle(lines) == Ok(None) && ShortenTitle(lines) == Ok(None)
  {
    var leaf := Leaf(name);
    var lines := [leaf + "\n", Repeat('=', |leaf|) + "\n"] + rest;
    LeafChars(name);
    LeafLineUnmatched(leaf);
    CleanTitleNone(lines);
    ShortenTitleNone(lines);
  }

  /** A title line that is a bare name matches neither pattern. */
  lemma LeafLineUnmatched(leaf: string)
    requires forall i :: 0 <= i < |leaf| ==> IsNameChar(leaf[i])
    ensures MatchFull(Unescape(Strip(leaf + "\n"))) == None
    ensures MatchPrefix(leaf + "\n") == None
  {
    StripBareName(leaf);
    UnescapeBareName(leaf);
    BareNameNoFullMatch(leaf);
    BareNameNoPrefixMatch(leaf);
  }

  lemma StripBareName(leaf: string)
    requires forall i :: 0 <= i < |leaf| ==> IsNameChar(leaf[i])
    ensures Strip(leaf + "\n") == leaf
  {
    NoSpaceInName(leaf);
    StripLine(leaf);
  }

  lemma UnescapeBareName(leaf: string)
    requires forall i :: 0 <= i < |leaf| ==> IsNameChar(leaf[i])
    ensures Unescape(leaf) == leaf
  {
    assert forall i :: 0 <= i < |leaf| ==> leaf[i] != '\\';
    UnescapeNoBackslash(leaf);
  }

  lemma BareNameNoFullMatch(leaf: string)
    requires forall i :: 0 <= i < |leaf| ==> IsNameChar(leaf[i])
    ensures MatchFull(leaf) == None
  {
    NameRunOf(leaf, "");
    assert leaf + "" == leaf;
    assert leaf[|leaf|..] == "";
  }

  lemma BareNameNoPrefixMatch(leaf: string)
    requires forall i :: 0 <= i < |leaf| ==> IsNameChar(leaf[i])
    ensures MatchPrefix(leaf + "\n") == None
  {
    NameRunOf(leaf, "\n");
    assert (leaf + "\n")[|leaf|..] == "\n";
  }

  /** Name characters are not spaces. */
  lemma NoSpaceInName(s: string)
    requires forall i :: 0 <= i < |s| ==> IsNameChar(s[i])
    ensures forall i :: 0 <= i < |s| ==> !IsSpace(s[i])
  {
  }

  /** A page whose first line does not fully match is left alone by conf.py. */
  lemma CleanTitleNone(lines: seq<string>)
    requires |lines| > 0 && MatchFull(Unescape(Strip(lines[0]))) == None
    ensures CleanTitle(lines) == Ok(None)
  {
  }

  /** A page whose first line does not match is left alone by
      remove_extra_text.py. */
  lemma ShortenTitleNone(lines: seq<string>)
    requires |lines| > 0 && MatchPrefix(lines[0]) == None
    ensures ShortenTitle(lines) == Ok(None)
  {
  }

  /** Both scripts fail on an empty page and on a matching one-line page. */
  lemma TitleErrors(lines: seq<string>)
    ensures CleanTitle(lines).Err? <==>
            |lines| == 0 || (|lines| == 1 && MatchFull(Unescape(Strip(lines[0]))).Some?)
    ensures ShortenTitle(lines).Err? <==>
            |lines| == 0 || (|lines| == 1 && MatchPrefix(lines[0]).Some?)
  {
    CleanTitleErrors(lines);
    ShortenTitleErrors(lines);
  }

  lemma CleanTitleErrors(lines: seq<string>)
    ensures CleanTitle(lines).Err? <==>
            |lines| == 0 || (|lines| == 1 && MatchFull(Unescape(Strip(lines[0]))).Some?)
  {
    if |lines| > 0 {
      var first := lines[0];
      assert At(lines, 0) == Ok(first);
    }
  }

  lemma ShortenTitleErrors(lines: seq<string>)
    ensures ShortenTitle(lines).Err? <==>
            |lines| == 0 || (|lines| == 1 && MatchPrefix(lines[0]).Some?)
  {
    if |lines| > 0 {
      var first := lines[0];
      assert At(lines, 0) == Ok(first);
    }
  }

  /** Which of the two scripts runs over the directory. */
  datatype Script = CleanApiTitles | ShortenApiTitles

  /** A generated page: its file name and the lines `readlines` gives. */
  datatype Page = Page(name: string, lines: seq<string>)

  /** The outcome of one run over a directory: the pages written back, in
      listing order, and the error that stopped the run, if any. */
  datatype Run = Run(written: seq<Page>, error: Option<PyError>)

  function Retitle(script: Script, lines: seq<string>): Result<Option<seq<string>>>
  {
    match script
    case CleanApiTitles => CleanTitle(lines)
    case ShortenApiTitles => ShortenTitle(lines)
  }

  /** The run over the pages in listing order: non-`.rst` names are skipped,
      a retitled page is written, and the first error ends the run. */
  function RunOver(script: Script, pages: seq<Page>): (r: Run)
    ensures |r.written| <= |pages|
    ensures forall p :: p in r.written ==> EndsWith(p.name, ".rst")
  {
    if pages == [] then Run([], None)
    else if !EndsWith(pages[0].name, ".rst") then RunOver(script, pages[1..])
    else
      match Retitle(script, pages[0].lines)
      case Err(e) => Run([], Some(e))
      case Ok(None) => RunOver(script, pages[1..])
      case Ok(Some(ls)) =>
        var rest := RunOver(script, pages[1..]);
        Run([Page(pages[0].name, ls)] + rest.written, rest.error)
  }

  /** The loop over `os.listdir` of both scripts. Listing, reading and
      writing files are left to the caller: the pages come in, the pages to
      write go out. */
  method RetitleDirectory(script: Script, pages: seq<Page>) returns (run: Run)
    ensures run == RunOver(script, pages)
  {
    var written: seq<Page> := [];
    var i := 0;
    while i < |pages|
      invariant 0 <= i <= |pages|
      invariant RunOver(script, pages) ==
                Run(written + RunOver(script, pages[i..]).written, RunOver(script, pages[i..]).error)
    {
      var page := pages[i];
      RunOverStep(script, pages, i);
      if EndsWith(page.name, ".rst") {
        var r := Retitle(script, page.lines);
        if r.Err? {
          assert written + [] == written;
          return Run(written, Some(r.error));
        }
        if r.value.Some? {
          ConcatAssoc(written, [Page(page.name, r.value.value)], RunOver(script, pages[i + 1..]).written);
          written := written + [Page(page.name, r.value.value)];
        }
      }
      i := i + 1;
    }
    run := Run(written, None);
  }

  /** One page of the run: skipped, stopping with an error, left alone, or
      written in front of the rest of the run. */
  lemma RunOverStep(script: Script, pages: seq<Page>, i: nat)
    requires i < |pages|
    ensures var here, next, p := RunOver(script, pages[i..]), RunOver(script, pages[i + 1..]), pages[i];
            if !EndsWith(p.name, ".rst") then here == next
            else match Retitle(script, p.lines)
              case Err(e) => here == Run([], Some(e))
              case Ok(None) => here == next
              case Ok(Some(ls)) => here == Run([Page(p.name, ls)] + next.written, next.error)
  {
    assert pages[i..][1..] == pages[i + 1..];
    assert pages[i..][0] == pages[i];
  }

  /** A page written back keeps its name and every line past the second. */
  predicate RetitledFrom(p: Page, q: Page)
  {
    p.name == q.name && |p.lines| == |q.lines| >= 2 && p.lines[2..] == q.lines[2..]
  }

  /** Every page written is a page of the directory, under its own name,
      with its own lines past the second. */
  lemma {:induction false} WrittenPagesComeFromDirectory(script: Script, pages: seq<Page>)
    ensures forall p :: p in RunOver(script, pages).written ==>
              exists q :: q in pages && RetitledFrom(p, q)
  {
    if pages != [] {
      var rest := RunOver(script, pages[1..]);
      WrittenPagesComeFromDirectory(script, pages[1..]);
      forall p | p in RunOver(script, pages).written
        ensures exists q :: q in pages && RetitledFrom(p, q)
      {
        if p in rest.written {
          var q :| q in pages[1..] && RetitledFrom(p, q);
          assert q in pages;
        } else {
          assert RetitledFrom(p, pages[0]);
        }
      }
    }
  }

  /** `skip_inherited_members`: `objClass` is the name of the member's
      `__objclass__` when it has one that is not None, and `currentClass`
      the `class` option, if given. */
  function SkipInheritedMembers(objClass: Option<string>, currentClass: Option<string>, skip: bool): (r: bool)
    ensures !skip ==> (r <==> objClass.Some? && currentClass.Some? && currentClass.value != ""
                                && objClass.value != currentClass.value)
    ensures skip ==> r
  {
    if objClass.Some? then
      if currentClass.Some? && currentClass.value != "" && objClass.value != currentClass.value then true
      else skip
    else skip
  }
}
