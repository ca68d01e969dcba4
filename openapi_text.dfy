/**
  The text-level pieces of the OpenAPI split/combine tool
  (api/yaml/openapi/combine.py): the "# " line-prefix codec, the regular
  expression that strips an old header from an endpoint file, the layout of
  an endpoint file and of a component file, the regular expression search
  that finds the embedded block again, and the mapping from endpoint
  identifiers and component names to file paths.  YAML text is opaque here.
*/
module OpenApiText {
  import opened Common
  import opened Strings
  import opened OpenApiLicense

  /** `"#" * n`. */
  function Hashes(n: nat): (r: string)
    ensures |r| == n && forall i :: 0 <= i < n ==> r[i] == '#'
  {
    if n == 0 then [] else "#" + Hashes(n - 1)
  }

  /** The delimiter line around the embedded block: 72 '#' characters. */
  const DelimiterWidth: nat := 72
  const Delimiter: string := Hashes(DelimiterWidth)

  /** The marker the combine search looks for. */
  const UriMarker: string := "OPENAPI-URI: "

  // ---------------------------------------------------------------------
  // Line-prefix codec (combine.py:54 and :103/:117)
  // ---------------------------------------------------------------------

  function CommentLines(lines: seq<string>): (r: seq<string>)
    ensures |r| == |lines|
    ensures forall i :: 0 <= i < |r| ==> r[i] == "# " + lines[i]
  {
    seq(|lines|, i requires 0 <= i < |lines| => "# " + lines[i])
  }

  /** Python's `line[2:]`: the line without its first two characters. */
  function DropTwo(line: string): string {
    if |line| >= 2 then line[2..] else []
  }

  function DropTwoEach(lines: seq<string>): (r: seq<string>)
    ensures |r| == |lines|
    ensures forall i :: 0 <= i < |r| ==> r[i] == DropTwo(lines[i])
  {
    seq(|lines|, i requires 0 <= i < |lines| => DropTwo(lines[i]))
  }

  /**
    `"\n".join(["# %s" % line for line in text.split("\n")])`: every line of
    the text, blank lines and a final empty line included, gets a "# " prefix.
  */
  function Encode(text: string): (r: string)
    ensures Split(r, '\n') == CommentLines(Split(text, '\n'))
  {
    var lines := CommentLines(Split(text, '\n'));
    assert forall i :: 0 <= i < |lines| ==> '\n' !in lines[i];
    SplitJoin(lines, '\n');
    Join(lines, '\n')
  }

  /**
    `"\n".join([line[2:] for line in text.split("\n")])`: every line loses its
    first two characters, whatever they are.
  */
  function Decode(text: string): (r: string)
    ensures Split(r, '\n') == DropTwoEach(Split(text, '\n'))
  {
    var lines := DropTwoEach(Split(text, '\n'));
    assert forall i :: 0 <= i < |lines| ==> '\n' !in lines[i] by {
      forall i | 0 <= i < |lines| ensures '\n' !in lines[i] {
        var l := Split(text, '\n')[i];
        assert '\n' !in l;
        if |l| >= 2 {
          assert forall k :: 0 <= k < |l[2..]| ==> l[2..][k] == l[k + 2];
        }
      }
    }
    SplitJoin(lines, '\n');
    Join(lines, '\n')
  }

  /** Decoding inverts encoding exactly. */
  lemma DecodeEncode(text: string)
    ensures Decode(Encode(text)) == text
  {
    var lines := Split(text, '\n');
    var commented := CommentLines(lines);
    assert Split(Encode(text), '\n') == commented;
    assert DropTwoEach(commented) == lines by {
      forall i | 0 <= i < |lines| ensures DropTwo(commented[i]) == lines[i] {
        assert commented[i] == "# " + lines[i];
        assert ("# " + lines[i])[2..] == lines[i];
      }
    }
    JoinSplit(text, '\n');
  }

  /** A text with one more trailing newline decodes to one more newline. */
  lemma DecodeTrailingNewline(text: string)
    ensures Decode(text + "\n") == Decode(text) + "\n"
  {
    var lines := Split(text, '\n');
    JoinSplit(text, '\n');
    JoinAppendEmpty(lines, '\n');
    assert Join(lines + [[]], '\n') == text + "\n";
    SplitJoin(lines + [[]], '\n');
    assert DropTwoEach(lines + [[]]) == DropTwoEach(lines) + [[]];
    var dropped := DropTwoEach(lines);
    JoinAppendEmpty(dropped, '\n');
  }

  // ---------------------------------------------------------------------
  // Header strip (combine.py:52): one run of lines, anchored at offset 0,
  // each starting with '#' or a newline whose next characters are not
  // optional whitespace and three double quotes.  The multi-line flag lands in the
  // substitution's `count` argument, so `^` only matches at offset 0 and at
  // most one run is removed.
  // ---------------------------------------------------------------------

  /** The end of `[^\r\n]*` started at `i`. */
  function LineEnd(s: string, i: nat): (j: nat)
    requires i <= |s|
    ensures i <= j <= |s|
    ensures j == |s| || s[j] == '\r' || s[j] == '\n'
    ensures forall k :: i <= k < j ==> s[k] != '\r' && s[k] != '\n'
    decreases |s| - i
  {
    if i == |s| || s[i] == '\r' || s[i] == '\n' then i else LineEnd(s, i + 1)
  }

  /** Three double quotes start at `j`. */
  predicate QuotesAt(s: string, j: nat) {
    j + 3 <= |s| && s[j] == '"' && s[j + 1] == '"' && s[j + 2] == '"'
  }

  /** The lookahead `\s*"""` matches at `i`. */
  predicate QuoteAhead(s: string, i: nat)
    requires i <= |s|
  {
    QuotesAt(s, SkipSpace(s, i))
  }

  /** One more repetition of the group can start at `i`: `[#\n](?!\s*""")`. */
  predicate StartsHeaderLine(s: string, i: nat)
    requires i <= |s|
  {
    i < |s| && (s[i] == '#' || s[i] == '\n') && !QuoteAhead(s, i + 1)
  }

  /** Where one repetition started at `i` ends: after `[^\r\n]*\n?`. */
  function NextLine(s: string, i: nat): (j: nat)
    requires i < |s|
    ensures i < j <= |s|
  {
    var e := LineEnd(s, i + 1);
    if e < |s| && s[e] == '\n' then e + 1 else e
  }

  /**
    The length of the greedy run of repetitions at the start of `s`: one
    repetition, then the run at the start of what follows it.  The
    lookahead only reads forward, so each repetition can be judged on the
    remaining text alone.
  */
  function StripEnd(s: string): (n: nat)
    ensures n <= |s|
    decreases |s|
  {
    if StartsHeaderLine(s, 0) then
      var k := NextLine(s, 0);
      k + StripEnd(s[k..])
    else 0
  }

  /**
    The free text left after removing the leading run of comment and blank
    lines: a suffix of the input, untouched when the input does not open
    with '#' or a newline.
  */
  function Strip(contents: string): (r: string)
    ensures |r| <= |contents| && r == contents[|contents| - |r|..]
    ensures contents == [] || (contents[0] != '#' && contents[0] != '\n') ==> r == contents
  {
    contents[StripEnd(contents)..]
  }

  /** The run is greedy: no further repetition can start where it ends. */
  lemma {:induction false} StripStops(contents: string)
    ensures !StartsHeaderLine(Strip(contents), 0)
    decreases |contents|
  {
    if StartsHeaderLine(contents, 0) {
      var k := NextLine(contents, 0);
      var rest := contents[k..];
      StripStops(rest);
      assert rest[StripEnd(rest)..] == contents[StripEnd(contents)..];
    } else {
      assert contents[0..] == contents;
    }
  }

  /** Stripping twice removes nothing more than stripping once. */
  lemma StripIdempotent(contents: string)
    ensures Strip(Strip(contents)) == Strip(contents)
  {
    var r := Strip(contents);
    StripStops(contents);
    assert r[0..] == r;
  }

  lemma {:induction false} SkipSpaceShift(s: string, k: nat, i: nat)
    requires k + i <= |s|
    ensures SkipSpace(s[k..], i) + k == SkipSpace(s, k + i)
    decreases |s| - k - i
  {
    if k + i < |s| && IsSpace(s[k + i]) {
      SkipSpaceShift(s, k, i + 1);
    }
  }

  // ---------------------------------------------------------------------
  // The endpoint file written by deconstruct (combine.py:55-63)
  // ---------------------------------------------------------------------

  /**
    License, delimiter, `# OPENAPI-URI: <uri>`, delimiter, the encoded YAML,
    delimiter, two newlines and the preserved free text.
  */
  function EndpointFile(uri: string, dumped: string, freeText: string): string {
    Layout(License, Delimiter, uri, Encode(dumped), freeText)
  }

  /** The endpoint-file layout around an already encoded block `e`. */
  function Layout(lic: string, d: string, uri: string, e: string, freeText: string): string {
    lic + d + "\n" + "# OPENAPI-URI: " + uri + "\n" + d + "\n" + e
    + "\n" + d + "\n" + "\n\n" + freeText
  }

  // ---------------------------------------------------------------------
  // Block search (combine.py:98 and :112): the marker, a run of non-space
  // characters (the identifier), a newline, a line of two or more '#', then
  // the shortest non-empty body that is followed by "##".
  // ---------------------------------------------------------------------

  /** The end of the greedy `\S+` run started at `i`. */
  function NonSpaceEnd(s: string, i: nat): (j: nat)
    requires i <= |s|
    ensures i <= j <= |s|
    ensures j == |s| || IsSpace(s[j])
    ensures forall k :: i <= k < j ==> !IsSpace(s[k])
    decreases |s| - i
  {
    if i == |s| || IsSpace(s[i]) then i else NonSpaceEnd(s, i + 1)
  }

  /** The end of the run of '#' started at `i`. */
  function HashEnd(s: string, i: nat): (j: nat)
    requires i <= |s|
    ensures i <= j <= |s|
    ensures j == |s| || s[j] != '#'
    ensures forall k :: i <= k < j ==> s[k] == '#'
    decreases |s| - i
  {
    if i == |s| || s[i] != '#' then i else HashEnd(s, i + 1)
  }

  predicate HashPairAt(s: string, k: nat) {
    k + 1 < |s| && s[k] == '#' && s[k + 1] == '#'
  }

  /** The first "##" starting at or after `i`, as the lazy `[\s\S]+?##` finds it. */
  function FindHashPair(s: string, i: nat): (r: Option<nat>)
    requires i <= |s|
    ensures r.Some? ==> i <= r.value && HashPairAt(s, r.value)
    ensures r.Some? ==> forall k :: i <= k < r.value ==> !HashPairAt(s, k)
    ensures r.None? ==> forall k :: i <= k ==> !HashPairAt(s, k)
    decreases |s| - i
  {
    if i == |s| then None
    else if HashPairAt(s, i) then Some(i)
    else FindHashPair(s, i + 1)
  }

  /** The two groups of a match: the identifier and the raw block body. */
  datatype Groups = Groups(uri: string, body: string)

  /** The pattern matched with its first character at `i`. */
  function MatchAt(s: string, i: nat): Option<Groups>
    requires i <= |s|
  {
    if !OccursAt(s, UriMarker, i) then None
    else
      var a := i + |UriMarker|;
      var b := NonSpaceEnd(s, a);
      if b == a || b == |s| || s[b] != '\n' then None
      else
        var d := HashEnd(s, b + 1);
        if d < b + 3 || d == |s| || s[d] != '\n' then None
        else
          var q := d + 1;
          if q == |s| then None
          else
            match FindHashPair(s, q + 1)
            case None => None
            case Some(k) => Some(Groups(s[a..b], s[q..k]))
  }

  /** `re.search` from offset `i`: the leftmost offset where the pattern matches. */
  function SearchFrom(s: string, i: nat): (r: Option<nat>)
    requires i <= |s|
    ensures r.Some? ==> i <= r.value <= |s| && MatchAt(s, r.value).Some?
    ensures r.Some? ==> forall k :: i <= k < r.value ==> MatchAt(s, k).None?
    ensures r.None? ==> forall k :: i <= k <= |s| ==> MatchAt(s, k).None?
    decreases |s| - i
  {
    if MatchAt(s, i).Some? then Some(i)
    else if i == |s| then None
    else SearchFrom(s, i + 1)
  }

  /** An endpoint definition found in a page file: identifier and decoded YAML text. */
  datatype Endpoint = Endpoint(uri: string, yaml: string)

  /**
    The block of a page file, if the search finds one, with its body decoded
    as combine.py:103 decodes it.
  */
  function Extract(contents: string): (r: Option<Endpoint>)
    ensures r.None? <==> forall j :: 0 <= j <= |contents| ==> MatchAt(contents, j).None?
  {
    match SearchFrom(contents, 0)
    case None => None
    case Some(j) =>
      var g := MatchAt(contents, j).value;
      Some(Endpoint(g.uri, Decode(g.body)))
  }

  /** No match can start at an offset whose next character is not 'P'. */
  lemma NoMatchWithoutP(s: string, i: nat)
    requires i + 1 < |s| && s[i + 1] != 'P'
    ensures MatchAt(s, i).None?
  {
  }

  /** Offsets without a match before `j` do not change the search result. */
  lemma {:induction false} SearchSkips(s: string, i: nat, j: nat)
    requires i <= j <= |s|
    requires forall k :: i <= k < j ==> MatchAt(s, k).None?
    ensures SearchFrom(s, i) == SearchFrom(s, j)
    decreases j - i
  {
    if i < j {
      assert MatchAt(s, i).None?;
      SearchSkips(s, i + 1, j);
      assert SearchFrom(s, i) == SearchFrom(s, i + 1);
    }
  }

  /** A text without "##" has no two adjacent '#'. */
  lemma NoHashPairIn(s: string)
    requires !Contains(s, "##")
    ensures forall k :: !HashPairAt(s, k)
  {
    forall k: nat ensures !HashPairAt(s, k) {
      if k + 1 < |s| {
        assert !OccursAt(s, "##", k);
        assert s[k..k + 2] == [s[k], s[k + 1]];
      }
    }
  }

  /** Each line of a text without adjacent '#' has none either. */
  lemma {:induction false} NoHashPairInLines(s: string)
    requires forall k :: !HashPairAt(s, k)
    ensures forall i, k :: 0 <= i < |Split(s, '\n')| ==> !HashPairAt(Split(s, '\n')[i], k)
  {
    if s != [] {
      assert forall k :: !HashPairAt(s[1..], k) by {
        forall k: nat ensures !HashPairAt(s[1..], k) {
          assert !HashPairAt(s, k + 1);
        }
      }
      NoHashPairInLines(s[1..]);
      var rest := Split(s[1..], '\n');
      if s[0] != '\n' {
        var first := [s[0]] + rest[0];
        forall k: nat ensures !HashPairAt(first, k) {
          assert IsPrefix(rest[0], s[1..]);
          assert first == s[..|first|];
          assert !HashPairAt(s, k);
        }
      }
    }
  }

  /** Joined lines without adjacent '#' have none either. */
  lemma {:induction false} NoHashPairInJoin(lines: seq<string>)
    requires forall i, k :: 0 <= i < |lines| ==> !HashPairAt(lines[i], k)
    ensures forall k :: !HashPairAt(Join(lines, '\n'), k)
  {
    if |lines| > 1 {
      NoHashPairInJoin(lines[1..]);
      var head := lines[0] + ['\n'];
      var tail := Join(lines[1..], '\n');
      assert Join(lines, '\n') == head + tail;
      forall k: nat ensures !HashPairAt(head + tail, k) {
        if k + 1 < |lines[0]| {
          assert !HashPairAt(lines[0], k);
        } else if k >= |head| {
          assert !HashPairAt(tail, k - |head|);
        }
      }
    }
  }

  /** An encoded text without "##" has no adjacent '#'. */
  lemma EncodeNoHashPair(text: string)
    requires !Contains(text, "##")
    ensures forall k :: !HashPairAt(Encode(text), k)
  {
    NoHashPairIn(text);
    NoHashPairInLines(text);
    var lines := Split(text, '\n');
    var commented := CommentLines(lines);
    forall i, k: nat | 0 <= i < |commented| ensures !HashPairAt(commented[i], k) {
      assert commented[i] == "# " + lines[i];
      if k >= 2 {
        assert !HashPairAt(lines[i], k - 2);
      }
    }
    NoHashPairInJoin(commented);
  }

  /**
    The pattern, tried at `i`, matches when the marker is there, followed by a
    non-blank identifier ending at the newline at `b`, a line of at least two
    '#' ending at `q - 1`, and a body whose first "##" after its first
    character starts at `k0`.
  */
  lemma MatchAtFrom(s: string, i: nat, b: nat, q: nat, k0: nat)
    requires OccursAt(s, UriMarker, i)
    requires i + |UriMarker| < b < |s| && s[b] == '\n'
    requires forall k :: i + |UriMarker| <= k < b ==> !IsSpace(s[k])
    requires b + 4 <= q < k0 && HashPairAt(s, k0) && s[q - 1] == '\n'
    requires forall k :: b + 1 <= k < q - 1 ==> s[k] == '#'
    requires forall k :: q + 1 <= k < k0 ==> !HashPairAt(s, k)
    ensures MatchAt(s, i) == Some(Groups(s[i + |UriMarker|..b], s[q..k0]))
  {
    assert NonSpaceEnd(s, i + |UriMarker|) == b;
    assert HashEnd(s, b + 1) == q - 1;
    assert FindHashPair(s, q + 1) == Some(k0);
  }

  /** The identifier and delimiter lines, laid out from offset `a`. */
  lemma HeadAt(s: string, a: nat, uri: string, d: string)
    requires OccursAt(s, uri + "\n" + d + "\n", a)
    ensures var b := a + |uri|;
      && b < |s| && s[b] == '\n'
      && (forall k :: a <= k < b ==> s[k] == uri[k - a])
      && (forall k :: b + 1 <= k < b + 1 + |d| ==> s[k] == d[k - b - 1])
      && s[b + 1 + |d|] == '\n'
  {
    var u := uri + "\n" + d + "\n";
    assert forall k :: a <= k < a + |u| ==> s[k] == u[k - a];
  }

  /** The first "##" after the start of a body without "##" is right after it. */
  lemma BodyAt(s: string, q: nat, e: string)
    requires forall k :: !HashPairAt(e, k)
    requires OccursAt(s, e + "\n##", q)
    ensures HashPairAt(s, q + |e| + 1)
    ensures forall k :: q + 1 <= k < q + |e| + 1 ==> !HashPairAt(s, k)
    ensures s[q..q + |e| + 1] == e + "\n"
  {
    var v := e + "\n##";
    assert forall k :: q <= k < q + |v| ==> s[k] == v[k - q];
    forall k | q + 1 <= k < q + |e| + 1 ensures !HashPairAt(s, k) {
      if k + 1 < q + |e| {
        assert !HashPairAt(e, k - q);
      }
    }
  }

  /**
    The pattern matches at `i` when the marker there is followed by the
    identifier, a line `d` of '#', a body without "##" and a newline with
    "##" after it; the body group ends with that newline.
  */
  lemma MatchAtBlock(s: string, i: nat, uri: string, d: string, e: string)
    requires uri != [] && forall c :: c in uri ==> !IsSpace(c)
    requires |d| >= 2 && forall k :: 0 <= k < |d| ==> d[k] == '#'
    requires forall k :: !HashPairAt(e, k)
    requires OccursAt(s, UriMarker, i)
    requires OccursAt(s, uri + "\n" + d + "\n", i + |UriMarker|)
    requires OccursAt(s, e + "\n##", i + |UriMarker| + |uri| + |d| + 2)
    ensures MatchAt(s, i) == Some(Groups(uri, e + "\n"))
  {
    var a := i + |UriMarker|;
    var q := a + |uri| + |d| + 2;
    HeadAt(s, a, uri, d);
    BodyAt(s, q, e);
    MatchAtFrom(s, i, a + |uri|, q, q + |e| + 1);
    assert s[a..a + |uri|] == uri;
  }

  /** No match starts inside a prefix that holds no 'P' and is followed by 'O'. */
  lemma NoMatchInPrefix(s: string, n: nat)
    requires n < |s| && 'P' !in s[..n] && s[n] == 'O'
    ensures forall k :: 0 <= k < n ==> MatchAt(s, k).None?
  {
    forall k | 0 <= k < n ensures MatchAt(s, k).None? {
      if k + 1 < n {
        assert s[k + 1] == s[..n][k + 1];
      }
      NoMatchWithoutP(s, k);
    }
  }

  /**
    `s` holds, from `i0` on, the marker, the identifier, a line `d` of '#',
    the encoded block `e` and the start of the closing line, with no 'P'
    before `i0`.
  */
  predicate LaidOut(s: string, i0: nat, d: string, uri: string, e: string) {
    && i0 < |s| && 'P' !in s[..i0] && s[i0] == 'O'
    && |d| >= 2 && (forall k :: 0 <= k < |d| ==> d[k] == '#')
    && OccursAt(s, UriMarker, i0)
    && OccursAt(s, uri + "\n" + d + "\n", i0 + |UriMarker|)
    && OccursAt(s, e + "\n##", i0 + |UriMarker| + |uri| + |d| + 2)
  }

  /** The layout, regrouped around the marker the search looks for. */
  lemma LayoutRegroup(lic: string, d: string, uri: string, e: string, freeText: string)
    ensures Layout(lic, d, uri, e, freeText) ==
      (lic + d + "\n# ") + UriMarker + (uri + "\n" + d + "\n") + (e + "\n" + d + "\n" + "\n\n" + freeText)
  {
    assert "# OPENAPI-URI: " == "# " + UriMarker;
  }

  /** A marker after a 'P'-free prefix, then the identifier line, then the block. */
  lemma LaidOutConcat(pre: string, d: string, uri: string, e: string, t: string)
    requires 'P' !in pre
    requires |d| >= 2 && forall k :: 0 <= k < |d| ==> d[k] == '#'
    requires IsPrefix(e + "\n##", t)
    ensures LaidOut(pre + UriMarker + (uri + "\n" + d + "\n") + t, |pre|, d, uri, e)
  {
    var u := uri + "\n" + d + "\n";
    var s := pre + UriMarker + u + t;
    var i0 := |pre|;
    assert s[..i0] == pre;
    assert s[i0..i0 + |UriMarker|] == UriMarker;
    assert s[i0 + |UriMarker|..i0 + |UriMarker| + |u|] == u;
    assert s[i0 + |UriMarker| + |u|..][..|e| + 3] == e + "\n##";
  }

  /** Where the pieces of the endpoint-file layout sit. */
  lemma LayoutFacts(lic: string, d: string, uri: string, e: string, freeText: string)
    requires 'P' !in lic
    requires |d| >= 2 && forall k :: 0 <= k < |d| ==> d[k] == '#'
    ensures LaidOut(Layout(lic, d, uri, e, freeText), |lic| + |d| + 3, d, uri, e)
  {
    var t := e + "\n" + d + "\n" + "\n\n" + freeText;
    assert t[..|e| + 3] == e + "\n##";
    LayoutRegroup(lic, d, uri, e, freeText);
    LaidOutConcat(lic + d + "\n# ", d, uri, e, t);
  }

  /** The search result on a text laid out as an endpoint file. */
  lemma ExtractAt(s: string, i0: nat, d: string, uri: string, dumped: string)
    requires LaidOut(s, i0, d, uri, Encode(dumped))
    requires uri != [] && forall c :: c in uri ==> !IsSpace(c)
    requires !Contains(dumped, "##")
    ensures Extract(s) == Some(Endpoint(uri, dumped + "\n"))
  {
    var e := Encode(dumped);
    NoMatchInPrefix(s, i0);
    SearchSkips(s, 0, i0);
    EncodeNoHashPair(dumped);
    MatchAtBlock(s, i0, uri, d, e);
    DecodeTrailingNewline(e);
    DecodeEncode(dumped);
  }

  /**
    The search finds, in a freshly written endpoint file, the identifier it
    was written with and the dumped YAML with one extra trailing newline,
    provided the identifier is non-empty without whitespace (the `\S+`
    group) and the YAML holds no "##" (where the lazy body group stops).
  */
  lemma ExtractEndpointFile(uri: string, dumped: string, freeText: string)
    requires uri != [] && forall c :: c in uri ==> !IsSpace(c)
    requires !Contains(dumped, "##")
    ensures Extract(EndpointFile(uri, dumped, freeText)) == Some(Endpoint(uri, dumped + "\n"))
  {
    InertLicense();
    ExtractLayout(License, Delimiter, uri, dumped, freeText);
  }

  /** The same search result for any 'P'-free license and any delimiter of two or more '#'. */
  lemma ExtractLayout(lic: string, d: string, uri: string, dumped: string, freeText: string)
    requires 'P' !in lic
    requires |d| >= 2 && forall k :: 0 <= k < |d| ==> d[k] == '#'
    requires uri != [] && forall c :: c in uri ==> !IsSpace(c)
    requires !Contains(dumped, "##")
    ensures Extract(Layout(lic, d, uri, Encode(dumped), freeText)) == Some(Endpoint(uri, dumped + "\n"))
  {
    LayoutFacts(lic, d, uri, Encode(dumped), freeText);
    ExtractAt(Layout(lic, d, uri, Encode(dumped), freeText), |lic| + |d| + 3, d, uri, dumped);
  }

  // ---------------------------------------------------------------------
  // Reading a written file back (combine.py:51, :97, :111 open files in
  // text mode, so every read goes through universal-newline translation)
  // ---------------------------------------------------------------------

  /** Encoding a text without carriage returns introduces none. */
  lemma EncodeNoCarriageReturn(text: string)
    requires '\r' !in text
    ensures '\r' !in Encode(text)
  {
    var lines := Split(text, '\n');
    SplitAvoids(text, '\n', '\r');
    var commented := CommentLines(lines);
    forall i | 0 <= i < |commented| ensures '\r' !in commented[i] {
      assert commented[i] == "# " + lines[i];
    }
    JoinAvoids(commented, '\n', '\r');
  }

  /** The layout adds no carriage return to its pieces. */
  lemma LayoutNoCarriageReturn(lic: string, d: string, uri: string, e: string, freeText: string)
    requires '\r' !in lic && '\r' !in d && '\r' !in uri && '\r' !in e && '\r' !in freeText
    ensures '\r' !in Layout(lic, d, uri, e, freeText)
  {
    assert '\r' !in "# OPENAPI-URI: ";
  }

  /**
    An endpoint file written from an identifier, a dump and free text
    without carriage returns reads back exactly as written.
  */
  lemma EndpointFileReadsBack(uri: string, dumped: string, freeText: string)
    requires '\r' !in uri && '\r' !in dumped && '\r' !in freeText
    ensures ReadText(EndpointFile(uri, dumped, freeText)) == EndpointFile(uri, dumped, freeText)
  {
    InertLicense();
    EncodeNoCarriageReturn(dumped);
    assert '\r' !in Delimiter;
    LayoutNoCarriageReturn(License, Delimiter, uri, Encode(dumped), freeText);
    ReadTextPlain(EndpointFile(uri, dumped, freeText));
  }

  /** What the strip keeps of a file as read holds no carriage return. */
  lemma StripReadPlain(raw: string)
    ensures '\r' !in Strip(ReadText(raw))
  {
    SuffixAvoids(ReadText(raw), |ReadText(raw)| - |Strip(ReadText(raw))|, '\r');
  }

  /** A suffix holds no character its whole text does not. */
  lemma SuffixAvoids(t: string, n: nat, c: char)
    requires n <= |t| && c !in t
    ensures c !in t[n..]
  {
    forall i | 0 <= i < |t| - n ensures t[n..][i] != c {
      assert t[n..][i] == t[n + i];
    }
  }

  // ---------------------------------------------------------------------
  // Paths (combine.py:46-47, :70, :132) and the component file (:75-79)
  // ---------------------------------------------------------------------

  /** `pages/<uri with every "/api/" removed>.py`, relative to the API root. */
  function EndpointTarget(uri: string): string {
    "pages/" + RemoveAll(uri, "/api/") + ".py"
  }

  /** `components/<category>/<name>.yaml`. */
  function ComponentTarget(category: string, name: string): string {
    "components" + "/" + category + "/" + name + ".yaml"
  }

  /** `fname.replace(".yaml", "")`: the component name combine reads back. */
  function ComponentName(fileName: string): string {
    RemoveAll(fileName, ".yaml")
  }

  /** The title line of a component file: `"# %-68s #" % title`. */
  function TitleLine(title: string): string {
    "# " + PadRight(title, 68) + " #"
  }

  /** Box header (delimiter, title line, delimiter), then the plain YAML dump (combine.py:75-79). */
  function ComponentFile(title: string, dumped: string): string {
    Lines([Delimiter, TitleLine(title), Delimiter]) + dumped
  }

  /**
    An identifier `/api/<rest>` whose rest holds no further "/api/" is
    written to `pages/<rest>.py`.
  */
  lemma EndpointTargetApi(rest: string)
    requires !Contains(rest, "/api/")
    ensures EndpointTarget("/api/" + rest) == "pages/" + rest + ".py"
  {
    RemoveAllLeading("/api/", rest);
    RemoveAllAbsent(rest, "/api/");
  }

  /**
    Reading back the name of a component file: removing ".yaml" from
    `<name>.yaml` gives `<name>` whenever the name itself holds no ".yaml"
    (no occurrence can straddle the end of the name, as ".yaml" has no
    proper prefix that is also a suffix).
  */
  lemma {:induction false} ComponentNameOfTarget(name: string)
    requires !Contains(name, ".yaml")
    ensures ComponentName(name + ".yaml") == name
    decreases |name|
  {
    var s := name + ".yaml";
    if name == [] {
      assert IsPrefix(".yaml", s);
      assert s[5..] == [];
    } else {
      if |name| >= 5 {
        assert !OccursAt(name, ".yaml", 0);
        assert s[..5] == name[..5];
      } else {
        assert s[|name|] == '.';
      }
      assert !IsPrefix(".yaml", s);
      assert s[1..] == name[1..] + ".yaml";
      forall i: nat | i <= |name[1..]| ensures !OccursAt(name[1..], ".yaml", i) {
        assert i + 1 <= |name|;
        assert !OccursAt(name, ".yaml", i + 1);
        if i + 5 <= |name[1..]| {
          assert name[1..][i..i + 5] == name[i + 1..i + 6];
        }
      }
      ComponentNameOfTarget(name[1..]);
    }
  }

  /**
    The title line starts with "# " followed by the title, ends with " #",
    holds no line break when the title holds none, and is as wide as the
    delimiter when the title fits in 68 characters.
  */
  lemma TitleLineShape(title: string)
    ensures var t := TitleLine(title);
            && |t| == (if |title| <= 68 then DelimiterWidth else |title| + 4)
            && t[..2] == "# " && t[2..2 + |title|] == title && t[|t| - 2..] == " #"
            && ('\n' !in title ==> '\n' !in t)
  {
    var t := TitleLine(title);
    var p := PadRight(title, 68);
    assert t == "# " + p + " #";
    assert t[2..2 + |title|] == p[..|title|];
    if '\n' !in title {
      forall i | 0 <= i < |p| ensures p[i] != '\n' {
        if i < |title| {
          assert p[i] == p[..|title|][i];
        }
      }
    }
  }

  /**
    A component file is the 72-'#' delimiter, the title line, the delimiter
    again and then the dump's own lines.
  */
  lemma ComponentFileLines(title: string, dumped: string)
    requires '\n' !in title
    ensures Split(ComponentFile(title, dumped), '\n') ==
              [Delimiter, TitleLine(title), Delimiter] + Split(dumped, '\n')
  {
    TitleLineShape(title);
    assert '\n' !in Delimiter;
    SplitLines([Delimiter, TitleLine(title), Delimiter], dumped);
  }

  // ---------------------------------------------------------------------
  // Splitting a file written by an earlier split (combine.py:51-63 applied
  // to a file that combine.py:55-63 wrote)
  // ---------------------------------------------------------------------

  /** `SkipSpace` across a concatenation. */
  lemma {:induction false} SkipSpaceConcat(a: string, b: string, i: nat)
    requires i <= |a|
    ensures SkipSpace(a + b, i) == if SkipSpace(a, i) < |a| then SkipSpace(a, i) else |a| + SkipSpace(b, 0)
    decreases |a| - i
  {
    if i < |a| {
      if IsSpace(a[i]) {
        SkipSpaceConcat(a, b, i + 1);
      }
    } else {
      SkipSpaceShift(a + b, |a|, 0);
      assert (a + b)[|a|..] == b;
    }
  }

  /**
    A line the header strip consumes: it starts with '#', holds no line
    break, and the lookahead after the '#' finds no three double quotes
    within the line.
  */
  predicate CommentLine(l: string) {
    && |l| >= 1 && l[0] == '#'
    && (forall i :: 0 <= i < |l| ==> l[i] != '\n' && l[i] != '\r')
    && !QuotesAt(l, SkipSpace(l, 1))
  }

  /** The lookahead after the '#' of a comment line finds no docstring. */
  lemma CommentLineNoQuote(l: string, tail: string)
    requires CommentLine(l)
    requires SkipSpace(l, 1) < |l| || (tail != [] && tail[0] == '#')
    ensures !QuoteAhead(l + "\n" + tail, 1)
  {
    var a := l + "\n";
    var t := a + tail;
    SkipSpaceConcat(a, tail, 1);
    SkipSpaceConcat(l, "\n", 1);
    var j := SkipSpace(t, 1);
    if SkipSpace(l, 1) < |l| {
      assert j == SkipSpace(l, 1);
      if j + 3 <= |l| {
        assert t[j] == l[j] && t[j + 1] == l[j + 1] && t[j + 2] == l[j + 2];
      } else {
        assert t[|l|] == '\n';
      }
    } else {
      assert j == |a| && t[j] == '#';
    }
  }

  /** One repetition started at a comment line ends right after its newline. */
  lemma CommentLineNext(l: string, tail: string)
    requires CommentLine(l)
    ensures NextLine(l + "\n" + tail, 0) == |l| + 1
  {
    var t := l + "\n" + tail;
    var e := LineEnd(t, 1);
    assert t[|l|] == '\n';
    assert e <= |l|;
    assert forall k :: 1 <= k < |l| ==> t[k] == l[k];
  }

  /** A comment line starts a repetition that ends right after its newline. */
  lemma CommentLineStarts(l: string, tail: string)
    requires CommentLine(l)
    requires SkipSpace(l, 1) < |l| || (tail != [] && tail[0] == '#')
    ensures StartsHeaderLine(l + "\n" + tail, 0) && NextLine(l + "\n" + tail, 0) == |l| + 1
  {
    CommentLineNoQuote(l, tail);
    CommentLineNext(l, tail);
    assert (l + "\n" + tail)[0] == '#';
  }

  /** A repetition that ends at `k` leaves the run of what follows. */
  lemma StripEndAfterLine(t: string, k: nat, tail: string)
    requires StartsHeaderLine(t, 0) && NextLine(t, 0) == k && t[k..] == tail
    ensures StripEnd(t) == k + StripEnd(tail)
  {
  }

  /**
    One comment line is consumed by one repetition of the strip, provided
    the lookahead cannot run past it into a docstring: the line has a
    non-blank character after its '#', or the next line starts with '#'.
  */
  lemma StripOneLine(l: string, tail: string)
    requires CommentLine(l)
    requires SkipSpace(l, 1) < |l| || (tail != [] && tail[0] == '#')
    ensures StripEnd(l + "\n" + tail) == |l| + 1 + StripEnd(tail)
  {
    var t := l + "\n" + tail;
    CommentLineStarts(l, tail);
    SuffixOfConcat(l + "\n", tail, 0);
    StripEndAfterLine(t, |l| + 1, tail);
  }

  /** A block of comment lines ending in a non-blank one is consumed whole. */
  lemma {:induction false} StripLines(ls: seq<string>, rest: string)
    requires AllComments(ls)
    requires ls != [] ==> |ls[|ls| - 1]| >= 1 && SkipSpace(ls[|ls| - 1], 1) < |ls[|ls| - 1]|
    ensures StripEnd(Lines(ls) + rest) == |Lines(ls)| + StripEnd(rest)
  {
    if ls == [] {
      assert Lines(ls) + rest == rest;
    } else {
      var tail := Lines(ls[1..]) + rest;
      StripLines(ls[1..], rest);
      LinesCons(ls, rest);
      StripOneLine(ls[0], tail);
    }
  }

  /**
    The two newlines written before the free text form one repetition,
    unless the free text opens (after blanks) with three double quotes.
  */
  lemma StripBlankPair(freeText: string)
    ensures StripEnd("\n\n" + freeText) == if QuoteAhead(freeText, 0) then 0 else 2 + StripEnd(freeText)
  {
    var t := "\n\n" + freeText;
    SkipSpaceConcat("\n\n", freeText, 1);
    assert SkipSpace("\n\n", 1) == 2;
    var j := SkipSpace(freeText, 0);
    if j + 3 <= |freeText| {
      assert t[2 + j] == freeText[j] && t[3 + j] == freeText[j + 1] && t[4 + j] == freeText[j + 2];
    }
    assert QuoteAhead(t, 1) == QuoteAhead(freeText, 0);
    if !QuoteAhead(freeText, 0) {
      assert LineEnd(t, 1) == 1;
      assert t[0] == '\n' && NextLine(t, 0) == 2;
      SuffixOfConcat("\n\n", freeText, 0);
      StripEndAfterLine(t, 2, freeText);
    }
  }

  /** The lines of an endpoint file before the two newlines and the free text. */
  function BlockLines(uri: string, dumped: string): seq<string> {
    LicenseLines + [Delimiter, "# " + UriMarker + uri, Delimiter] + CommentLines(Split(dumped, '\n')) + [Delimiter]
  }

  lemma LinesOne(a: string)
    ensures Lines([a]) == a + "\n"
  {
    assert [a][1..] == [];
  }

  lemma LinesThree(a: string, b: string, c: string)
    ensures Lines([a, b, c]) == a + "\n" + b + "\n" + c + "\n"
  {
    assert [a, b, c][1..] == [b, c];
    assert [b, c][1..] == [c];
    LinesOne(c);
  }

  /** The layout cut at its line ends. */
  lemma LayoutAtLineEnds(lic: string, d: string, uri: string, e: string, freeText: string)
    ensures Layout(lic, d, uri, e, freeText) ==
      lic + (d + "\n" + ("# " + UriMarker + uri) + "\n" + d + "\n") + (e + "\n") + (d + "\n") + ("\n\n" + freeText)
  {
    assert "# OPENAPI-URI: " == "# " + UriMarker;
  }

  lemma LayoutLines(lic: seq<string>, d: string, uri: string, enc: seq<string>, freeText: string)
    requires |enc| >= 1
    ensures Layout(Lines(lic), d, uri, Join(enc, '\n'), freeText) ==
      Lines(lic + [d, "# " + UriMarker + uri, d] + enc + [d]) + ("\n\n" + freeText)
  {
    var head := [d, "# " + UriMarker + uri, d];
    LinesAppend(lic, head);
    LinesAppend(lic + head, enc);
    LinesAppend(lic + head + enc, [d]);
    JoinLines(enc);
    LinesThree(d, "# " + UriMarker + uri, d);
    LinesOne(d);
    LayoutAtLineEnds(Lines(lic), d, uri, Join(enc, '\n'), freeText);
  }

  /** An endpoint file is its block lines, two newlines and the free text. */
  lemma EndpointFileLines(uri: string, dumped: string, freeText: string)
    ensures EndpointFile(uri, dumped, freeText) == Lines(BlockLines(uri, dumped)) + ("\n\n" + freeText)
  {
    LayoutLines(LicenseLines, Delimiter, uri, CommentLines(Split(dumped, '\n')), freeText);
  }

  lemma HeaderIsComment(l: string)
    requires HeaderLine(l)
    ensures CommentLine(l)
  {
    var j := SkipSpace(l, 1);
    assert j + 3 <= |l| ==> l[j..j + 3][0] == l[j];
  }

  lemma DelimiterIsComment()
    ensures CommentLine(Delimiter) && SkipSpace(Delimiter, 1) < |Delimiter|
  {
    assert SkipSpace(Delimiter, 1) == 1;
    assert !QuotesAt(Delimiter, 1) by {
      assert Delimiter[1..4][0] == '#';
    }
  }

  lemma UriLineIsComment(uri: string)
    requires '\n' !in uri && '\r' !in uri
    ensures CommentLine("# " + UriMarker + uri)
  {
    var l := "# " + UriMarker + uri;
    assert SkipSpace(l, 1) == 2;
    assert !QuotesAt(l, 2) by {
      assert l[2..5][0] == 'O';
    }
    forall i | 0 <= i < |l| ensures l[i] != '\n' && l[i] != '\r' {
      if i >= 15 {
        assert l[i] == uri[i - 15];
      }
    }
  }

  /** An encoded YAML line is a comment line unless the YAML line opens with three double quotes. */
  lemma EncodedIsComment(line: string)
    requires '\n' !in line && '\r' !in line
    requires !QuoteAhead(line, 0)
    ensures CommentLine("# " + line)
  {
    var l := "# " + line;
    SkipSpaceConcat("# ", line, 1);
    assert SkipSpace("# ", 1) == 2;
    var j := SkipSpace(line, 0);
    if 2 + j + 3 <= |l| {
      assert l[2 + j..2 + j + 3] == line[j..j + 3];
    }
    forall i | 0 <= i < |l| ensures l[i] != '\n' && l[i] != '\r' {
      if i >= 2 {
        assert l[i] == line[i - 2];
      }
    }
  }

  predicate AllComments(ls: seq<string>) {
    forall i :: 0 <= i < |ls| ==> CommentLine(ls[i])
  }

  lemma AllCommentsConcat(a: seq<string>, b: seq<string>)
    requires AllComments(a) && AllComments(b)
    ensures AllComments(a + b)
  {
    forall i | 0 <= i < |a + b| ensures CommentLine((a + b)[i]) {
      if i >= |a| {
        assert (a + b)[i] == b[i - |a|];
      }
    }
  }

  lemma LicenseLinesAreComments()
    ensures AllComments(LicenseLines)
  {
    LicenseLinesAreHeaders();
    forall i | 0 <= i < |LicenseLines| ensures CommentLine(LicenseLines[i]) {
      HeaderIsComment(LicenseLines[i]);
    }
  }

  lemma EncodedLinesAreComments(dumped: string)
    requires '\r' !in dumped
    requires forall i :: 0 <= i < |Split(dumped, '\n')| ==> !QuoteAhead(Split(dumped, '\n')[i], 0)
    ensures AllComments(CommentLines(Split(dumped, '\n')))
  {
    var lines := Split(dumped, '\n');
    SplitAvoids(dumped, '\n', '\r');
    forall i | 0 <= i < |lines| ensures CommentLine(CommentLines(lines)[i]) {
      EncodedIsComment(lines[i]);
    }
  }

  lemma BlockLinesAreComments(uri: string, dumped: string)
    requires '\n' !in uri && '\r' !in uri && '\r' !in dumped
    requires forall i :: 0 <= i < |Split(dumped, '\n')| ==> !QuoteAhead(Split(dumped, '\n')[i], 0)
    ensures var ls := BlockLines(uri, dumped);
      AllComments(ls) && SkipSpace(ls[|ls| - 1], 1) < |ls[|ls| - 1]|
  {
    var head := [Delimiter, "# " + UriMarker + uri, Delimiter];
    var enc := CommentLines(Split(dumped, '\n'));
    DelimiterIsComment();
    UriLineIsComment(uri);
    assert AllComments(head);
    assert AllComments([Delimiter]);
    LicenseLinesAreComments();
    EncodedLinesAreComments(dumped);
    AllCommentsConcat(LicenseLines, head);
    AllCommentsConcat(LicenseLines + head, enc);
    AllCommentsConcat(LicenseLines + head + enc, [Delimiter]);
  }

  lemma StripEndBlock(ls: seq<string>, freeText: string)
    requires AllComments(ls)
    requires ls != [] ==> |ls[|ls| - 1]| >= 1 && SkipSpace(ls[|ls| - 1], 1) < |ls[|ls| - 1]|
    ensures StripEnd(Lines(ls) + ("\n\n" + freeText)) ==
      |Lines(ls)| + if QuoteAhead(freeText, 0) then 0 else 2 + StripEnd(freeText)
  {
    StripLines(ls, "\n\n" + freeText);
    StripBlankPair(freeText);
  }

  lemma SuffixOfConcat(a: string, b: string, m: nat)
    requires m <= |b|
    ensures (a + b)[|a| + m..] == b[m..]
  {
  }

  /** Stripping removes exactly the run the scan finds. */
  lemma StripFrom(s: string, n: nat)
    requires n <= |s| && StripEnd(s) == n
    ensures Strip(s) == s[n..]
  {
  }

  /** Whatever precedes the two newlines, once the run ends as computed, only free text is left. */
  lemma StripAfterBlock(block: string, freeText: string)
    requires StripEnd(block + ("\n\n" + freeText)) ==
      |block| + if QuoteAhead(freeText, 0) then 0 else 2 + StripEnd(freeText)
    ensures Strip(block + ("\n\n" + freeText)) ==
      if QuoteAhead(freeText, 0) then "\n\n" + freeText else Strip(freeText)
  {
    var s := block + ("\n\n" + freeText);
    if QuoteAhead(freeText, 0) {
      StripFrom(s, |block| + 0);
      SuffixOfConcat(block, "\n\n" + freeText, 0);
    } else {
      var m := StripEnd(freeText);
      StripFrom(s, |block| + (2 + m));
      StripFrom(freeText, m);
      SuffixOfConcat(block, "\n\n" + freeText, 2 + m);
      SuffixOfConcat("\n\n", freeText, m);
    }
  }

  /** Comment lines, two newlines and free text: only the free text's own run is left to strip. */
  lemma StripBlock(ls: seq<string>, freeText: string)
    requires AllComments(ls)
    requires ls != [] ==> |ls[|ls| - 1]| >= 1 && SkipSpace(ls[|ls| - 1], 1) < |ls[|ls| - 1]|
    ensures Strip(Lines(ls) + ("\n\n" + freeText)) ==
      if QuoteAhead(freeText, 0) then "\n\n" + freeText else Strip(freeText)
  {
    StripEndBlock(ls, freeText);
    StripAfterBlock(Lines(ls), freeText);
  }

  /**
    Splitting again a file that an earlier split wrote removes the license
    and the old block: what is kept is the stripped free text, except that
    free text opening with a docstring also keeps the two newlines written
    before it, so every further split adds two more.
  */
  lemma StripEndpointFile(uri: string, dumped: string, freeText: string)
    requires '\n' !in uri && '\r' !in uri && '\r' !in dumped
    requires forall i :: 0 <= i < |Split(dumped, '\n')| ==> !QuoteAhead(Split(dumped, '\n')[i], 0)
    ensures Strip(EndpointFile(uri, dumped, freeText)) ==
      if QuoteAhead(freeText, 0) then "\n\n" + freeText else Strip(freeText)
  {
    EndpointFileLines(uri, dumped, freeText);
    BlockLinesAreComments(uri, dumped);
    StripBlock(BlockLines(uri, dumped), freeText);
  }

}
