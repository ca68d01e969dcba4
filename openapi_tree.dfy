/**
  The two drivers of the OpenAPI split/combine tool
  (api/yaml/openapi/combine.py): `deconstruct`, which spreads a parsed
  document over endpoint page files and component files, and `construct`,
  which scans those files and gathers the document back.

  The file system is a map from paths to file contents held in a `FileTree`
  object.  A path is the sequence of its '/'-separated segments, rooted at
  the directory of the tool for components ("components/...") and at the
  API page directory for endpoints ("pages/...").  A directory exists
  exactly when some file lies below it.  The order in which a directory is
  listed is not fixed, so the scans pick entries from sets.
*/
module OpenApiTree {
  import opened Common
  import opened Strings
  import opened OpenApiText

  type Path = seq<string>
  type Files = map<Path, string>

  /** A path written as text, split into its segments. */
  function PathOf(s: string): Path {
    Split(s, '/')
  }

  /** `os.path.isdir`: some file lies strictly below `p`. */
  predicate IsDir(files: Files, p: Path) {
    exists k :: k in files && |p| < |k| && k[..|p|] == p
  }

  /** No path is both a file and a directory, as on any real file system. */
  predicate NoFileIsDir(files: Files) {
    forall p :: p in files ==> !IsDir(files, p)
  }

  /** `os.listdir(dir)`: the names of the files and directories right below `dir`. */
  function Entries(files: Files, dir: Path): set<string> {
    set k | k in files && |dir| < |k| && k[..|dir|] == dir :: k[|dir|]
  }

  /** An entry of a directory is a file or a directory. */
  lemma EntryKind(files: Files, dir: Path, n: string)
    requires n in Entries(files, dir)
    ensures dir + [n] in files || IsDir(files, dir + [n])
  {
    var k :| k in files && |dir| < |k| && k[..|dir|] == dir && k[|dir|] == n;
    if |k| == |dir| + 1 {
      assert k == dir + [n];
    } else {
      assert k[..|dir| + 1] == dir + [n];
    }
  }

  /** The segment of a file right below `dir` is an entry of `dir`. */
  lemma InEntries(files: Files, dir: Path, k: Path)
    requires k in files && |dir| < |k| && k[..|dir|] == dir
    ensures k[|dir|] in Entries(files, dir)
  {
  }

  // ---------------------------------------------------------------------
  // The parsed document, as far as the drivers look into it
  // ---------------------------------------------------------------------

  /** One entry of `yml['paths']`: the endpoint identifier and its dumped YAML. */
  datatype PathDef = PathDef(uri: string, dumped: string)

  /** One component: its name, its `summary` if it has one, and its dumped YAML. */
  datatype Component = Component(name: string, summary: Option<string>, dumped: string)

  /** One entry of `yml['components']`: a category such as "schemas" and its components. */
  datatype Category = Category(name: string, entries: seq<Component>)

  // ---------------------------------------------------------------------
  // deconstruct: specification by folds
  // ---------------------------------------------------------------------

  /** The page file an endpoint is written to. */
  function EndpointKey(uri: string): Path {
    PathOf(EndpointTarget(uri))
  }

  /** The file a component is written to. */
  function ComponentKey(category: string, name: string): Path {
    PathOf(ComponentTarget(category, name))
  }

  /** `defs.get('summary', schema)`. */
  function TitleOf(c: Component): string {
    match c.summary
    case Some(s) => s
    case None => c.name
  }

  /**
    One iteration of the endpoint loop: only an existing page file is
    rewritten, with its old contents, as text mode reads them, stripped and
    kept after the block.
  */
  function SplitOne(files: Files, p: PathDef): Files {
    var target := EndpointKey(p.uri);
    if target in files then files[target := EndpointFile(p.uri, p.dumped, Strip(ReadText(files[target])))]
    else files
  }

  /** The endpoint loop over `ps`, in order. */
  function SplitAll(files: Files, ps: seq<PathDef>): Files
    decreases |ps|
  {
    if ps == [] then files else SplitOne(SplitAll(files, ps[..|ps| - 1]), ps[|ps| - 1])
  }

  /** The writes of one category, in order: target path and file contents. */
  function CategoryWrites(cat: Category): (ws: seq<(Path, string)>)
    ensures |ws| == |cat.entries|
    ensures forall i :: 0 <= i < |ws| ==> ws[i].0 == ComponentKey(cat.name, cat.entries[i].name)
    ensures forall i :: 0 <= i < |ws| ==> ws[i].1 == ComponentFile(TitleOf(cat.entries[i]), cat.entries[i].dumped)
  {
    seq(|cat.entries|, i requires 0 <= i < |cat.entries| =>
      (ComponentKey(cat.name, cat.entries[i].name), ComponentFile(TitleOf(cat.entries[i]), cat.entries[i].dumped)))
  }

  /** The writes of the component loops, in order. */
  function AllWrites(cats: seq<Category>): seq<(Path, string)>
    decreases |cats|
  {
    if cats == [] then [] else AllWrites(cats[..|cats| - 1]) + CategoryWrites(cats[|cats| - 1])
  }

  /** The number of components over all categories. */
  function EntryCount(cats: seq<Category>): nat
    decreases |cats|
  {
    if cats == [] then 0 else EntryCount(cats[..|cats| - 1]) + |cats[|cats| - 1].entries|
  }

  /** Writing `ws` in order; a write creates or overwrites its file. */
  function WriteAll(files: Files, ws: seq<(Path, string)>): Files
    decreases |ws|
  {
    if ws == [] then files else WriteAll(files, ws[..|ws| - 1])[ws[|ws| - 1].0 := ws[|ws| - 1].1]
  }

  /** The endpoint loop never creates a file: it only rewrites existing ones. */
  lemma {:induction false} SplitAllKeys(files: Files, ps: seq<PathDef>)
    ensures SplitAll(files, ps).Keys == files.Keys
    decreases |ps|
  {
    if ps != [] {
      SplitAllKeys(files, ps[..|ps| - 1]);
    }
  }

  /** A file that is no endpoint's target keeps its contents. */
  lemma {:induction false} SplitAllElsewhere(files: Files, ps: seq<PathDef>, k: Path)
    requires k in files
    requires forall i :: 0 <= i < |ps| ==> EndpointKey(ps[i].uri) != k
    ensures k in SplitAll(files, ps) && SplitAll(files, ps)[k] == files[k]
    decreases |ps|
  {
    if ps != [] {
      SplitAllElsewhere(files, ps[..|ps| - 1], k);
    }
  }

  /**
    An existing target ends up as the file written for the last endpoint
    mapped to it, keeping the stripped contents it had just before.
  */
  lemma {:induction false} SplitAllLast(files: Files, ps: seq<PathDef>, i: nat)
    requires i < |ps| && EndpointKey(ps[i].uri) in files
    requires forall j :: i < j < |ps| ==> EndpointKey(ps[j].uri) != EndpointKey(ps[i].uri)
    ensures var k := EndpointKey(ps[i].uri);
            k in SplitAll(files, ps[..i]) && k in SplitAll(files, ps) &&
            SplitAll(files, ps)[k] == EndpointFile(ps[i].uri, ps[i].dumped, Strip(ReadText(SplitAll(files, ps[..i])[k])))
    decreases |ps|
  {
    var k := EndpointKey(ps[i].uri);
    SplitAllKeys(files, ps[..i]);
    if i == |ps| - 1 {
      assert ps[..|ps| - 1] == ps[..i];
    } else {
      var front := ps[..|ps| - 1];
      assert front[..i] == ps[..i];
      SplitAllLast(files, front, i);
      SplitAllKeys(files, front);
    }
  }

  /** Writing a file's own contents back leaves the tree as it was. */
  lemma RewriteSame(files: Files, k: Path)
    requires k in files
    ensures files[k := files[k]] == files
  {
  }

  /**
    Splitting the same definition into a page a second time: the page is
    unchanged when its preserved free text does not open with a docstring;
    otherwise two more newlines end up in front of the free text.
  */
  lemma SplitOneAgain(files: Files, p: PathDef)
    requires EndpointKey(p.uri) in files
    requires '\n' !in p.uri && '\r' !in p.uri && '\r' !in p.dumped
    requires forall i :: 0 <= i < |Split(p.dumped, '\n')| ==> !QuoteAhead(Split(p.dumped, '\n')[i], 0)
    ensures var k := EndpointKey(p.uri);
      var once := SplitOne(files, p);
      var freeText := Strip(ReadText(files[k]));
      SplitOne(once, p) ==
        if QuoteAhead(freeText, 0) then once[k := EndpointFile(p.uri, p.dumped, "\n\n" + freeText)] else once
  {
    var k := EndpointKey(p.uri);
    var freeText := Strip(ReadText(files[k]));
    var written := EndpointFile(p.uri, p.dumped, freeText);
    var once := files[k := written];
    assert SplitOne(files, p) == once;
    StripReadPlain(files[k]);
    EndpointFileReadsBack(p.uri, p.dumped, freeText);
    assert SplitOne(once, p) == once[k := EndpointFile(p.uri, p.dumped, Strip(written))];
    StripEndpointFile(p.uri, p.dumped, freeText);
    if !QuoteAhead(freeText, 0) {
      StripIdempotent(ReadText(files[k]));
      RewriteSame(once, k);
    }
  }

  /**
    After the split, the page file of the last endpoint mapped to an existing
    target gives back that endpoint's identifier and dumped YAML (plus a
    trailing newline) to the combine search.
  */
  lemma SplitThenExtract(files: Files, ps: seq<PathDef>, i: nat)
    requires i < |ps| && EndpointKey(ps[i].uri) in files
    requires forall j :: i < j < |ps| ==> EndpointKey(ps[j].uri) != EndpointKey(ps[i].uri)
    requires ps[i].uri != [] && forall c :: c in ps[i].uri ==> !IsSpace(c)
    requires !Contains(ps[i].dumped, "##") && '\r' !in ps[i].dumped
    ensures var k := EndpointKey(ps[i].uri);
            k in SplitAll(files, ps) &&
            Extract(ReadText(SplitAll(files, ps)[k])) == Some(Endpoint(ps[i].uri, ps[i].dumped + "\n"))
  {
    var k := EndpointKey(ps[i].uri);
    SplitAllLast(files, ps, i);
    SplitAllKeys(files, ps[..i]);
    var freeText := Strip(ReadText(SplitAll(files, ps[..i])[k]));
    StripReadPlain(SplitAll(files, ps[..i])[k]);
    assert IsSpace('\r');
    EndpointFileReadsBack(ps[i].uri, ps[i].dumped, freeText);
    ExtractEndpointFile(ps[i].uri, ps[i].dumped, freeText);
  }

  lemma {:induction false} AllWritesCount(cats: seq<Category>)
    ensures |AllWrites(cats)| == EntryCount(cats)
    decreases |cats|
  {
    if cats != [] {
      AllWritesCount(cats[..|cats| - 1]);
    }
  }

  /** Every write creates its file; nothing else is created. */
  lemma {:induction false} WriteAllKeys(files: Files, ws: seq<(Path, string)>)
    ensures WriteAll(files, ws).Keys == files.Keys + set i | 0 <= i < |ws| :: ws[i].0
    decreases |ws|
  {
    if ws != [] {
      var front := ws[..|ws| - 1];
      WriteAllKeys(files, front);
      var s1 := set i | 0 <= i < |front| :: front[i].0;
      var s2 := set i | 0 <= i < |ws| :: ws[i].0;
      assert s2 == s1 + {ws[|ws| - 1].0} by {
        forall x | x in s2 ensures x in s1 + {ws[|ws| - 1].0} {
          var i :| 0 <= i < |ws| && ws[i].0 == x;
          if i < |ws| - 1 {
            assert front[i].0 == x;
          }
        }
        forall x | x in s1 ensures x in s2 {
          var i :| 0 <= i < |front| && front[i].0 == x;
          assert ws[i].0 == x;
        }
      }
    }
  }

  /** Last write wins: a file holds what the last write to it wrote. */
  lemma {:induction false} WriteAllLast(files: Files, ws: seq<(Path, string)>, i: nat)
    requires i < |ws|
    requires forall j :: i < j < |ws| ==> ws[j].0 != ws[i].0
    ensures ws[i].0 in WriteAll(files, ws) && WriteAll(files, ws)[ws[i].0] == ws[i].1
    decreases |ws|
  {
    if i < |ws| - 1 {
      var front := ws[..|ws| - 1];
      assert front[i] == ws[i];
      WriteAllLast(files, front, i);
    }
  }

  /** Writing one more element of `ws`. */
  lemma WriteAllStep(files: Files, ws: seq<(Path, string)>, j: nat)
    requires j < |ws|
    ensures WriteAll(files, ws[..j + 1]) == WriteAll(files, ws[..j])[ws[j].0 := ws[j].1]
  {
    assert ws[..j + 1][..j] == ws[..j];
  }

  /** A file no write targets keeps its contents. */
  lemma {:induction false} WriteAllElsewhere(files: Files, ws: seq<(Path, string)>, k: Path)
    requires k in files
    requires forall i :: 0 <= i < |ws| ==> ws[i].0 != k
    ensures k in WriteAll(files, ws) && WriteAll(files, ws)[k] == files[k]
    decreases |ws|
  {
    if ws != [] {
      WriteAllElsewhere(files, ws[..|ws| - 1], k);
    }
  }

  /** Writing `a` and then `b` is writing `a + b`. */
  lemma {:induction false} WriteAllAppend(files: Files, a: seq<(Path, string)>, b: seq<(Path, string)>)
    ensures WriteAll(WriteAll(files, a), b) == WriteAll(files, a + b)
    decreases |b|
  {
    if b != [] {
      WriteAllAppend(files, a, b[..|b| - 1]);
      assert (a + b)[..|a + b| - 1] == a + b[..|b| - 1];
      assert (a + b)[|a + b| - 1] == b[|b| - 1];
    } else {
      assert a + b == a;
    }
  }

  /** The component writes of `a + b` are those of `a`, then those of `b`. */
  lemma {:induction false} AllWritesAppend(a: seq<Category>, b: seq<Category>)
    ensures AllWrites(a + b) == AllWrites(a) + AllWrites(b)
    decreases |b|
  {
    if b == [] {
      assert a + b == a;
    } else {
      var n := |b| - 1;
      assert (a + b)[..|a + b| - 1] == a + b[..n];
      assert (a + b)[|a + b| - 1] == b[n];
      AllWritesAppend(a, b[..n]);
    }
  }

  /**
    `os.makedirs` of the parent and `open(path, "w")` both succeed: no
    directory on the way to `k` is a file, and `k` itself is not a directory.
  */
  predicate Writable(files: Files, k: Path) {
    && (forall i :: 0 <= i < |k| ==> k[..i] !in files)
    && !IsDir(files, k)
  }

  /** Whether a path is a file or a directory depends only on which paths are files. */
  lemma SameKeysApart(files: Files, other: Files)
    requires NoFileIsDir(files) && other.Keys == files.Keys
    ensures NoFileIsDir(other)
  {
    forall p | p in other
      ensures !IsDir(other, p)
    {
      assert !IsDir(files, p);
    }
  }

  /** A write that succeeds keeps files and directories apart. */
  lemma WriteKeepsApart(files: Files, k: Path, v: string)
    requires NoFileIsDir(files) && Writable(files, k)
    ensures NoFileIsDir(files[k := v])
  {
    var after := files[k := v];
    forall p, q | p in after && q in after && |p| < |q|
      ensures q[..|p|] != p
    {
      if q == k {
        assert k[..|p|] !in files;
      } else if p == k {
        assert !IsDir(files, k);
      } else {
        assert !IsDir(files, p);
      }
    }
  }

  /**
    The component writes as the program performs them: each write either
    succeeds or raises, and the first one that raises ends the run with the
    files written so far and the path it could not write.
  */
  function TryWriteAll(files: Files, ws: seq<(Path, string)>): (r: Result<Files, (Files, Path)>)
    ensures r.Success? ==> r.value == WriteAll(files, ws)
    ensures r.Failure? ==> !Writable(r.error.0, r.error.1)
    decreases |ws|
  {
    if ws == [] then Success(files)
    else
      var last := ws[|ws| - 1];
      match TryWriteAll(files, ws[..|ws| - 1])
      case Failure(e) => Failure(e)
      case Success(f) => if Writable(f, last.0) then Success(f[last.0 := last.1]) else Failure((f, last.0))
  }

  /** Each of the first `n` writes finds its path writable after the writes before it. */
  predicate WritableUpTo(files: Files, ws: seq<(Path, string)>, n: nat)
    requires n <= |ws|
  {
    forall j :: 0 <= j < n ==> Writable(WriteAll(files, ws[..j]), ws[j].0)
  }

  /** The condition for the first `n + 1` writes is the one for the first `n` and one more. */
  lemma WritableUpToStep(files: Files, ws: seq<(Path, string)>, n: nat)
    requires n < |ws|
    ensures WritableUpTo(files, ws, n + 1) <==>
      WritableUpTo(files, ws, n) && Writable(WriteAll(files, ws[..n]), ws[n].0)
  {
  }

  /** The condition on a prefix of the writes is the condition on its first writes. */
  lemma WritableUpToPrefix(files: Files, ws: seq<(Path, string)>, n: nat)
    requires n <= |ws|
    ensures WritableUpTo(files, ws[..n], n) <==> WritableUpTo(files, ws, n)
  {
    assert forall j :: 0 <= j < n ==> ws[..n][..j] == ws[..j];
  }

  /** The writes succeed exactly when each one finds its path writable after the writes before it. */
  lemma {:induction false} TryWriteAllWritable(files: Files, ws: seq<(Path, string)>)
    ensures TryWriteAll(files, ws).Success? <==> WritableUpTo(files, ws, |ws|)
    decreases |ws|
  {
    if ws != [] {
      var n := |ws| - 1;
      TryWriteAllWritable(files, ws[..n]);
      WritableUpToPrefix(files, ws, n);
      WritableUpToStep(files, ws, n);
    }
  }

  /**
    The first write whose path is not writable stops the run, with the files
    as the writes before it left them.
  */
  lemma TryWriteAllStops(files: Files, ws: seq<(Path, string)>, j: nat)
    requires j < |ws|
    requires WritableUpTo(files, ws, j)
    requires !Writable(WriteAll(files, ws[..j]), ws[j].0)
    ensures TryWriteAll(files, ws) == Failure((WriteAll(files, ws[..j]), ws[j].0))
  {
    WritableUpToPrefix(files, ws, j);
    TryWriteAllWritable(files, ws[..j]);
    assert ws[..j + 1][..j] == ws[..j];
    assert ws == ws[..j + 1] + ws[j + 1..];
    TryWriteAllAppend(files, ws[..j + 1], ws[j + 1..]);
  }

  /** Writing `a + b`: the writes of `a`, then, unless one of them raised, those of `b`. */
  lemma {:induction false} TryWriteAllAppend(files: Files, a: seq<(Path, string)>, b: seq<(Path, string)>)
    ensures TryWriteAll(files, a + b) ==
      match TryWriteAll(files, a)
      case Failure(e) => Failure(e)
      case Success(f) => TryWriteAll(f, b)
    decreases |b|
  {
    if b == [] {
      assert a + b == a;
    } else {
      var n := |b| - 1;
      assert (a + b)[..|a + b| - 1] == a + b[..n];
      assert (a + b)[|a + b| - 1] == b[n];
      TryWriteAllAppend(files, a, b[..n]);
    }
  }

  /** One more write after a run of writes that all succeeded. */
  lemma TryWriteAllStep(files: Files, ws: seq<(Path, string)>, j: nat, f: Files)
    requires j < |ws| && TryWriteAll(files, ws[..j]) == Success(f)
    ensures TryWriteAll(files, ws[..j + 1]) ==
      if Writable(f, ws[j].0) then Success(f[ws[j].0 := ws[j].1]) else Failure((f, ws[j].0))
  {
    assert ws[..j + 1][..j] == ws[..j];
  }

  /** Once a prefix of the writes has raised, the later writes are never attempted. */
  lemma TryWriteAllPrefixFails(files: Files, ws: seq<(Path, string)>, n: nat)
    requires n <= |ws| && TryWriteAll(files, ws[..n]).Failure?
    ensures TryWriteAll(files, ws) == TryWriteAll(files, ws[..n])
  {
    assert ws == ws[..n] + ws[n..];
    TryWriteAllAppend(files, ws[..n], ws[n..]);
  }

  /** The writes of one more category, after those of the categories before it succeeded. */
  lemma CategoryStep(files: Files, cats: seq<Category>, i: nat, f: Files)
    requires i < |cats| && TryWriteAll(files, AllWrites(cats[..i])) == Success(f)
    ensures TryWriteAll(files, AllWrites(cats[..i + 1])) == TryWriteAll(f, CategoryWrites(cats[i]))
    ensures EntryCount(cats[..i + 1]) == EntryCount(cats[..i]) + |cats[i].entries|
  {
    assert cats[..i + 1][..i] == cats[..i];
    TryWriteAllAppend(files, AllWrites(cats[..i]), CategoryWrites(cats[i]));
  }

  /** A category whose writes raise ends the component loops. */
  lemma CategoryStops(files: Files, cats: seq<Category>, i: nat)
    requires i < |cats| && TryWriteAll(files, AllWrites(cats[..i + 1])).Failure?
    ensures TryWriteAll(files, AllWrites(cats)) == TryWriteAll(files, AllWrites(cats[..i + 1]))
  {
    AllWritesAppend(cats[..i + 1], cats[i + 1..]);
    assert cats[..i + 1] + cats[i + 1..] == cats;
    TryWriteAllAppend(files, AllWrites(cats[..i + 1]), AllWrites(cats[i + 1..]));
  }

  /** Whether the writes succeed or stop, no path ends up both a file and a directory. */
  lemma {:induction false} TryWriteAllApart(files: Files, ws: seq<(Path, string)>)
    requires NoFileIsDir(files)
    ensures match TryWriteAll(files, ws)
      case Success(f) => NoFileIsDir(f)
      case Failure(e) => NoFileIsDir(e.0)
    decreases |ws|
  {
    if ws != [] {
      var last := ws[|ws| - 1];
      TryWriteAllApart(files, ws[..|ws| - 1]);
      match TryWriteAll(files, ws[..|ws| - 1])
      case Failure(e) =>
      case Success(f) =>
        if Writable(f, last.0) {
          WriteKeepsApart(f, last.0, last.1);
        }
    }
  }

  /** A component name without '/' is written to `components/<category>/<name>.yaml`. */
  lemma ComponentKeySegments(category: string, name: string)
    requires '/' !in category && '/' !in name
    ensures ComponentKey(category, name) == ["components", category, name + ".yaml"]
  {
    assert '/' !in "components";
    assert '/' !in name + ".yaml";
    assert ComponentTarget(category, name) == "components" + "/" + category + "/" + (name + ".yaml");
    SplitThree("components", category, name + ".yaml", '/');
  }

  /**
    A file standing where a category's directory should be makes the first
    component of that category raise, and nothing is written.
  */
  lemma FileInTheWay(category: string, c: Component, contents: string)
    requires '/' !in category && '/' !in c.name
    ensures var files := map[["components", category] := contents];
      TryWriteAll(files, CategoryWrites(Category(category, [c]))) == Failure((files, ComponentKey(category, c.name)))
  {
    var files := map[["components", category] := contents];
    var ws := CategoryWrites(Category(category, [c]));
    ComponentKeySegments(category, c.name);
    var k := ComponentKey(category, c.name);
    assert ws[0].0 == k;
    assert k[..2] == ["components", category];
    assert !Writable(files, k);
    assert ws[..0] == [];
    assert ws[..1] == ws;
  }

  /**
    An identifier `/api/<rest>`, with no '/' and no further "/api/" in the
    rest, is written to the page file `pages/<rest>.py` right at the page root.
  */
  lemma EndpointKeySegments(rest: string)
    requires '/' !in rest && !Contains(rest, "/api/")
    ensures EndpointKey("/api/" + rest) == ["pages", rest + ".py"]
  {
    EndpointTargetApi(rest);
    assert '/' !in rest + ".py";
    assert "pages/" + rest + ".py" == "pages" + "/" + (rest + ".py");
    SplitAfterPiece("pages", rest + ".py", '/');
    SplitSinglePiece(rest + ".py", '/');
  }

  /**
    An identifier `/api/<dir>/<name>`, with no '/' in either part and no
    further "/api/" after the prefix, is written to `pages/<dir>/<name>.py`
    one directory below the page root.
  */
  lemma EndpointKeyNested(dir: string, name: string)
    requires '/' !in dir && '/' !in name && !Contains(dir + "/" + name, "/api/")
    ensures EndpointKey("/api/" + dir + "/" + name) == ["pages", dir, name + ".py"]
  {
    var rest := dir + "/" + name;
    EndpointTargetApi(rest);
    assert "/api/" + dir + "/" + name == "/api/" + rest;
    assert '/' !in name + ".py";
    assert "pages/" + rest + ".py" == "pages" + "/" + dir + "/" + (name + ".py");
    SplitThree("pages", dir, name + ".py", '/');
  }

  /**
    The component scan reads a written component back under its own category
    and name: its file is a `.yaml` file right inside the category directory,
    and removing ".yaml" from the file name gives the component name.
  */
  lemma ComponentKeyReadBack(category: string, name: string)
    requires '/' !in category && '/' !in name && !Contains(name, ".yaml")
    ensures var k := ComponentKey(category, name);
            && |k| == 3 && k[0] == "components" && k[1] == category
            && EndsWith(k[2], ".yaml") && ComponentName(k[2]) == name
  {
    ComponentKeySegments(category, name);
    ComponentNameOfTarget(name);
  }

  // ---------------------------------------------------------------------
  // construct: what a scan may return
  // ---------------------------------------------------------------------

  /** A `.py` file the page scan reads: at the page root or one directory below. */
  predicate PageFile(files: Files, k: Path) {
    k in files && (|k| == 2 || |k| == 3) && k[0] == "pages" && EndsWith(k[|k| - 1], ".py")
  }

  /** A directory named `*.py` one level below the page root: opening it fails. */
  predicate BadPage(files: Files, p: Path) {
    |p| == 3 && p[0] == "pages" && EndsWith(p[2], ".py") && IsDir(files, p)
  }

  /** Moving one name of a listing from the names to visit to the names visited. */
  lemma MoveName<T>(todo: set<T>, done: set<T>, all: set<T>, n: T)
    requires todo !! done && todo + done == all && n in todo
    ensures (todo - {n}) !! (done + {n}) && (todo - {n}) + (done + {n}) == all
  {
  }

  /** A `.yaml` file in a category directory below the component root. */
  predicate ComponentFileAt(files: Files, k: Path) {
    k in files && |k| == 3 && k[0] == "components" && EndsWith(k[2], ".yaml")
  }

  /** Every file the page scan reads. */
  ghost function PageFiles(files: Files): set<Path> {
    set k | k in files && PageFile(files, k)
  }

  /** Every file the component scan reads. */
  ghost function ComponentFiles(files: Files): set<Path> {
    set k | k in files && ComponentFileAt(files, k)
  }

  /** The page files read once the root entries in `dirs` are done. */
  ghost function PagesIn(files: Files, dirs: set<string>): set<Path> {
    set k | k in files && PageFile(files, k) && k[1] in dirs
  }

  /** The component files read once the category entries in `dirs` are done. */
  ghost function ComponentsIn(files: Files, dirs: set<string>): set<Path> {
    set k | k in files && ComponentFileAt(files, k) && k[1] in dirs
  }

  /** The files `root/d/<name>` with a name from `names` that ends in `ext`. */
  ghost function DirFiles(files: Files, root: string, d: string, ext: string, names: set<string>): set<Path> {
    set k | k in files && |k| == 3 && k[0] == root && k[1] == d && k[2] in names && EndsWith(k[2], ext)
  }

  /** One more name of the directory listing read. */
  lemma DirFilesAdd(files: Files, root: string, d: string, ext: string, scanned: set<Path>, names: set<string>, n: string)
    ensures scanned + DirFiles(files, root, d, ext, names + {n}) ==
      scanned + DirFiles(files, root, d, ext, names) + (if [root, d, n] in files && EndsWith(n, ext) then {[root, d, n]} else {})
  {
    forall k | |k| == 3 && k[0] == root && k[1] == d && k[2] == n ensures k == [root, d, n] {
      assert k == [k[0], k[1], k[2]];
    }
  }

  /**
    One more entry of the page root done: the `.py` files below it if it
    is a directory, the entry itself if it is a `.py` file.
  */
  lemma PagesInAdd(files: Files, dirs: set<string>, d: string)
    ensures IsDir(files, ["pages", d]) && ["pages", d] !in files ==>
      PagesIn(files, dirs + {d}) == PagesIn(files, dirs) + DirFiles(files, "pages", d, ".py", Entries(files, ["pages", d]))
    ensures !IsDir(files, ["pages", d]) && ["pages", d] in files && EndsWith(d, ".py") ==>
      PagesIn(files, dirs + {d}) == PagesIn(files, dirs) + {["pages", d]}
    ensures !IsDir(files, ["pages", d]) && !(["pages", d] in files && EndsWith(d, ".py")) ==>
      PagesIn(files, dirs + {d}) == PagesIn(files, dirs)
  {
    var below := DirFiles(files, "pages", d, ".py", Entries(files, ["pages", d]));
    forall k | k in PagesIn(files, dirs + {d}) && k[1] == d
      ensures (|k| == 2 && k == ["pages", d]) || (|k| == 3 && k in below && IsDir(files, ["pages", d]))
    {
      if |k| == 2 {
        assert k == [k[0], k[1]];
      } else {
        assert k[..2] == ["pages", d];
        InEntries(files, ["pages", d], k);
      }
    }
  }

  /** One more category entry done: the `.yaml` files below it, if it is a directory. */
  lemma ComponentsInAdd(files: Files, dirs: set<string>, d: string)
    ensures ComponentsIn(files, dirs + {d}) ==
      ComponentsIn(files, dirs) + DirFiles(files, "components", d, ".yaml", Entries(files, ["components", d]))
  {
    forall k | k in ComponentsIn(files, dirs + {d}) && k[1] == d
      ensures k in DirFiles(files, "components", d, ".yaml", Entries(files, ["components", d]))
    {
      assert k[..2] == ["components", d];
      InEntries(files, ["components", d], k);
    }
  }

  /** Below an entry that is not a directory there is nothing: no entries, no directories. */
  lemma NothingBelow(files: Files, root: string, d: string)
    requires !IsDir(files, [root, d])
    ensures Entries(files, [root, d]) == {}
    ensures forall p :: |p| >= 2 && p[0] == root && p[1] == d ==> !IsDir(files, p)
  {
  }

  /** A directory right below `root/d` is one of its entries. */
  lemma DirIsEntry(files: Files, root: string, d: string)
    ensures forall p :: |p| == 3 && p[0] == root && p[1] == d && IsDir(files, p) ==>
              p[2] in Entries(files, [root, d])
  {
    forall p | |p| == 3 && p[0] == root && p[1] == d && IsDir(files, p)
      ensures p[2] in Entries(files, [root, d])
    {
      var k :| k in files && |p| < |k| && k[..|p|] == p;
      assert k[..2] == [root, d];
      InEntries(files, [root, d], k);
    }
  }

  /**
    When every `ext` entry of `root/d` is a file, no directory named
    `*ext` stands right below `root/d`.
  */
  lemma NoDirBelow(files: Files, root: string, d: string, ext: string)
    requires NoFileIsDir(files)
    requires forall m :: m in Entries(files, [root, d]) && EndsWith(m, ext) ==> [root, d, m] in files
    ensures forall p :: |p| == 3 && p[0] == root && p[1] == d && EndsWith(p[2], ext) ==> !IsDir(files, p)
  {
    DirIsEntry(files, root, d);
    forall p | |p| == 3 && p[0] == root && p[1] == d && EndsWith(p[2], ext) ensures !IsDir(files, p) {
      assert p == [root, d, p[2]];
    }
  }

  lemma PagesInAll(files: Files)
    ensures PagesIn(files, Entries(files, ["pages"])) == PageFiles(files)
  {
    forall k | k in files && PageFile(files, k) ensures k[1] in Entries(files, ["pages"]) {
      InEntries(files, ["pages"], k);
    }
  }

  lemma ComponentsInAll(files: Files)
    ensures ComponentsIn(files, Entries(files, ["components"])) == ComponentFiles(files)
  {
    forall k | k in files && ComponentFileAt(files, k) ensures k[1] in Entries(files, ["components"]) {
      InEntries(files, ["components"], k);
    }
  }

  /** A directory named `*.yaml` in a category directory: opening it fails. */
  predicate BadComponent(files: Files, p: Path) {
    |p| == 3 && p[0] == "components" && EndsWith(p[2], ".yaml") && IsDir(files, p)
  }

  /** `yml['paths'][apath] = defs` for the block of one file, if it has one. */
  function AddPath(paths: map<string, string>, e: Option<Endpoint>): (r: map<string, string>)
    ensures e.None? ==> r == paths
    ensures e.Some? ==> e.value.uri in r && r[e.value.uri] == e.value.yaml
    ensures e.Some? ==> forall u :: u in paths && u != e.value.uri ==> u in r && r[u] == paths[u]
    ensures r.Keys <= paths.Keys + (if e.Some? then {e.value.uri} else {})
  {
    match e
    case None => paths
    case Some(ep) => paths[ep.uri := ep.yaml]
  }

  /** Every entry of `paths` comes from the block of a scanned file with that identifier. */
  ghost predicate PathsSourced(files: Files, scanned: set<Path>, paths: map<string, string>)
  {
    forall u :: u in paths ==>
      exists k :: k in scanned && k in files && Extract(ReadText(files[k])) == Some(Endpoint(u, paths[u]))
  }

  /** Every scanned file with a block has its identifier entered. */
  ghost predicate PathsCovered(files: Files, scanned: set<Path>, paths: map<string, string>)
  {
    forall k :: k in scanned && k in files && Extract(ReadText(files[k])).Some? ==> Extract(ReadText(files[k])).value.uri in paths
  }

  /**
    `paths` is what the scan of the files in `scanned` can leave: every
    entry comes from the block of some scanned file with that identifier
    (which one is up to the listing order), and every scanned file with a
    block has its identifier entered.
  */
  ghost predicate PathsFrom(files: Files, scanned: set<Path>, paths: map<string, string>)
  {
    && (forall k :: k in scanned ==> k in files)
    && PathsSourced(files, scanned, paths)
    && PathsCovered(files, scanned, paths)
  }

  lemma PathsSourcedAdd(files: Files, scanned: set<Path>, paths: map<string, string>, f: Path)
    requires PathsSourced(files, scanned, paths) && f in files
    ensures PathsSourced(files, scanned + {f}, AddPath(paths, Extract(ReadText(files[f]))))
  {
    var e := Extract(ReadText(files[f]));
    var r := AddPath(paths, e);
    var s := scanned + {f};
    forall u | u in r
      ensures exists k :: k in s && k in files && Extract(ReadText(files[k])) == Some(Endpoint(u, r[u]))
    {
      if e.Some? && u == e.value.uri {
        assert f in s && Extract(ReadText(files[f])) == Some(Endpoint(u, r[u]));
      } else {
        var k :| k in scanned && k in files && Extract(ReadText(files[k])) == Some(Endpoint(u, paths[u]));
        assert k in s && r[u] == paths[u];
      }
    }
  }

  lemma PathsCoveredAdd(files: Files, scanned: set<Path>, paths: map<string, string>, f: Path)
    requires PathsCovered(files, scanned, paths) && f in files
    ensures PathsCovered(files, scanned + {f}, AddPath(paths, Extract(ReadText(files[f]))))
  {
  }

  /** Reading one more file keeps the scan's promise. */
  lemma PathsFromAdd(files: Files, scanned: set<Path>, paths: map<string, string>, f: Path)
    requires PathsFrom(files, scanned, paths) && f in files
    ensures PathsFrom(files, scanned + {f}, AddPath(paths, Extract(ReadText(files[f]))))
  {
    PathsSourcedAdd(files, scanned, paths, f);
    PathsCoveredAdd(files, scanned, paths, f);
  }

  /** When a single scanned file carries an identifier, its block is the entry. */
  lemma PathsFromUnique(files: Files, scanned: set<Path>, paths: map<string, string>, f: Path)
    requires PathsFrom(files, scanned, paths)
    requires f in scanned && Extract(ReadText(files[f])).Some?
    requires forall k :: k in scanned && k != f && Extract(ReadText(files[k])).Some? ==>
               Extract(ReadText(files[k])).value.uri != Extract(ReadText(files[f])).value.uri
    ensures var ep := Extract(ReadText(files[f])).value; ep.uri in paths && paths[ep.uri] == ep.yaml
  {
  }

  /** `yml['components'][d][name] = defs`, creating the category entry first. */
  function AddComponent(comps: map<string, map<string, string>>, category: string, name: string, text: string)
    : (r: map<string, map<string, string>>)
    ensures r.Keys == comps.Keys + {category}
    ensures name in r[category] && r[category][name] == text
    ensures forall c :: c in comps && c != category ==> r[c] == comps[c]
    ensures category in comps ==> forall n :: n in comps[category] && n != name ==>
              n in r[category] && r[category][n] == comps[category][n]
    ensures category in comps ==> r[category].Keys == comps[category].Keys + {name}
    ensures category !in comps ==> r[category].Keys == {name}
  {
    var inner := if category in comps then comps[category] else map[];
    comps[category := inner[name := text]]
  }

  /**
    `comps` is what the scan of the component files in `scanned` can leave:
    a category appears exactly when one of its `.yaml` files was read, every
    component comes from a read file whose name minus ".yaml" is its name,
    and every read file has its component entered.
  */
  ghost predicate ComponentsFrom(files: Files, scanned: set<Path>, comps: map<string, map<string, string>>)
  {
    && (forall k :: k in scanned ==> k in files && |k| == 3)
    && (forall c :: c in comps <==> exists k :: k in scanned && k[1] == c)
    && (forall c, n :: c in comps && n in comps[c] ==>
          exists k :: k in scanned && k[1] == c && ComponentName(k[2]) == n && comps[c][n] == ReadText(files[k]))
    && (forall k :: k in scanned ==> k[1] in comps && ComponentName(k[2]) in comps[k[1]])
  }

  lemma ComponentsFromAdd(files: Files, scanned: set<Path>, comps: map<string, map<string, string>>, f: Path)
    requires ComponentsFrom(files, scanned, comps) && f in files && |f| == 3
    ensures ComponentsFrom(files, scanned + {f}, AddComponent(comps, f[1], ComponentName(f[2]), ReadText(files[f])))
  {
    var r := AddComponent(comps, f[1], ComponentName(f[2]), ReadText(files[f]));
    var s := scanned + {f};
    forall c | c in r ensures exists k :: k in s && k[1] == c {
      if c != f[1] {
        assert c in comps;
      }
    }
    forall c, n | c in r && n in r[c]
      ensures exists k :: k in s && k[1] == c && ComponentName(k[2]) == n && r[c][n] == ReadText(files[k])
    {
      if c == f[1] && n == ComponentName(f[2]) {
        assert f in s;
      } else {
        assert c in comps && n in comps[c] && r[c][n] == comps[c][n];
      }
    }
    forall k | k in s ensures k[1] in r && ComponentName(k[2]) in r[k[1]] {
      if k != f {
        assert k in scanned;
      }
    }
  }

  /** The combined document: `yml['paths']` and `yml['components']`, YAML left as text. */
  datatype Document = Document(paths: map<string, string>, components: map<string, map<string, string>>)

  // ---------------------------------------------------------------------
  // The file tree and the two drivers
  // ---------------------------------------------------------------------

  class FileTree {
    var files: Files

    /** No path is both a file and a directory. */
    predicate Valid()
      reads this
    {
      NoFileIsDir(files)
    }

    constructor(initial: Files)
      ensures files == initial
    {
      files := initial;
    }

    /** One iteration of the endpoint loop (combine.py:45-64). */
    method SplitEndpoint(p: PathDef)
      modifies this
      ensures files == SplitOne(old(files), p)
    {
      var target := EndpointKey(p.uri);
      if target in files {
        var contents := Strip(ReadText(files[target]));
        files := files[target := EndpointFile(p.uri, p.dumped, contents)];
      }
    }

    /**
      One iteration of the component loop (combine.py:69-80): the file is
      written, creating its directory if need be, unless a file stands on
      the way to it or a directory stands in its place, which raises.
    */
    method WriteComponent(category: string, c: Component) returns (ok: bool)
      modifies this
      ensures ok == Writable(old(files), ComponentKey(category, c.name))
      ensures files == if ok then old(files)[ComponentKey(category, c.name) := ComponentFile(TitleOf(c), c.dumped)]
                       else old(files)
    {
      var target := ComponentKey(category, c.name);
      ok := Writable(files, target);
      if ok {
        files := files[target := ComponentFile(TitleOf(c), c.dumped)];
      }
    }

    /**
      The component loop over one category (combine.py:68-80): the writes of
      the category in order, counting one per component, until one raises.
    */
    method WriteCategory(cat: Category) returns (r: Result<nat, Path>)
      modifies this
      ensures r.Success? <==> TryWriteAll(old(files), CategoryWrites(cat)).Success?
      ensures r.Success? ==> files == TryWriteAll(old(files), CategoryWrites(cat)).value && r.value == |cat.entries|
      ensures r.Failure? ==> (files, r.error) == TryWriteAll(old(files), CategoryWrites(cat)).error
    {
      ghost var ws := CategoryWrites(cat);
      var count := 0;
      for j := 0 to |cat.entries|
        invariant TryWriteAll(old(files), ws[..j]) == Success(files)
        invariant count == j
      {
        count := count + 1;
        TryWriteAllStep(old(files), ws, j, files);
        var ok := WriteComponent(cat.name, cat.entries[j]);
        if !ok {
          TryWriteAllPrefixFails(old(files), ws, j + 1);
          return Failure(ComponentKey(cat.name, cat.entries[j].name));
        }
      }
      assert ws[..|cat.entries|] == ws;
      r := Success(count);
    }

    /**
      The component loops (combine.py:66-80): every category's writes in
      order, counting one per component, until a write raises.
    */
    method WriteCategories(cats: seq<Category>) returns (r: Result<nat, Path>)
      modifies this
      ensures r.Success? <==> TryWriteAll(old(files), AllWrites(cats)).Success?
      ensures r.Success? ==> files == TryWriteAll(old(files), AllWrites(cats)).value && r.value == EntryCount(cats)
      ensures r.Failure? ==> (files, r.error) == TryWriteAll(old(files), AllWrites(cats)).error
    {
      var count := 0;
      for i := 0 to |cats|
        invariant TryWriteAll(old(files), AllWrites(cats[..i])) == Success(files)
        invariant count == EntryCount(cats[..i])
      {
        CategoryStep(old(files), cats, i, files);
        var written := WriteCategory(cats[i]);
        if written.Failure? {
          CategoryStops(old(files), cats, i);
          return Failure(written.error);
        }
        count := count + written.value;
      }
      assert cats[..|cats|] == cats;
      r := Success(count);
    }

    /**
      `deconstruct` (combine.py:40-81): the endpoint loop, then the component
      loops until a write raises; the count covers every endpoint, written
      or not, and every component.
    */
    method Deconstruct(paths: seq<PathDef>, cats: seq<Category>) returns (r: Result<nat, Path>)
      requires Valid()
      modifies this
      ensures r.Success? <==> TryWriteAll(SplitAll(old(files), paths), AllWrites(cats)).Success?
      ensures r.Success? ==>
        && files == WriteAll(SplitAll(old(files), paths), AllWrites(cats))
        && r.value == |paths| + EntryCount(cats)
      ensures r.Failure? ==> (files, r.error) == TryWriteAll(SplitAll(old(files), paths), AllWrites(cats)).error
      ensures Valid()
    {
      var noDefs := 0;
      for i := 0 to |paths|
        invariant files == SplitAll(old(files), paths[..i])
        invariant noDefs == i
      {
        noDefs := noDefs + 1;
        SplitEndpoint(paths[i]);
        assert paths[..i + 1][..i] == paths[..i];
      }
      assert paths[..|paths|] == paths;
      SplitAllKeys(old(files), paths);
      SameKeysApart(old(files), files);
      TryWriteAllApart(files, AllWrites(cats));
      var written := WriteCategories(cats);
      if written.Failure? {
        return Failure(written.error);
      }
      r := Success(noDefs + written.value);
    }

    /**
      The scan of one directory right below the page root
      (combine.py:91-105): every `.py` entry is read and searched; a
      directory named `*.py` makes it fail.
    */
    method ScanPageDir(d: string, paths: map<string, string>, ghost scanned: set<Path>)
      returns (r: Result<map<string, string>, Path>)
      requires Valid() && IsDir(files, ["pages", d])
      requires PathsFrom(files, scanned, paths)
      ensures r.Failure? ==> BadPage(files, r.error)
      ensures r.Success? ==>
        PathsFrom(files, scanned + DirFiles(files, "pages", d, ".py", Entries(files, ["pages", d])), r.value)
      ensures r.Success? ==> forall p :: BadPage(files, p) ==> p[1] != d
    {
      var cdir := ["pages", d];
      var acc := paths;
      var names := Entries(files, cdir);
      ghost var doneNames: set<string> := {};
      while names != {}
        invariant names !! doneNames && names + doneNames == Entries(files, cdir)
        invariant PathsFrom(files, scanned + DirFiles(files, "pages", d, ".py", doneNames), acc)
        invariant forall m :: m in doneNames && EndsWith(m, ".py") ==> ["pages", d, m] in files
        decreases names
      {
        var n :| n in names;
        var f := ["pages", d, n];
        assert cdir + [n] == f;
        ghost var before := scanned + DirFiles(files, "pages", d, ".py", doneNames);
        DirFilesAdd(files, "pages", d, ".py", scanned, doneNames, n);
        if EndsWith(n, ".py") {
          EntryKind(files, cdir, n);
          if IsDir(files, f) {
            return Failure(f);
          }
          PathsFromAdd(files, before, acc, f);
          acc := AddPath(acc, Extract(ReadText(files[f])));
        }
        MoveName(names, doneNames, Entries(files, cdir), n);
        names := names - {n};
        doneNames := doneNames + {n};
      }
      NoDirBelow(files, "pages", d, ".py");
      return Success(acc);
    }

    /**
      The page scan of `construct` (combine.py:87-119): every `.py` file at
      the page root or one directory below is searched for its block; it
      fails on a directory named `*.py` one level below the root.
    */
    method ScanPages() returns (r: Result<map<string, string>, Path>)
      requires Valid()
      ensures r.Failure? ==> BadPage(files, r.error)
      ensures r.Success? ==> forall p :: !BadPage(files, p)
      ensures r.Success? ==> PathsFrom(files, PageFiles(files), r.value)
    {
      var paths: map<string, string> := map[];
      var roots := Entries(files, ["pages"]);
      ghost var done: set<string> := {};
      while roots != {}
        invariant roots !! done && roots + done == Entries(files, ["pages"])
        invariant PathsFrom(files, PagesIn(files, done), paths)
        invariant forall p :: BadPage(files, p) ==> p[1] !in done
        decreases roots
      {
        var d :| d in roots;
        var cdir := ["pages", d];
        PagesInAdd(files, done, d);
        if IsDir(files, cdir) {
          assert cdir !in files;
          var sub := ScanPageDir(d, paths, PagesIn(files, done));
          if sub.Failure? {
            return Failure(sub.error);
          }
          paths := sub.value;
        } else {
          NothingBelow(files, "pages", d);
          if EndsWith(d, ".py") {
            EntryKind(files, ["pages"], d);
            assert ["pages"] + [d] == cdir;
            PathsFromAdd(files, PagesIn(files, done), paths, cdir);
            paths := AddPath(paths, Extract(ReadText(files[cdir])));
          }
        }
        MoveName(roots, done, Entries(files, ["pages"]), d);
        roots := roots - {d};
        done := done + {d};
      }
      PagesInAll(files);
      return Success(paths);
    }

    /**
      The scan of one category directory (combine.py:124-132): every
      `.yaml` entry is read and entered; a directory named `*.yaml` makes
      it fail.
    */
    method ScanComponentDir(d: string, comps: map<string, map<string, string>>, ghost scanned: set<Path>)
      returns (r: Result<map<string, map<string, string>>, Path>)
      requires Valid() && IsDir(files, ["components", d])
      requires ComponentsFrom(files, scanned, comps)
      ensures r.Failure? ==> BadComponent(files, r.error)
      ensures r.Success? ==> ComponentsFrom(files,
        scanned + DirFiles(files, "components", d, ".yaml", Entries(files, ["components", d])), r.value)
      ensures r.Success? ==> forall p :: BadComponent(files, p) ==> p[1] != d
    {
      var cdir := ["components", d];
      var acc := comps;
      var names := Entries(files, cdir);
      ghost var doneNames: set<string> := {};
      while names != {}
        invariant names !! doneNames && names + doneNames == Entries(files, cdir)
        invariant ComponentsFrom(files, scanned + DirFiles(files, "components", d, ".yaml", doneNames), acc)
        invariant forall m :: m in doneNames && EndsWith(m, ".yaml") ==> ["components", d, m] in files
        decreases names
      {
        var n :| n in names;
        var f := ["components", d, n];
        assert cdir + [n] == f;
        ghost var before := scanned + DirFiles(files, "components", d, ".yaml", doneNames);
        DirFilesAdd(files, "components", d, ".yaml", scanned, doneNames, n);
        if EndsWith(n, ".yaml") {
          EntryKind(files, cdir, n);
          if IsDir(files, f) {
            return Failure(f);
          }
          ComponentsFromAdd(files, before, acc, f);
          acc := AddComponent(acc, d, ComponentName(n), ReadText(files[f]));
        }
        MoveName(names, doneNames, Entries(files, cdir), n);
        names := names - {n};
        doneNames := doneNames + {n};
      }
      NoDirBelow(files, "components", d, ".yaml");
      return Success(acc);
    }

    /**
      The component scan of `construct` (combine.py:120-132): every `.yaml`
      file in a directory right below the component root is entered under
      its directory's name and its own name minus ".yaml"; files right at
      the root are skipped.
    */
    method ScanComponents() returns (r: Result<map<string, map<string, string>>, Path>)
      requires Valid()
      ensures r.Failure? ==> BadComponent(files, r.error)
      ensures r.Success? ==> forall p :: !BadComponent(files, p)
      ensures r.Success? ==> ComponentsFrom(files, ComponentFiles(files), r.value)
    {
      var comps: map<string, map<string, string>> := map[];
      var roots := Entries(files, ["components"]);
      ghost var done: set<string> := {};
      while roots != {}
        invariant roots !! done && roots + done == Entries(files, ["components"])
        invariant ComponentsFrom(files, ComponentsIn(files, done), comps)
        invariant forall p :: BadComponent(files, p) ==> p[1] !in done
        decreases roots
      {
        var d :| d in roots;
        var cdir := ["components", d];
        ComponentsInAdd(files, done, d);
        if IsDir(files, cdir) {
          var sub := ScanComponentDir(d, comps, ComponentsIn(files, done));
          if sub.Failure? {
            return Failure(sub.error);
          }
          comps := sub.value;
        } else {
          NothingBelow(files, "components", d);
        }
        MoveName(roots, done, Entries(files, ["components"]), d);
        roots := roots - {d};
        done := done + {d};
      }
      ComponentsInAll(files);
      return Success(comps);
    }

    /**
      `construct` (combine.py:83-132): the page scan, then the component
      scan; the document is what they gathered, and the first directory
      that stands where a file is read makes it fail.
    */
    method Construct() returns (r: Result<Document, Path>)
      requires Valid()
      ensures r.Failure? ==> BadPage(files, r.error) || BadComponent(files, r.error)
      ensures r.Success? <==> (forall p :: !BadPage(files, p)) && (forall p :: !BadComponent(files, p))
      ensures r.Success? ==> PathsFrom(files, PageFiles(files), r.value.paths)
      ensures r.Success? ==> ComponentsFrom(files, ComponentFiles(files), r.value.components)
    {
      var pages := ScanPages();
      if pages.Failure? {
        return Failure(pages.error);
      }
      var comps := ScanComponents();
      if comps.Failure? {
        return Failure(comps.error);
      }
      return Success(Document(pages.value, comps.value));
    }
  }
}
