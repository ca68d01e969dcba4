/**
  The source-list endpoint of the Kibble API (`api/pages/sources.py`): list
  the sources of the user's default organisation (GET/POST), add or update
  sources (PUT) and delete one source with everything recorded about it
  (DELETE), behind a login check and a per-organisation permission rule.

  The document store is a `RecordStore`: a map from (document type, id) to
  a JSON document that PUT and DELETE change in place. The source search
  (a query on the organisation, whose hit order the store decides) and the
  id hash are parameters of the model.
*/
module Sources {
  import opened Common
  import opened Json

  /** The session user, as far as the handler reads it; `""` stands for an unset default organisation. */
  datatype User = User(userlevel: string, defaultOrganisation: string, email: string)

  /** A document's address in the store. */
  datatype Key = Key(docType: string, id: string)

  type Docs = map<Key, Json>

  /**
    What a request produces: a JSON reply, nothing at all (a method the
    handler has no branch for), an HTTP error raised on purpose, or a
    Python exception that escapes the handler.
  */
  datatype Outcome =
    | Reply(body: Json)
    | NoReply
    | HttpError(code: nat, message: string)
    | Raised(error: string)

  const DefaultOrganisation := "apache"
  const ValueError := "ValueError"
  const LoginRequired := "You must be logged in to use this API endpoint! %s"
  const NoAddPermission := "You don't have prmission to sources to this organisation."
  const NoDeletePermission := "You don't have prmission to delete this source."
  const NoSuchSource := "No such source item"

  function NoSuchOrganisation(org: string): string {
    "No such organisation, '" + org + "'"
  }

  /** `session.user['defaultOrganisation'] or "apache"`. */
  function OrgOf(u: User): (org: string)
    ensures org != []
    ensures u.defaultOrganisation != [] ==> org == u.defaultOrganisation
    ensures u.defaultOrganisation == [] ==> org == DefaultOrganisation
  {
    if u.defaultOrganisation != [] then u.defaultOrganisation else DefaultOrganisation
  }

  // ---------------------------------------------------------------------
  // The record store
  // ---------------------------------------------------------------------

  /** The document carries `sourceID` equal to `id`, which is what a delete-by-query on it matches. */
  predicate CarriesSource(doc: Json, id: string) {
    Field(doc, "sourceID") == Success(Str(id))
  }

  /** The store after deleting every document, of any type, that carries the source id. */
  function WithoutSource(docs: Docs, id: string): (r: Docs)
    ensures forall k :: k in r <==> k in docs && !CarriesSource(docs[k], id)
    ensures forall k :: k in r ==> r[k] == docs[k]
  {
    map k | k in docs && !CarriesSource(docs[k], id) :: docs[k]
  }

  class RecordStore {
    var docs: Docs

    constructor(initial: Docs)
      ensures docs == initial
    {
      docs := initial;
    }

    predicate Exists(docType: string, id: string)
      reads this
    {
      Key(docType, id) in docs
    }

    /** Index a document: create it, or replace the one with that address. */
    method Index(docType: string, id: string, doc: Json)
      modifies this
      ensures docs == old(docs)[Key(docType, id) := doc]
    {
      docs := docs[Key(docType, id) := doc];
    }

    /** Delete by query: every document whose `sourceID` is `id` goes, whatever its type. */
    method DeleteBySource(id: string)
      modifies this
      ensures docs == WithoutSource(old(docs), id)
    {
      docs := WithoutSource(docs, id);
    }
  }

  // ---------------------------------------------------------------------
  // Permission
  // ---------------------------------------------------------------------

  /**
    `canModifySource`: admins may always; anyone else only when the `org`
    document of their default organisation exists and lists their email
    among its `admins`. The function returns `None` (false) otherwise.
  */
  function CanModifySource(user: User, docs: Docs): (r: Result<bool, string>)
    ensures user.userlevel == "admin" ==> r == Success(true)
    ensures user.userlevel != "admin" && Key("org", OrgOf(user)) !in docs ==> r == Success(false)
    ensures r.Failure? ==> user.userlevel != "admin" && Key("org", OrgOf(user)) in docs
  {
    if user.userlevel == "admin" then Success(true)
    else
      var key := Key("org", OrgOf(user));
      if key !in docs then Success(false)
      else
        match Field(docs[key], "admins")
        case Failure(e) => Failure(e)
        case Success(admins) => In(Str(user.email), admins)
  }

  /** With an `admins` list in place, permission is exactly "admin, or listed". */
  lemma CanModifyWithAdminList(user: User, docs: Docs, admins: seq<Json>)
    requires Key("org", OrgOf(user)) in docs
    requires Field(docs[Key("org", OrgOf(user))], "admins") == Success(Arr(admins))
    ensures CanModifySource(user, docs) == Success(user.userlevel == "admin" || Str(user.email) in admins)
  {
  }

  // ---------------------------------------------------------------------
  // Listing (GET and POST)
  // ---------------------------------------------------------------------

  /** `del org['admins']` on the organisation document. */
  function WithoutAdmins(org: Json): (r: Result<Json, string>)
    ensures r.Success? <==> org.Obj? && "admins" in org.fields
    ensures r.Success? ==> r.value.Obj? && r.value.fields.Keys == org.fields.Keys - {"admins"}
    ensures r.Success? ==> forall k :: k in r.value.fields ==> r.value.fields[k] == org.fields[k]
    ensures r.Failure? ==> r.error == (if org.Obj? then KeyError else TypeError)
  {
    match org
    case Obj(fields) =>
      if "admins" in fields then Success(Obj(map k | k in fields && k != "admins" :: fields[k]))
      else Failure(KeyError)
    case _ => Failure(TypeError)
  }

  /**
    The view filter list: the `sourceList` of the view named by the
    request's `view`, or an empty list (no filter) when no view is asked
    for or no such view exists.
  */
  function ViewList(docs: Docs, indata: map<string, Json>): (r: Result<Json, string>)
    ensures !Truthy(Get(indata, "view", Null)) ==> r == Success(Arr([]))
    ensures Get(indata, "view", Null).Str? && Key("view", Get(indata, "view", Null).s) !in docs ==>
      r == Success(Arr([]))
    ensures r.Success? && Truthy(r.value) ==>
      var v := Get(indata, "view", Null);
      v.Str? && Key("view", v.s) in docs && Field(docs[Key("view", v.s)], "sourceList") == r
  {
    var view := Get(indata, "view", Null);
    if !Truthy(view) || !view.Str? || Key("view", view.s) !in docs then Success(Arr([]))
    else Field(docs[Key("view", view.s)], "sourceList")
  }

  /** `doc[key] in list`, raising as Python does. */
  function FieldIn(doc: Json, key: string, list: Json): (r: Result<bool, string>) {
    match Field(doc, key)
    case Failure(e) => Failure(e)
    case Success(v) => In(v, list)
  }

  /**
    Whether a hit passes both filters. A falsy view list or type list is no
    filter; the type test is reached only when the view test passes.
  */
  function KeepHit(doc: Json, viewList: Json, types: Json): (r: Result<bool, string>)
    ensures !Truthy(viewList) && !Truthy(types) ==> r == Success(true)
    ensures r == Success(true) ==>
      (Truthy(viewList) ==> FieldIn(doc, "sourceID", viewList) == Success(true)) &&
      (Truthy(types) ==> FieldIn(doc, "type", types) == Success(true))
  {
    var inView := if Truthy(viewList) then FieldIn(doc, "sourceID", viewList) else Success(true);
    if inView.Failure? then inView
    else if !inView.value then Success(false)
    else if Truthy(types) then FieldIn(doc, "type", types)
    else Success(true)
  }

  /** For a hit with both fields and filter lists given as lists, the filters are plain membership tests. */
  lemma KeepHitLists(doc: Json, views: seq<Json>, types: seq<Json>)
    requires doc.Obj? && "sourceID" in doc.fields && "type" in doc.fields
    ensures KeepHit(doc, Arr(views), Arr(types)) ==
      Success((views == [] || doc.fields["sourceID"] in views) && (types == [] || doc.fields["type"] in types))
  {
  }

  const QuickKeys: set<string> := {"sourceID", "type", "sourceURL"}

  /** The listed entry for a kept hit: in quick mode only three fields, copied; else the whole document. */
  function Project(doc: Json, quick: bool): (r: Result<Json, string>)
    ensures !quick ==> r == Success(doc)
    ensures quick ==> (r.Success? <==> doc.Obj? && QuickKeys <= doc.fields.Keys)
    ensures quick && r.Success? ==>
      r.value.Obj? && r.value.fields.Keys == QuickKeys &&
      forall k :: k in QuickKeys ==> r.value.fields[k] == doc.fields[k]
  {
    if !quick then Success(doc)
    else if doc.Obj? && QuickKeys <= doc.fields.Keys then
      Success(Obj(map["sourceID" := doc.fields["sourceID"], "type" := doc.fields["type"],
                      "sourceURL" := doc.fields["sourceURL"]]))
    else if doc.Obj? then Failure(KeyError)
    else Failure(TypeError)
  }

  /** What one hit contributes: an exception, nothing (filtered out), or its entry. */
  function HitEntry(doc: Json, viewList: Json, types: Json, quick: bool): (r: Result<Option<Json>, string>) {
    match KeepHit(doc, viewList, types)
    case Failure(e) => Failure(e)
    case Success(keep) =>
      if !keep then Success(None)
      else
        match Project(doc, quick)
        case Failure(e) => Failure(e)
        case Success(entry) => Success(Some(entry))
  }

  /** One iteration of the listing loop, after the hits before it. */
  function ListStep(acc: Result<seq<Json>, string>, doc: Json, viewList: Json, types: Json, quick: bool)
    : Result<seq<Json>, string>
  {
    match acc
    case Failure(e) => Failure(e)
    case Success(prev) =>
      match HitEntry(doc, viewList, types, quick)
      case Failure(e) => Failure(e)
      case Success(None) => Success(prev)
      case Success(Some(entry)) => Success(prev + [entry])
  }

  /** The listing built from the hits in search order, or the first exception. */
  function Listing(hits: seq<Json>, viewList: Json, types: Json, quick: bool): (r: Result<seq<Json>, string>)
    ensures r.Success? ==> |r.value| <= |hits|
  {
    if hits == [] then Success([])
    else
      var n := |hits| - 1;
      ListStep(Listing(hits[..n], viewList, types, quick), hits[n], viewList, types, quick)
  }

  /** The indices of the hits that pass the filters, in search order. */
  function Kept(hits: seq<Json>, viewList: Json, types: Json): (k: seq<nat>)
    ensures forall j :: 0 <= j < |k| ==> k[j] < |hits|
    ensures forall j1, j2 :: 0 <= j1 < j2 < |k| ==> k[j1] < k[j2]
    ensures forall i :: 0 <= i < |hits| ==> (i in k <==> KeepHit(hits[i], viewList, types) == Success(true))
  {
    if hits == [] then []
    else
      var n := |hits| - 1;
      var prev := Kept(hits[..n], viewList, types);
      assert forall i :: 0 <= i < n ==> hits[..n][i] == hits[i];
      prev + (if KeepHit(hits[n], viewList, types) == Success(true) then [n] else [])
  }

  /** A successful listing met no exception in any filter test. */
  lemma {:induction false} ListingFiltersSucceed(hits: seq<Json>, viewList: Json, types: Json, quick: bool)
    requires Listing(hits, viewList, types, quick).Success?
    ensures forall i :: 0 <= i < |hits| ==> KeepHit(hits[i], viewList, types).Success?
  {
    if hits != [] {
      var n := |hits| - 1;
      ListingFiltersSucceed(hits[..n], viewList, types, quick);
      assert forall i :: 0 <= i < n ==> hits[..n][i] == hits[i];
    }
  }

  /** A successful listing projects exactly the kept hits, in search order. */
  predicate ProjectsKept(hits: seq<Json>, k: seq<nat>, out: seq<Json>, quick: bool) {
    |out| == |k| && forall j :: 0 <= j < |k| ==> k[j] < |hits| && Project(hits[k[j]], quick) == Success(out[j])
  }

  /** A kept last hit appends its index and its entry. */
  lemma ProjectsKeptAppend(hits: seq<Json>, k: seq<nat>, out: seq<Json>, entry: Json, quick: bool)
    requires hits != [] && ProjectsKept(hits[..|hits| - 1], k, out, quick)
    requires Project(hits[|hits| - 1], quick) == Success(entry)
    ensures ProjectsKept(hits, k + [|hits| - 1], out + [entry], quick)
  {
    var front := hits[..|hits| - 1];
    forall j | 0 <= j < |k| ensures hits[k[j]] == front[k[j]] {
    }
  }

  /** A filtered-out last hit changes neither the indices nor the entries. */
  lemma ProjectsKeptSkip(hits: seq<Json>, k: seq<nat>, out: seq<Json>, quick: bool)
    requires hits != [] && ProjectsKept(hits[..|hits| - 1], k, out, quick)
    ensures ProjectsKept(hits, k, out, quick)
  {
    var front := hits[..|hits| - 1];
    forall j | 0 <= j < |k| ensures hits[k[j]] == front[k[j]] {
    }
  }

  /**
    A successful listing is the projection of exactly the kept hits, in
    search order: an order-preserving subsequence of the hits.
  */
  lemma {:induction false} ListingKept(hits: seq<Json>, viewList: Json, types: Json, quick: bool)
    requires Listing(hits, viewList, types, quick).Success?
    ensures ProjectsKept(hits, Kept(hits, viewList, types), Listing(hits, viewList, types, quick).value, quick)
  {
    if hits != [] {
      var n := |hits| - 1;
      var front := hits[..n];
      var acc := Listing(front, viewList, types, quick);
      assert Listing(hits, viewList, types, quick) == ListStep(acc, hits[n], viewList, types, quick);
      ListingKept(front, viewList, types, quick);
      var prevK := Kept(front, viewList, types);
      if KeepHit(hits[n], viewList, types) == Success(true) {
        var entry := Project(hits[n], quick).value;
        assert Kept(hits, viewList, types) == prevK + [n];
        assert Listing(hits, viewList, types, quick).value == acc.value + [entry];
        ProjectsKeptAppend(hits, prevK, acc.value, entry, quick);
      } else {
        assert Kept(hits, viewList, types) == prevK;
        assert Listing(hits, viewList, types, quick).value == acc.value;
        ProjectsKeptSkip(hits, prevK, acc.value, quick);
      }
    }
  }

  /** Neither a view nor a type filter: every hit is listed, unchanged, outside quick mode. */
  lemma {:induction false} ListingUnfiltered(hits: seq<Json>, viewList: Json, types: Json)
    requires !Truthy(viewList) && !Truthy(types)
    ensures Listing(hits, viewList, types, false) == Success(hits)
  {
    if hits != [] {
      var n := |hits| - 1;
      ListingUnfiltered(hits[..n], viewList, types);
      assert hits[..n] + [hits[n]] == hits;
    }
  }

  /** Once an exception is raised on a prefix of the hits, it is the outcome of the whole listing. */
  lemma {:induction false} ListingFailureSticks(hits: seq<Json>, n: nat, viewList: Json, types: Json, quick: bool)
    requires n <= |hits|
    requires Listing(hits[..n], viewList, types, quick).Failure?
    ensures Listing(hits, viewList, types, quick) == Listing(hits[..n], viewList, types, quick)
    decreases |hits|
  {
    if n < |hits| {
      var m := |hits| - 1;
      assert hits[..m][..n] == hits[..n];
      ListingFailureSticks(hits[..m], n, viewList, types, quick);
    } else {
      assert hits[..n] == hits;
    }
  }

  /** The body of the listing loop for one hit (sources.py:81-94). */
  method VisitHit(doc: Json, viewList: Json, types: Json, quick: bool) returns (r: Result<Option<Json>, string>)
    ensures r == HitEntry(doc, viewList, types, quick)
  {
    if Truthy(viewList) {
      var inView := FieldIn(doc, "sourceID", viewList);
      if inView.Failure? {
        return Failure(inView.error);
      }
      if !inView.value {
        return Success(None);
      }
    }
    if Truthy(types) {
      var inTypes := FieldIn(doc, "type", types);
      if inTypes.Failure? {
        return Failure(inTypes.error);
      }
      if !inTypes.value {
        return Success(None);
      }
    }
    var entry := Project(doc, quick);
    if entry.Failure? {
      return Failure(entry.error);
    }
    return Success(Some(entry.value));
  }

  /** The listing loop of `run` (sources.py:79-94). */
  method FilterHits(hits: seq<Json>, viewList: Json, types: Json, quick: bool)
    returns (r: Result<seq<Json>, string>)
    ensures r == Listing(hits, viewList, types, quick)
  {
    var sources: seq<Json> := [];
    for i := 0 to |hits|
      invariant Listing(hits[..i], viewList, types, quick) == Success(sources)
    {
      assert hits[..i + 1][..i] == hits[..i];
      assert Listing(hits[..i + 1], viewList, types, quick) ==
        ListStep(Success(sources), hits[i], viewList, types, quick);
      var entry := VisitHit(hits[i], viewList, types, quick);
      if entry.Failure? {
        ListingFailureSticks(hits, i + 1, viewList, types, quick);
        return Failure(entry.error);
      }
      if entry.value.Some? {
        sources := sources + [entry.value.value];
      }
    }
    assert hits[..|hits|] == hits;
    return Success(sources);
  }

  /** The reply to GET and POST (sources.py:46-102). */
  function ListReply(docs: Docs, user: User, indata: map<string, Json>, search: string -> seq<Json>)
    : (out: Outcome)
  {
    var org := OrgOf(user);
    var key := Key("organisation", org);
    if key !in docs then HttpError(404, NoSuchOrganisation(org))
    else
      match WithoutAdmins(docs[key])
      case Failure(e) => Raised(e)
      case Success(orgDoc) =>
        var types := Get(indata, "types", Arr([]));
        match ViewList(docs, indata)
        case Failure(e) => Raised(e)
        case Success(viewList) =>
          match Listing(search(org), viewList, types, Truthy(Get(indata, "quick", Null)))
          case Failure(e) => Raised(e)
          case Success(sources) =>
            Reply(Obj(map["sources" := Arr(sources), "okay" := Bool(true), "organisation" := orgDoc]))
  }

  /** No `organisation` document for the default organisation: 404, naming it. */
  lemma ListMissingOrganisation(docs: Docs, user: User, indata: map<string, Json>, search: string -> seq<Json>)
    requires Key("organisation", OrgOf(user)) !in docs
    ensures ListReply(docs, user, indata, search) == HttpError(404, NoSuchOrganisation(OrgOf(user)))
  {
  }

  /**
    A reply lists the filtered hits of the organisation's search and the
    stored organisation document without its `admins`.
  */
  lemma ListReplyContents(docs: Docs, user: User, indata: map<string, Json>, search: string -> seq<Json>)
    requires ListReply(docs, user, indata, search).Reply?
    ensures var body := ListReply(docs, user, indata, search).body;
      var key := Key("organisation", OrgOf(user));
      && key in docs
      && body.Obj? && body.fields.Keys == {"sources", "okay", "organisation"}
      && body.fields["okay"] == Bool(true)
      && WithoutAdmins(docs[key]) == Success(body.fields["organisation"])
      && "admins" !in body.fields["organisation"].fields
      && ViewList(docs, indata).Success?
      && Listing(search(OrgOf(user)), ViewList(docs, indata).value, Get(indata, "types", Arr([])),
                 Truthy(Get(indata, "quick", Null))) == Success(body.fields["sources"].items)
  {
  }

  /** The GET/POST branch of `run` (sources.py:46-102); it reads the store and changes nothing. */
  method ListSources(store: RecordStore, user: User, indata: map<string, Json>, search: string -> seq<Json>)
    returns (out: Outcome)
    ensures out == ListReply(store.docs, user, indata, search)
  {
    var org := OrgOf(user);
    if !store.Exists("organisation", org) {
      return HttpError(404, NoSuchOrganisation(org));
    }
    var orgDoc := WithoutAdmins(store.docs[Key("organisation", org)]);
    if orgDoc.Failure? {
      return Raised(orgDoc.error);
    }
    var types := Get(indata, "types", Arr([]));
    var hits := search(org);
    var viewList := ViewList(store.docs, indata);
    if viewList.Failure? {
      return Raised(viewList.error);
    }
    var sources := FilterHits(hits, viewList.value, types, Truthy(Get(indata, "quick", Null)));
    if sources.Failure? {
      return Raised(sources.error);
    }
    return Reply(Obj(map["sources" := Arr(sources.value), "okay" := Bool(true), "organisation" := orgDoc.value]));
  }

  // ---------------------------------------------------------------------
  // Adding and updating (PUT)
  // ---------------------------------------------------------------------

  const CredKeys: set<string> := {"username", "password", "cookie"}

  /** One credential test: copy `key` when present with a non-empty value; `len` may raise. */
  function AddCred(acc: Result<map<string, Json>, string>, source: map<string, Json>, key: string)
    : Result<map<string, Json>, string>
  {
    if acc.Failure? || key !in source then acc
    else
      match Len(source[key])
      case Failure(e) => Failure(e)
      case Success(n) => if n > 0 then Success(acc.value[key := source[key]]) else acc
  }

  /**
    The `creds` of a submitted source: each of username, password and
    cookie is copied exactly when the source has it with a non-empty value;
    a value without a length raises.
  */
  function Creds(source: map<string, Json>): (r: Result<map<string, Json>, string>)
    ensures r.Success? <==> forall k :: k in CredKeys && k in source ==> Len(source[k]).Success?
    ensures r.Success? ==> r.value.Keys <= CredKeys
    ensures r.Success? ==> forall k :: k in CredKeys ==> (k in r.value <==> k in source && Truthy(source[k]))
    ensures r.Success? ==> forall k :: k in r.value ==> r.value[k] == source[k]
  {
    AddCred(AddCred(AddCred(Success(map[]), source, "username"), source, "password"), source, "cookie")
  }

  /** The conditional inserts into `creds` (sources.py:112-118). */
  method BuildCreds(source: map<string, Json>) returns (r: Result<map<string, Json>, string>)
    ensures r == Creds(source)
  {
    var creds: map<string, Json> := map[];
    if "username" in source {
      var n := Len(source["username"]);
      if n.Failure? {
        return Failure(n.error);
      }
      if n.value > 0 {
        creds := creds["username" := source["username"]];
      }
    }
    if "password" in source {
      var n := Len(source["password"]);
      if n.Failure? {
        return Failure(n.error);
      }
      if n.value > 0 {
        creds := creds["password" := source["password"]];
      }
    }
    if "cookie" in source {
      var n := Len(source["cookie"]);
      if n.Failure? {
        return Failure(n.error);
      }
      if n.value > 0 {
        creds := creds["cookie" := source["cookie"]];
      }
    }
    return Success(creds);
  }

  /** The document PUT indexes for a source. */
  function SourceDoc(org: string, url: Json, sourceType: Json, id: string, creds: map<string, Json>): Json {
    Obj(map["organisation" := Str(org), "sourceURL" := url, "sourceID" := Str(id),
            "type" := sourceType, "creds" := Obj(creds), "steps" := Obj(map[])])
  }

  /**
    The id and document for one submitted source: its id is the hash of its
    type and URL; reading `sourceURL`, then `type`, then the credentials may
    raise.
  */
  function SourceRecord(source: Json, org: string, hash: (Json, Json) -> string): (r: Result<(string, Json), string>)
    ensures r.Success? <==>
      source.Obj? && "sourceURL" in source.fields && "type" in source.fields && Creds(source.fields).Success?
    ensures r.Failure? ==>
      r.error == (if !source.Obj? then TypeError
                  else if "sourceURL" !in source.fields || "type" !in source.fields then KeyError
                  else Creds(source.fields).error)
    ensures r.Success? ==>
      source.Obj? && "sourceURL" in source.fields && "type" in source.fields &&
      var url := source.fields["sourceURL"];
      var sourceType := source.fields["type"];
      Creds(source.fields).Success? &&
      r.value == (hash(sourceType, url), SourceDoc(org, url, sourceType, hash(sourceType, url), Creds(source.fields).value))
  {
    match Field(source, "sourceURL")
    case Failure(e) => Failure(e)
    case Success(url) =>
      match Field(source, "type")
      case Failure(e) => Failure(e)
      case Success(sourceType) =>
        match Creds(source.fields)
        case Failure(e) => Failure(e)
        case Success(creds) =>
          var id := hash(sourceType, url);
          Success((id, SourceDoc(org, url, sourceType, id, creds)))
  }

  /** The store and the counters of the PUT loop, and the exception that stopped it, if any. */
  datatype Tally = Tally(docs: Docs, added: nat, updated: nat, error: Option<string>)

  /**
    One iteration of the PUT loop: a source whose id is already in the store
    at that moment counts as updated, otherwise as added, and its document is
    indexed either way.
  */
  function IndexOne(t: Tally, source: Json, org: string, hash: (Json, Json) -> string): (r: Tally)
    ensures t.error.Some? ==> r == t
    ensures r.error.None? ==> t.error.None? && SourceRecord(source, org, hash).Success?
    ensures r.error.None? ==>
      var key := Key("source", SourceRecord(source, org, hash).value.0);
      && r.docs == t.docs[key := SourceRecord(source, org, hash).value.1]
      && (r.updated == t.updated + 1 && r.added == t.added <==> key in t.docs)
      && (r.added == t.added + 1 && r.updated == t.updated <==> key !in t.docs)
    ensures r.error.Some? ==> r.docs == t.docs && r.added == t.added && r.updated == t.updated
  {
    if t.error.Some? then t
    else
      match SourceRecord(source, org, hash)
      case Failure(e) => t.(error := Some(e))
      case Success(record) =>
        var key := Key("source", record.0);
        if key in t.docs then Tally(t.docs[key := record.1], t.added, t.updated + 1, None)
        else Tally(t.docs[key := record.1], t.added + 1, t.updated, None)
  }

  /** The PUT loop over the submitted sources, in order. */
  function IndexAll(docs: Docs, sources: seq<Json>, org: string, hash: (Json, Json) -> string): (t: Tally)
    ensures t.added + t.updated <= |sources|
    ensures t.error.None? ==> t.added + t.updated == |sources|
  {
    if sources == [] then Tally(docs, 0, 0, None)
    else
      var n := |sources| - 1;
      IndexOne(IndexAll(docs, sources[..n], org, hash), sources[n], org, hash)
  }

  /** Once a source raises, later sources are not looked at. */
  lemma {:induction false} IndexAllFailureSticks(docs: Docs, sources: seq<Json>, n: nat, org: string, hash: (Json, Json) -> string)
    requires n <= |sources|
    requires IndexAll(docs, sources[..n], org, hash).error.Some?
    ensures IndexAll(docs, sources, org, hash) == IndexAll(docs, sources[..n], org, hash)
    decreases |sources|
  {
    if n < |sources| {
      var m := |sources| - 1;
      assert sources[..m][..n] == sources[..n];
      IndexAllFailureSticks(docs, sources[..m], n, org, hash);
    } else {
      assert sources[..n] == sources;
    }
  }

  /** PUT only ever writes `source` documents: every other document is left as it was. */
  lemma {:induction false} IndexAllKeepsOthers(docs: Docs, sources: seq<Json>, org: string, hash: (Json, Json) -> string)
    ensures var t := IndexAll(docs, sources, org, hash);
      forall k: Key :: k.docType != "source" ==> (k in t.docs <==> k in docs) && (k in docs ==> t.docs[k] == docs[k])
    ensures docs.Keys <= IndexAll(docs, sources, org, hash).docs.Keys
  {
    if sources != [] {
      IndexAllKeepsOthers(docs, sources[..|sources| - 1], org, hash);
    }
  }

  /** After a PUT without exception, every submitted source's id is in the store. */
  lemma {:induction false} IndexAllStores(docs: Docs, sources: seq<Json>, org: string, hash: (Json, Json) -> string)
    requires IndexAll(docs, sources, org, hash).error.None?
    ensures forall i :: 0 <= i < |sources| ==>
      SourceRecord(sources[i], org, hash).Success? &&
      Key("source", SourceRecord(sources[i], org, hash).value.0) in IndexAll(docs, sources, org, hash).docs
  {
    if sources != [] {
      var n := |sources| - 1;
      IndexAllStores(docs, sources[..n], org, hash);
      assert forall i :: 0 <= i < n ==> sources[..n][i] == sources[i];
    }
  }

  /** The same source twice in one request, new to the store: added once, then updated once. */
  lemma RepeatedSource(docs: Docs, source: Json, org: string, hash: (Json, Json) -> string)
    requires SourceRecord(source, org, hash).Success?
    requires Key("source", SourceRecord(source, org, hash).value.0) !in docs
    ensures var t := IndexAll(docs, [source, source], org, hash);
      t.added == 1 && t.updated == 1 && t.error.None?
  {
    var record := SourceRecord(source, org, hash).value;
    var key := Key("source", record.0);
    assert [source, source][..1] == [source];
    assert [source][..0] == [];
    assert IndexAll(docs, [], org, hash) == Tally(docs, 0, 0, None);
    var t1 := IndexAll(docs, [source], org, hash);
    assert t1 == IndexOne(Tally(docs, 0, 0, None), source, org, hash);
    assert t1 == Tally(docs[key := record.1], 1, 0, None);
    assert IndexAll(docs, [source, source], org, hash) == IndexOne(t1, source, org, hash);
  }

  /** The store and the outcome of PUT once permission is granted (sources.py:106-140). */
  function PutResult(docs: Docs, org: string, indata: map<string, Json>, hash: (Json, Json) -> string)
    : (Docs, Outcome)
  {
    match ObjectItems(Get(indata, "sources", Arr([])))
    case Failure(e) => (docs, Raised(e))
    case Success(sources) =>
      var t := IndexAll(docs, sources, org, hash);
      if t.error.Some? then (t.docs, Raised(t.error.value))
      else (t.docs, Reply(Obj(map["message" := Str("Sources added/updated"), "added" := Num(t.added),
                                  "updated" := Num(t.updated)])))
  }

  /** A PUT reply counts every submitted source exactly once, as added or as updated. */
  lemma PutReplyCounts(docs: Docs, org: string, indata: map<string, Json>, hash: (Json, Json) -> string)
    requires PutResult(docs, org, indata, hash).1.Reply?
    ensures var body := PutResult(docs, org, indata, hash).1.body;
      var items := ObjectItems(Get(indata, "sources", Arr([])));
      && items.Success?
      && body.Obj? && body.fields["added"].Num? && body.fields["updated"].Num?
      && body.fields["added"].n + body.fields["updated"].n == |items.value|
  {
  }

  /**
    The body of the PUT loop (sources.py:110-135): read the source, then
    index its document under its id, reporting whether that id was already
    stored.
  */
  method IndexSource(store: RecordStore, source: Json, org: string, hash: (Json, Json) -> string)
    returns (r: Result<bool, string>)
    modifies store
    ensures r.Failure? <==> SourceRecord(source, org, hash).Failure?
    ensures r.Failure? ==> r.error == SourceRecord(source, org, hash).error && store.docs == old(store.docs)
    ensures r.Success? ==>
      var key := Key("source", SourceRecord(source, org, hash).value.0);
      && store.docs == old(store.docs)[key := SourceRecord(source, org, hash).value.1]
      && (r.value <==> key in old(store.docs))
  {
    var url := Field(source, "sourceURL");
    if url.Failure? {
      return Failure(url.error);
    }
    var sourceType := Field(source, "type");
    if sourceType.Failure? {
      return Failure(sourceType.error);
    }
    var creds := BuildCreds(source.fields);
    if creds.Failure? {
      return Failure(creds.error);
    }
    var id := hash(sourceType.value, url.value);
    var doc := SourceDoc(org, url.value, sourceType.value, id, creds.value);
    var stored := store.Exists("source", id);
    store.Index("source", id, doc);
    r := Success(stored);
  }

  /** The PUT loop (sources.py:107-135), writing into the store as it goes. */
  method PutSources(store: RecordStore, org: string, indata: map<string, Json>, hash: (Json, Json) -> string)
    returns (out: Outcome)
    modifies store
    ensures (store.docs, out) == PutResult(old(store.docs), org, indata, hash)
  {
    var items := ObjectItems(Get(indata, "sources", Arr([])));
    if items.Failure? {
      return Raised(items.error);
    }
    var sources := items.value;
    var added, updated := 0, 0;
    for i := 0 to |sources|
      invariant IndexAll(old(store.docs), sources[..i], org, hash) == Tally(store.docs, added, updated, None)
    {
      assert sources[..i + 1][..i] == sources[..i];
      var step := IndexSource(store, sources[i], org, hash);
      if step.Failure? {
        IndexAllFailureSticks(old(store.docs), sources, i + 1, org, hash);
        return Raised(step.error);
      }
      if step.value {
        updated := updated + 1;
      } else {
        added := added + 1;
      }
    }
    assert sources[..|sources|] == sources;
    return Reply(Obj(map["message" := Str("Sources added/updated"), "added" := Num(added), "updated" := Num(updated)]));
  }

  // ---------------------------------------------------------------------
  // Deleting (DELETE)
  // ---------------------------------------------------------------------

  /** The id to delete: the request's `id` when it is non-empty text. */
  function DeleteId(indata: map<string, Json>): (r: Option<string>)
    ensures r.Some? <==> Get(indata, "id", Null).Str? && Get(indata, "id", Null).s != []
    ensures r.Some? ==> r.value == Get(indata, "id", Null).s
  {
    var id := Get(indata, "id", Null);
    if id.Str? && id.s != [] then Some(id.s) else None
  }

  /** The store and the outcome of DELETE once permission is granted (sources.py:147-153). */
  function DeleteResult(docs: Docs, indata: map<string, Json>): (Docs, Outcome) {
    match DeleteId(indata)
    case None => (docs, Raised(ValueError))
    case Some(id) =>
      if Key("source", id) in docs then (WithoutSource(docs, id), Reply(Obj(map["message" := Str("Source deleted")])))
      else (docs, HttpError(404, NoSuchSource))
  }

  /**
    A missing or empty id raises before the store is asked; an id with no
    `source` document gets 404 and deletes nothing; otherwise everything
    carrying the id is deleted.
  */
  lemma DeleteCases(docs: Docs, indata: map<string, Json>)
    ensures var (after, out) := DeleteResult(docs, indata);
      && (out.Reply? <==> DeleteId(indata).Some? && Key("source", DeleteId(indata).value) in docs)
      && (out.HttpError? <==> DeleteId(indata).Some? && Key("source", DeleteId(indata).value) !in docs)
      && (out.HttpError? ==> out.code == 404)
      && (!out.Reply? ==> after == docs)
      && (out.Reply? ==> after == WithoutSource(docs, DeleteId(indata).value))
  {
  }

  /** The DELETE branch once permission is granted (sources.py:147-153). */
  method DeleteSource(store: RecordStore, indata: map<string, Json>) returns (out: Outcome)
    modifies store
    ensures (store.docs, out) == DeleteResult(old(store.docs), indata)
  {
    var id := DeleteId(indata);
    if id.None? {
      return Raised(ValueError);
    }
    if store.Exists("source", id.value) {
      store.DeleteBySource(id.value);
      return Reply(Obj(map["message" := Str("Source deleted")]));
    }
    return HttpError(404, NoSuchSource);
  }

  /** After a delete, no document of any type carries the source id, and nothing else went. */
  lemma DeleteLeavesNoTrace(docs: Docs, id: string)
    ensures forall k :: k in WithoutSource(docs, id) ==> !CarriesSource(WithoutSource(docs, id)[k], id)
    ensures forall k :: k in docs && !CarriesSource(docs[k], id) ==> k in WithoutSource(docs, id)
    ensures Key("source", id) in docs && CarriesSource(docs[Key("source", id)], id) ==>
      Key("source", id) !in WithoutSource(docs, id)
  {
  }

  // ---------------------------------------------------------------------
  // Dispatch
  // ---------------------------------------------------------------------

  /**
    `run`: the login check first, then GET/POST list, PUT adds (permission
    required), DELETE deletes (permission required); other methods, PATCH
    included, produce nothing.
  */
  method Run(store: RecordStore, user: Option<User>, httpMethod: string, indata: map<string, Json>,
             search: string -> seq<Json>, hash: (Json, Json) -> string)
    returns (out: Outcome)
    modifies store
    ensures user.None? ==> out == HttpError(403, LoginRequired) && store.docs == old(store.docs)
    ensures user.Some? && httpMethod in {"GET", "POST"} ==>
      out == ListReply(old(store.docs), user.value, indata, search) && store.docs == old(store.docs)
    ensures user.Some? && httpMethod in {"PUT", "DELETE"} ==>
      match CanModifySource(user.value, old(store.docs))
      case Failure(e) => out == Raised(e) && store.docs == old(store.docs)
      case Success(false) =>
        out == HttpError(403, if httpMethod == "PUT" then NoAddPermission else NoDeletePermission) &&
        store.docs == old(store.docs)
      case Success(true) =>
        (store.docs, out) ==
          if httpMethod == "PUT" then PutResult(old(store.docs), OrgOf(user.value), indata, hash)
          else DeleteResult(old(store.docs), indata)
    ensures user.Some? && httpMethod !in {"GET", "POST", "PUT", "DELETE"} ==>
      out == NoReply && store.docs == old(store.docs)
  {
    if user.None? {
      return HttpError(403, LoginRequired);
    }
    var u := user.value;
    if httpMethod in {"GET", "POST"} {
      out := ListSources(store, u, indata, search);
      return;
    }
    if httpMethod == "PUT" || httpMethod == "DELETE" {
      var allowed := CanModifySource(u, store.docs);
      if allowed.Failure? {
        return Raised(allowed.error);
      }
      if !allowed.value {
        return HttpError(403, if httpMethod == "PUT" then NoAddPermission else NoDeletePermission);
      }
      if httpMethod == "PUT" {
        out := PutSources(store, OrgOf(u), indata, hash);
      } else {
        out := DeleteSource(store, indata);
      }
      return;
    }
    return NoReply;
  }

}
