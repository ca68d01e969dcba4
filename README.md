# Kibble API: OpenAPI split/combine and the source-list endpoint

This project models two parts of the Apache Kibble API server in Dafny and
proves properties of them.

**The OpenAPI split/combine tool** (`api/yaml/openapi/combine.py`). It
moves the API's OpenAPI document between two forms.

- `deconstruct` spreads one combined YAML document over files:
  - Each endpoint becomes a comment block in the endpoint's Python page
    file. The block holds the license, a `# OPENAPI-URI: <id>` line and the
    YAML dump with a `"# "` prefix on every line. The page's old text is
    kept after the block, once its leading comment header is stripped.
  - Each component is written to `components/<category>/<name>.yaml`
    under a boxed title.
- `construct` scans those files and gathers the document back:
  - a regular-expression search pulls each endpoint block out of a page;
  - each component file is read in full.

Modules:

- `OpenApiText` holds the text-level pieces:
  - the line-prefix codec and the header strip;
  - the endpoint-file layout and the block search;
  - the path mapping and the component-file layout.
- `OpenApiLicense` holds the license header, line by line.
- `OpenApiTree` holds the two drivers. They are methods of a `FileTree`
  class whose `files` field maps paths (sequences of segments) to file
  contents.
  - `Deconstruct` is specified by folds over that map: `SplitAll` for the
    endpoint loop, and `TryWriteAll` for the component writes, which stop at
    the first write that raises (`WriteAll` when none does).
  - Every read of a page or component file goes through Python's
    text-mode newline translation (`Strings.ReadText`).
  - `Construct` is specified relationally, because the order in which a
    directory is listed is not fixed.

**The source-list endpoint** (`api/pages/sources.py`), in module `Sources`.

- `run` lists the sources of the user's default organisation, filtered by
  view and type (GET and POST).
- It adds or updates sources and counts which were new (PUT).
- It deletes a source together with every document that carries its id
  (DELETE).
- All of this sits behind a login check and a permission rule.
- The document store is a `RecordStore` class. Its `docs` field maps
  (document type, id) to a JSON value (module `Json`).
- The search and the id hash are parameters.
- Python exceptions that escape the handler are the outcome `Raised(name)`.
  Deliberate HTTP errors are `HttpError(code, message)`.

`Strings` models the Python string operations used:

- `split` and `join` on one character;
- `replace(pat, "")`;
- `"%-Ns"`;
- whitespace as `\s` matches it;
- text-mode `read()`, which turns "\r\n" and a lone "\r" into "\n".

`Common` holds `Option` and `Result`.

## Model

| member | source | states |
|---|---|---|
| OpenApiText.Encode | api/yaml/openapi/combine.py:54 | The lines of the result are the lines of the input, each with "# " in front; a trailing empty line is kept. |
| OpenApiText.Decode | api/yaml/openapi/combine.py:103 | The lines of the result are the lines of the input, each without its first two characters, whatever they are. |
| OpenApiText.DecodeEncode | api/yaml/openapi/combine.py:54 | Decoding an encoded text gives back exactly the original text. |
| OpenApiText.DecodeTrailingNewline | api/yaml/openapi/combine.py:117 | One more trailing newline in the input gives exactly one more trailing newline after decoding. |
| OpenApiText.Strip | api/yaml/openapi/combine.py:52 | The header strip returns a suffix of its input. The input is unchanged when it is empty or starts with neither '#' nor a newline. |
| OpenApiText.StripStops | api/yaml/openapi/combine.py:52 | The stripped run is greedy: no further comment or blank line that the pattern accepts can start where it ends. |
| OpenApiText.StripIdempotent | api/yaml/openapi/combine.py:52 | Stripping a stripped text removes nothing more. |
| OpenApiText.StripBlankPair | api/yaml/openapi/combine.py:52 | The two blank lines written before the old text are swallowed with the text's own header unless the old text opens (after blanks) with three double quotes, in which case the run stops before them. |
| OpenApiText.StripEndpointFile | api/yaml/openapi/combine.py:52-63 | Stripping a written endpoint file removes the license and the whole block. What remains is the stripped old text, or, when that opens with a docstring, the old text behind the two extra newlines. |
| OpenApiText.SearchFrom | api/yaml/openapi/combine.py:98 | The search returns the leftmost offset at which the pattern matches, or none when no offset matches. |
| OpenApiText.Extract | api/yaml/openapi/combine.py:98-103 | A page yields no block exactly when the pattern matches at no offset. |
| OpenApiText.ExtractEndpointFile | api/yaml/openapi/combine.py:55-63 | Searching a freshly written endpoint file finds the identifier it was written with and the dumped YAML plus one trailing newline. This needs a non-empty identifier without whitespace and YAML without "##". |
| OpenApiText.ExtractLayout | api/yaml/openapi/combine.py:98-103 | The same round trip for any license without a 'P' and any delimiter of two or more '#'. |
| OpenApiText.EndpointTargetApi | api/yaml/openapi/combine.py:46-47 | An identifier "/api/<rest>" with no further "/api/" in it is written to "pages/<rest>.py". |
| OpenApiText.ComponentNameOfTarget | api/yaml/openapi/combine.py:132 | Removing ".yaml" from "<name>.yaml" gives back the name when the name holds no ".yaml". |
| OpenApiText.TitleLineShape | api/yaml/openapi/combine.py:77 | The title line is "# ", the title, padding and " #". It is exactly 72 wide when the title fits in 68 characters, longer otherwise, and holds no line break if the title holds none. |
| OpenApiText.ComponentFileLines | api/yaml/openapi/combine.py:75-79 | A component file's lines are the 72-'#' delimiter, the title line, the delimiter, then the dump's own lines. |
| Strings.PadRight | api/yaml/openapi/combine.py:77 | Left justification: the text, then spaces up to the width; never truncated. |
| Strings.ReadText | api/yaml/openapi/combine.py:51 | A file read in text mode holds no carriage return and is no longer than the bytes on disk. |
| Strings.ReadTextPlain | api/yaml/openapi/combine.py:51 | A text without carriage returns reads back unchanged. |
| OpenApiText.EncodeNoCarriageReturn | api/yaml/openapi/combine.py:54 | The comment prefix adds no carriage return to a dump that has none. |
| OpenApiText.EndpointFileReadsBack | api/yaml/openapi/combine.py:55-63 | An endpoint file written from an identifier, dump and old text without carriage returns reads back in text mode exactly as written. |
| OpenApiText.StripReadPlain | api/yaml/openapi/combine.py:51-52 | The old text kept after stripping a page read in text mode holds no carriage return. |
| OpenApiTree.CategoryWrites | api/yaml/openapi/combine.py:68-79 | One write per component of a category, in order, to components/<category>/<name>.yaml, holding the boxed title (summary, else name) and the dump. |
| OpenApiTree.SplitAllKeys | api/yaml/openapi/combine.py:44-64 | The endpoint loop creates no file and removes none. |
| OpenApiTree.SplitAllElsewhere | api/yaml/openapi/combine.py:44-64 | A file that no endpoint maps to is left as it was. |
| OpenApiTree.SplitAllLast | api/yaml/openapi/combine.py:49-63 | An existing page file ends up as the endpoint file of the last endpoint mapped to it, built around the stripped text that page held just before. |
| OpenApiTree.SplitOneAgain | api/yaml/openapi/combine.py:49-63 | Splitting the same endpoint twice changes nothing more, unless the page's old text opens with a docstring, in which case each run adds two more newlines in front of it. |
| OpenApiTree.SplitThenExtract | api/yaml/openapi/combine.py:44-64 | After the endpoint loop, reading the page of an endpoint (the last one mapped to it) in text mode and searching it finds that endpoint's identifier and dump. The dump must hold no "##" and no carriage return. |
| OpenApiTree.AllWritesCount | api/yaml/openapi/combine.py:67-69 | The component loop writes once per component, over all categories. |
| OpenApiTree.WriteAllKeys | api/yaml/openapi/combine.py:70-79 | Component writes create exactly their target files and keep every other file. |
| OpenApiTree.WriteAllLast | api/yaml/openapi/combine.py:75-79 | A target file holds the content of the last write to it. |
| OpenApiTree.WriteAllElsewhere | api/yaml/openapi/combine.py:70-79 | Component writes leave files they do not target unchanged. |
| OpenApiTree.ComponentKeySegments | api/yaml/openapi/combine.py:70 | Component <category>/<name> is written to the path components, category, name + ".yaml". |
| OpenApiTree.EndpointKeySegments | api/yaml/openapi/combine.py:47 | Endpoint /api/<rest> (no '/' in rest) is written to the page file pages/<rest>.py. |
| OpenApiTree.EndpointKeyNested | api/yaml/openapi/combine.py:46-47 | Endpoint /api/<dir>/<name> is written to pages/<dir>/<name>.py, one directory below the page root, where the page scan looks. |
| OpenApiTree.WriteKeepsApart | api/yaml/openapi/combine.py:72-75 | A write that makedirs and open allow keeps every path either a file or a directory, never both. |
| OpenApiTree.SameKeysApart | api/yaml/openapi/combine.py:49-63 | Rewriting existing files keeps every path either a file or a directory, never both. |
| OpenApiTree.TryWriteAll | api/yaml/openapi/combine.py:67-80 | Component writes that all succeed leave the files of the plain write fold. A run that raises stops at a path where makedirs or open fails: a file lies on the way to it, or it is a directory. |
| OpenApiTree.TryWriteAllWritable | api/yaml/openapi/combine.py:67-80 | The component writes succeed exactly when each finds its path writable after the writes before it. |
| OpenApiTree.TryWriteAllStops | api/yaml/openapi/combine.py:72-75 | The first write whose path is not writable raises. The files are as the writes before it left them, and later writes are never made. |
| OpenApiTree.TryWriteAllAppend | api/yaml/openapi/combine.py:67-80 | Writing two runs one after the other is writing the first and, unless it raised, the second from where it stopped. |
| OpenApiTree.TryWriteAllApart | api/yaml/openapi/combine.py:67-80 | Whether the writes succeed or raise, no path is left both a file and a directory. |
| OpenApiTree.FileInTheWay | api/yaml/openapi/combine.py:72-74 | A file named components/<category> makes the first component of that category raise, and nothing is written. |
| OpenApiTree.ComponentKeyReadBack | api/yaml/openapi/combine.py:127-132 | The scan of a written component file accepts it (".yaml" ending) and reads back the category and the name it was written with. |
| OpenApiTree.AddPath | api/yaml/openapi/combine.py:99-105 | A page without a block leaves the paths unchanged; a block sets its identifier's entry to the decoded text, keeps all other entries and adds no other key. |
| OpenApiTree.AddComponent | api/yaml/openapi/combine.py:128-132 | The category entry is created if missing, the name is set to the file's text, and every other category and name is kept. |
| OpenApiTree.PathsFromAdd | api/yaml/openapi/combine.py:97-105 | Reading one more page keeps the promise of the page scan: every entry comes from a read page with that identifier, and every read page with a block has its identifier entered. |
| OpenApiTree.PathsFromUnique | api/yaml/openapi/combine.py:105 | When only one read page carries an identifier, that page's block is the entry for it. |
| OpenApiTree.ComponentsFromAdd | api/yaml/openapi/combine.py:127-132 | Reading one more component file keeps the promise of the component scan. |
| OpenApiTree.FileTree.SplitEndpoint | api/yaml/openapi/combine.py:45-64 | One iteration of the endpoint loop: only an existing page file is rewritten, to the endpoint file around its stripped old text. |
| OpenApiTree.FileTree.WriteComponent | api/yaml/openapi/combine.py:70-80 | The component file is written, creating or overwriting it, exactly when its path is writable. Otherwise the write raises and nothing changes. |
| OpenApiTree.FileTree.WriteCategory | api/yaml/openapi/combine.py:68-80 | The inner component loop performs the category's writes in order until one raises, and counts one per component. |
| OpenApiTree.FileTree.WriteCategories | api/yaml/openapi/combine.py:66-80 | The component loops perform every category's writes in order until one raises. The files and the failing path are those of the stopping write fold. |
| OpenApiTree.FileTree.Deconstruct | api/yaml/openapi/combine.py:40-81 | Deconstruct succeeds exactly when every component write finds its path writable. Then the new file map is the endpoint loop followed by every component write, and the count is the number of endpoints plus the number of components, skipped endpoints included. Otherwise it raises at the first unwritable path, with the writes before it done. Either way no path ends up both a file and a directory. |
| OpenApiTree.FileTree.ScanPageDir | api/yaml/openapi/combine.py:91-105 | Scanning one subdirectory reads exactly its ".py" files and fails only on a ".py" entry that is a directory. |
| OpenApiTree.FileTree.ScanPages | api/yaml/openapi/combine.py:87-119 | The page scan fails exactly on a ".py" directory one level down. Otherwise it reads exactly the ".py" files at the page root and one level below, and the paths it returns come from those files' blocks and cover them all. |
| OpenApiTree.FileTree.ScanComponentDir | api/yaml/openapi/combine.py:123-132 | Scanning one category reads exactly its ".yaml" files and fails only on a ".yaml" entry that is a directory. |
| OpenApiTree.FileTree.ScanComponents | api/yaml/openapi/combine.py:120-132 | Every ".yaml" file one level below components is read. A category appears exactly when one of its ".yaml" files was read, and each name is a read file's name minus ".yaml", holding that file's text. |
| OpenApiTree.FileTree.Construct | api/yaml/openapi/combine.py:83-132 | Construct succeeds exactly when neither scan meets a directory where it opens a file, and then returns both scans' results. |
| Sources.OrgOf | api/pages/sources.py:32 | The organisation is the user's default organisation, or "apache" when that is unset. |
| Sources.WithoutSource | api/pages/sources.py:150 | Delete-by-query keeps exactly the documents that do not carry the source id, unchanged. |
| Sources.RecordStore.Index | api/pages/sources.py:135 | Indexing sets the document at (type, id) and changes nothing else. |
| Sources.RecordStore.DeleteBySource | api/pages/sources.py:150 | The store afterwards holds exactly the documents that did not carry the id. |
| Sources.CanModifySource | api/pages/sources.py:27-36 | Admins may always modify. Other users may not when their organisation has no "org" document. A lookup error can only arise for a non-admin whose organisation document exists. |
| Sources.CanModifyWithAdminList | api/pages/sources.py:33-36 | With an "org" document holding an admins list, the answer is true exactly for admins and for users whose email is in that list. |
| Sources.WithoutAdmins | api/pages/sources.py:51 | Deleting "admins" succeeds exactly on an object that has it, keeps every other key and value, and otherwise raises KeyError (or TypeError on a non-object). |
| Sources.ViewList | api/pages/sources.py:72-76 | No view, or a view id with no stored view, gives the empty list. A non-empty list is the stored view's sourceList. |
| Sources.KeepHit | api/pages/sources.py:82-85 | Falsy view and type lists keep every hit. A kept hit has its sourceID in a non-empty view list and its type in a non-empty type list. |
| Sources.KeepHitLists | api/pages/sources.py:82-85 | For list filters, a hit is kept exactly when each list is empty or holds the hit's value. |
| Sources.Project | api/pages/sources.py:86-94 | Quick mode copies exactly sourceID, type and sourceURL from the hit and fails when one is missing. Otherwise the whole hit is returned. |
| Sources.Kept | api/pages/sources.py:79-85 | The kept hits' indices are increasing and are exactly the hits that pass both filters. |
| Sources.Listing | api/pages/sources.py:79-94 | A listing has no more entries than there are hits. |
| Sources.ListingKept | api/pages/sources.py:79-94 | The listing is, in order, the projections of exactly the hits that pass the filters: an order-preserving subsequence of the hits. |
| Sources.ListingUnfiltered | api/pages/sources.py:79-94 | With no view and no type filter and no quick mode, the listing is the hits themselves. |
| Sources.ListingFiltersSucceed | api/pages/sources.py:82-85 | A listing that succeeds evaluated both filters on every hit without raising. |
| Sources.ListingFailureSticks | api/pages/sources.py:79-94 | Once the loop raises on a hit, later hits do not change the outcome. |
| Sources.VisitHit | api/pages/sources.py:81-94 | The loop body computes the hit's entry: raised error, skipped, or the projected entry. |
| Sources.FilterHits | api/pages/sources.py:79-94 | The listing loop computes the listing. |
| Sources.ListMissingOrganisation | api/pages/sources.py:48-53 | A missing "organisation" document for the default organisation gives 404 naming it. |
| Sources.ListReplyContents | api/pages/sources.py:46-101 | A reply holds exactly sources, okay=true and the organisation document without admins, and its sources are the filtered listing of the search hits. |
| Sources.ListSources | api/pages/sources.py:46-102 | The GET/POST branch gives the list reply and changes nothing. |
| Sources.Creds | api/pages/sources.py:112-118 | Username, password and cookie are copied exactly when present with a non-empty value. Building fails exactly when one of them has no length. |
| Sources.BuildCreds | api/pages/sources.py:112-118 | The conditional inserts compute exactly those credentials. |
| Sources.SourceRecord | api/pages/sources.py:110-130 | Reading a source succeeds exactly when it is an object with sourceURL and type whose credentials have lengths. It then gives the id hash(type, URL) and the document with organisation, URL, id, type, credentials and empty steps. Otherwise it raises TypeError on a non-object, KeyError on a missing field, or the credentials' error. |
| Sources.IndexOne | api/pages/sources.py:110-135 | A source is stored under its id. It counts as updated exactly when that id was already stored at that moment, as added exactly when not. An earlier error stops all further changes. |
| Sources.IndexAll | api/pages/sources.py:109-135 | Added plus updated is at most the number of sources, and exactly that number when nothing raised. |
| Sources.IndexAllKeepsOthers | api/pages/sources.py:109-135 | The PUT loop touches only "source" documents and removes none. |
| Sources.IndexAllStores | api/pages/sources.py:109-135 | After a PUT loop without error, every submitted source is stored under its id. |
| Sources.IndexAllFailureSticks | api/pages/sources.py:109-135 | Once a source raises, later sources do not change the store or the counts. |
| Sources.RepeatedSource | api/pages/sources.py:131-134 | The same new source submitted twice in one request counts once as added and once as updated. |
| Sources.PutReplyCounts | api/pages/sources.py:136-140 | The PUT reply's added plus updated equals the number of submitted sources. |
| Sources.IndexSource | api/pages/sources.py:110-135 | One pass of the PUT loop raises exactly when the source cannot be read, leaving the store unchanged. Otherwise it stores the source's document under its id and reports whether that id was already stored. |
| Sources.PutSources | api/pages/sources.py:105-140 | The PUT branch leaves the store and the reply that the PUT result function gives. |
| Sources.DeleteId | api/pages/sources.py:147 | The id is usable exactly when it is a non-empty string. |
| Sources.DeleteCases | api/pages/sources.py:145-153 | Deletion replies exactly when a "source" document with the id exists, and then deletes everything carrying the id. Otherwise the reply is 404 (or a raised error for an unusable id) and nothing is deleted. |
| Sources.DeleteSource | api/pages/sources.py:145-153 | The DELETE branch leaves the store and the reply that the DELETE result function gives. |
| Sources.DeleteLeavesNoTrace | api/pages/sources.py:150 | After a delete, no document carries the id; every document that did not carry it is still there. |
| Sources.Run | api/pages/sources.py:38-159 | Without a login, 403 and no change. GET/POST list and change nothing. For PUT and DELETE: a raising permission check raises, a denied one gives 403 and no change, an allowed one performs the branch. Any other method gives nothing and changes nothing. |

## Left out

- YAML parsing and dumping are not modelled: dumped YAML is an opaque string, and `construct` stores the decoded text where the tool stores `yaml.load` of it.
- The real file system is a map from paths to contents; a directory exists exactly when a file lies below it. The errors modelled are those the file layout itself causes: opening a directory for reading in the scans, and, for a component write, a file on the way to it (`makedirs`) or a directory in its place (`open`). Absolute-path normalisation, permissions, full disks and other I/O errors are not modelled.
- The order of `os.listdir` is not fixed, so which page wins for a repeated identifier is stated relationally (some page with that identifier), not by position.
- Writing the combined `openapi.yaml` with its fixed preamble (combine.py:133-137), the progress output and the command-line dispatch are not modelled.
- OpenApiTree.SplitOneAgain and OpenApiText.StripEndpointFile: no line of the dumped YAML may open, after blanks, with three double quotes; YAML dumps do not produce such a line, and with it the header strip would stop inside the block.
- OpenApiText.StripEndpointFile and OpenApiTree.SplitOneAgain: neither the identifier nor the dump may hold a carriage return, because the strip pattern's comment lines end at one, so the strip would stop inside the block.
- OpenApiTree.SplitOneAgain and OpenApiTree.SplitThenExtract: the dump may hold no carriage return, because text-mode reads turn one into a newline and the page would not read back as written. An identifier for the search holds no whitespace, so no carriage return either. YAML dumps escape carriage returns.
- OpenApiText.ExtractEndpointFile: holds only for identifiers without whitespace and dumps without "##", as the search pattern itself requires.
- The Elasticsearch client is a keyed map. The search is a parameter returning the hits of the organisation in the store's order; its 5000-hit cap and the query itself are not modelled.
- `hashlib.sha224` is the parameter `hash` of the type and URL.
- JSON encoding of replies and the generator mechanics are not modelled: the outcome is the reply value.
- The PATCH branch produces nothing and is the `NoReply` outcome of any other method.
- Python's cross-type equality (`True == 1`, `1 == 1.0`) and floats are not modelled: JSON numbers are integers and equality is structural.
- Sources.ViewList: a view id that is not a string is treated as no stored view.
- Sources.DeleteId: a missing, empty or non-string id is modelled as raising `ValueError`, standing for the store client's rejection of such an id.
- Sources.WithoutSource: delete-by-query's `match` on sourceID is modelled as exact equality with the string id.
- Sources.OrgOf: the user record is typed; an empty default organisation stands for an unset one.
- Sources.CanModifySource: returning nothing is modelled as `false`; the permission rule reads the "org" document type while the listing reads "organisation", as the handler does.
