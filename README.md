# alfred5 in Dafny

A model of the `alfred5` package, a helper for Alfred 5 script-filter
workflows. It covers two parts, each proved against its own specification
functions.

`WorkflowClient` runs one invocation:
- it parses the raw argument into `bare_query`, `query` and `page_count`;
- it may look up `db/results.yml`;
- it checks `requirements.txt`;
- it runs the user's callback, which adds results through `add_result`;
- it may cache the results;
- it prints the `{"items": [...]}` payload and exits.

`SnippetClient` collects snippets and packages them, each as
`"{name} [{uid}].json"`, together with a filled `info.plist` template, into
a `.alfredsnippets` archive.

Modules, one file each:

- `Wrappers` (wrappers.dfy): `Option`.
- `Text` (text.dfy): the Python string operations the core relies on, each with its characterisation. They are truthiness, `count`, `replace(c, "")`, `in`, `strip`, `split` and `join`.
- `Models` (models.dfy): `Result`, `Result.Icon` and `Snippet` with their defaults. It also holds a JSON value type, `to_dict`/`asdict` with decoders proved to invert them, the response payload, the snippet file name and document, and `SNIPPET_INFO_TEMPLATE.format`.
- `Query` (query.dfy): argument parsing in `WorkflowClient.__init__`.
- `Cache` (cache.dfy): the results file and `cache_response` / `load_cached_response` on values.
- `Snippets` (snippets.dfy): the `SnippetClient` class and the archive `package` produces.
- `Workflow` (workflow.dfy): the `add_result` rules and the `run` lifecycle as a function, `Lifecycle`, plus the lemmas about it. It also holds the `WorkflowClient` class, whose methods change `results` and the results file step by step. The method `Run` drives a client and is proved equal to `Lifecycle`.

Inputs that the source takes from the environment are parameters here:
- `sys.argv`;
- the `bundleid` read from info.plist (`None` when info.plist cannot be read or has no `bundleid`);
- the contents of `db/results.yml`;
- what `pkg_resources.require` finds;
- the callback, given as its sequence of `add_result` calls and how it ends;
- the `uuid4` values.

Where the code behaves differently from what its names and docstrings
suggest, the model follows the code:

- **Lookup.** `load_cached_response` tests `if self.bare_query:` and returns False for a truthy query (client.py:171). Its later guard also requires a truthy query (client.py:180). So it never returns True, and a cached list is never served (`Cache.LoadNeverHits`, `Cache.StoredIsNeverLoaded`).
- **Store.** `cache_response` still stores, also under the `None` key for a run with no argument.
- **`WorkflowError`.** It is not turned into an entry. Its handler reads `e.arg`, which the class never defines (errors.py:1-9), so the handler raises again and the run ends without output (`Workflow.WorkflowErrorIsUncaught`).
- **Failures outside the `try`.** Two failures happen before the `try` and crash the run instead of producing an error entry (`Workflow.CrashesExactly`, `Workflow.LoadCrashes`):
  - an unreadable info.plist, or one without a `bundleid` key (client.py:97-98);
  - with `cache=True` and no argument (or an empty one), a results file that loads as `None`, which fails at `data.keys()` (client.py:179).

  With a non-empty argument the lookup returns before reading the file (client.py:171-173), and `cache_response` reads a `None` file as `{}` (client.py:155). With caching off the file is never loaded.
- **Error entry.** For any other exception, the error entry is appended after whatever the callback had already added. The payload therefore has one item only when the callback added none (`Workflow.ExceptionAppendsOneEntry`).
- **Page count.** `page_count` is 0 when there is no argument, and 1 for an argument without `+` (`Query.ParseArgv`).
- **`autocomplete`.** It is always emitted, as `null` when unset, and `icon` likewise (`Models.ToDict`, exercised by `Models.ToDictRoundTrip`).

## Model

| member | source | states |
|---|---|---|
| Text.Count | alfred5/client.py:82 | `str.count` of one character; characterised by `Text.CountIsMultiplicity` as the character's multiplicity |
| Text.CountIsMultiplicity | alfred5/client.py:82 | `str.count` of one character is that character's multiplicity in the string |
| Text.RemoveAll | alfred5/client.py:83 | `replace("+", "")` leaves no `+` and shortens the string by exactly the number of `+` |
| Text.RemoveAllConcat | alfred5/client.py:83 | removing a character distributes over concatenation, so the kept characters stay in order |
| Text.RemoveAllContents | alfred5/client.py:83 | every character other than the removed one keeps its multiplicity; the removed one has none |
| Text.Contains | alfred5/client.py:273 | `sub in s`; characterised by `Text.ContainsIffOccurs` as occurrence at some index |
| Text.ContainsIffOccurs | alfred5/client.py:273 | `"http" in s` holds exactly when `"http"` occurs at some index of `s` |
| Text.TrimStart | alfred5/client.py:250-251 | the left strip is a suffix, everything cut is white space (CPython's set), and it does not start with white space |
| Text.TrimEnd | alfred5/client.py:250-251 | the right strip is a prefix, everything cut is white space, and it does not end with white space |
| Text.Strip | alfred5/client.py:250-251 | `strip()` is the middle of the input, starting where the left strip does; everything cut on either side is white space, and the result neither starts nor ends with white space |
| Text.StripIdempotent | alfred5/client.py:250-251 | stripping the stripped trace again changes nothing |
| Text.Split | alfred5/client.py:250 | `split("\n")` always has at least one piece, and no piece contains the separator |
| Text.Join | alfred5/client.py:141-143 | `sep.join(parts)`; characterised by `Text.JoinSplit` (inverse of split) and `Text.JoinFourWords` |
| Text.JoinFourWords | alfred5/client.py:141-143 | `' '.join` of a list starting with four words is those words, each followed by the separator, then the join of the rest |
| Text.JoinSplit | alfred5/client.py:250 | joining the pieces of a split with the separator gives the string back |
| Text.SplitLast | alfred5/client.py:250 | the last piece is the whole string when there is one piece; otherwise it is a shorter suffix preceded by the separator |
| Text.LastLine | alfred5/client.py:250 | `split("\n")[-1]` holds no line break, is a suffix of the trace, and is either the whole trace or preceded by a line break |
| Query.ParseArgv | alfred5/client.py:80-87 | with an argument: `bare_query` is `argv[1]`, `page_count` is its number of `+` plus one, `query` is `argv[1]` with every `+` removed and the other characters in order (no `+`, each other character with its multiplicity); without one: both None and `page_count` 0 |
| Models.Defaults | alfred5/models.py:39-87 | the dataclass defaults: a result has an empty subtitle and arg, no autocomplete and no icon; an icon has no type; a snippet has `dontautoexpand` true |
| Models.ToDict | alfred5/models.py:89-90 | `asdict` of a result: its six fields in declaration order, the icon nested or null; `Models.ToDictRoundTrip` and `Models.ToDictInjective` prove it loses nothing |
| Models.ToDictRoundTrip | alfred5/models.py:89-90 | `to_dict` keeps every field, including the icon's path and type: decoding the dictionary gives the result back |
| Models.ToDictInjective | alfred5/models.py:89-90 | two results have the same dictionary exactly when they are equal |
| Models.DictsRoundTrip | alfred5/client.py:314 | the list of dictionaries decodes back to the result list, element by element and in order |
| Models.Payload | alfred5/client.py:314 | the `{"items": [...]}` value; `Models.PayloadRoundTrip` proves it decodes to exactly the result list |
| Models.PayloadRoundTrip | alfred5/client.py:314 | the `{"items": [...]}` value handed to `json.dumps` decodes to exactly the result list |
| Models.SnippetFileName | alfred5/models.py:48 | `"{name} [{uid}].json"`; `Models.SnippetFileNameInjective` and `Models.SnippetFileNameCollision` say when it determines the snippet |
| Models.SnippetFileNameInjective | alfred5/models.py:48 | for uids of one length, two snippet file names are equal exactly when name and uid are both equal |
| Models.SnippetFileNameCollision | alfred5/models.py:48 | without equal uid lengths, two snippets with different names can share a file name |
| Models.SnippetDocument | alfred5/models.py:50 | `{"alfredsnippet": asdict(self)}`; `Models.SnippetDocumentRoundTrip` proves it reads back as the snippet |
| Models.SnippetDocumentRoundTrip | alfred5/models.py:50 | the saved document is `{"alfredsnippet": ...}` with exactly the snippet's five fields, and it reads back as the snippet |
| Models.InfoPlist | alfred5/models.py:8-17 | `SNIPPET_INFO_TEMPLATE.format(prefix, suffix)`; characterised by `Models.InfoPlistLayout`, `Models.InfoPlistInjective` and `Models.InfoPlistCollision` |
| Models.InfoPlistLayout | alfred5/models.py:8-17 | the filled template is the fixed head ending in the `snippetkeywordprefix` key, the prefix, the fixed middle ending in the `snippetkeywordsuffix` key, the suffix, then the fixed tail, at computed offsets |
| Models.InfoPlistInjective | alfred5/models.py:8-17 | for prefixes of one length, the filled template is equal exactly when prefix and suffix are both equal |
| Models.InfoPlistCollision | alfred5/client.py:44 | `format` inserts the fields unescaped, so without equal prefix lengths two different prefixes can give the same info.plist text |
| Cache.Entry | alfred5/client.py:157-162 | the four cached fields of a result, the icon reduced to its path; `Cache.StoreThenRebuild` relates it to `Cache.Rebuild` |
| Cache.Store | alfred5/client.py:149-166 | `cache_response` leaves a mapping whose keys are the old keys plus `bare_query`, whose value there is the four cached fields of each result in order, and where every other key is unchanged |
| Cache.StoreLastWriterWins | alfred5/client.py:156-164 | a second write to the same key replaces the first |
| Cache.StoreCommutes | alfred5/client.py:156-164 | writes under different keys do not interfere |
| Cache.Rebuild | alfred5/client.py:182-189 | a result rebuilt from a cached entry, with an icon only for a truthy path; characterised by `Cache.StoreThenRebuild` |
| Cache.StoreThenRebuild | alfred5/client.py:181-191 | rebuilding a stored list gives the same length and order, with title, subtitle and arg intact, and an icon exactly when the original had one with a non-empty path |
| Cache.LoadDecision | alfred5/client.py:169-195 | `load_cached_response` as written; characterised by `Cache.LoadNeverHits`, `Cache.LoadRaisesIffBlank` and `Cache.StoredIsNeverLoaded` |
| Cache.LoadNeverHits | alfred5/client.py:169-195 | the lookup as written never returns True |
| Cache.LoadRaisesIffBlank | alfred5/client.py:171-179 | the lookup raises exactly for a falsy query over a file that loads as `None`; otherwise it returns False |
| Cache.StoredIsNeverLoaded | alfred5/client.py:149-195 | a list `cache_response` wrote is never read back under its own key |
| Workflow.InsertPosition | alfred5/client.py:277-280 | the position `list.insert` uses; characterised by `Workflow.InsertPositionRule` |
| Workflow.InsertAt | alfred5/client.py:277-280 | `list.insert`; characterised by `Workflow.InsertAtShape` |
| Workflow.Added | alfred5/client.py:277-284 | the list after one `add_result`; characterised by `Workflow.AddedShape` and, over many calls, `Workflow.AddedAllContents` |
| Workflow.InsertPositionRule | alfred5/client.py:277-280 | `list.insert` position: an index in range is used as is; a negative one counts from the end and stops at 0; one past the end appends |
| Workflow.InsertAtShape | alfred5/client.py:277-280 | insertion puts the new result at that position, grows the list by one, keeps the others in order, and adds exactly one element to the multiset |
| Workflow.AddedShape | alfred5/client.py:277-284 | one `add_result` appends when no index is given and inserts otherwise; either way the list gains exactly that result |
| Workflow.AddedAllContents | alfred5/client.py:254-284 | after any sequence of calls the list has the old results plus one new result per call, each once; without indices the new ones follow in call order |
| Workflow.IconFor | alfred5/client.py:271-276 | the icon `add_result` builds; characterised by `Workflow.IconRule` |
| Workflow.IconRule | alfred5/client.py:271-276 | an icon exists exactly for a truthy path; it never has a type; its path is the downloader's answer when a downloader is given and the path contains "http", and the path itself otherwise |
| Workflow.ErrorIconIsDefault | alfred5/client.py:301-306 | without an explicit icon, `error_response` shows `icons/error.png` |
| Workflow.ErrorEntryFor | alfred5/client.py:301-306 | for any arg, the entry `error_response` adds with that arg and its last line: the given title and uid, a line-break-free subtitle that ends the arg, and the error icon |
| Workflow.ExceptionEntryShape | alfred5/client.py:247-252 | the error entry has `str(e)` as title and the stripped trace as arg; its subtitle is the trace's last line, a line-break-free suffix of the arg; its icon is the error icon |
| Workflow.RequirementsStep | alfred5/client.py:112-147 | `install_requirements` on the list; its outcomes in a run are given by `Workflow.MissingDistributionSkipsCallback`, `Workflow.AttemptResolutionFailed` and `Workflow.ResolutionFailureIsReported` |
| Workflow.Handle | alfred5/client.py:240-252 | the `except` clause; its effect in a run is given by `Workflow.ExceptionAppendsOneEntry`, `Workflow.WorkflowErrorIsUncaught` and `Workflow.ExceptionEntryShape` |
| Workflow.Lifecycle | alfred5/client.py:198-252 | one run of `run` as a function of its inputs; characterised by `Workflow.CrashesExactly`, `Workflow.CacheNeverShortCircuits`, `Workflow.FileWrittenOnlyOnCachedSuccess`, `Workflow.SuccessCachesThenEmits`, `Workflow.ExceptionAppendsOneEntry` and the lemmas below; `Workflow.Run` is proved equal to it |
| Workflow.CrashesExactly | alfred5/client.py:230-252 | a run dies without output exactly when info.plist cannot be read, the cache check raises, or the callback raises `WorkflowError` with requirements met; every other run prints a payload |
| Workflow.CacheNeverShortCircuits | alfred5/client.py:232-233 | unless the cache check raises, a run with caching on emits what the same run with caching off emits |
| Workflow.FileWrittenOnlyOnCachedSuccess | alfred5/client.py:234-239 | the results file changes only when caching is on and the callback returned, and then it holds that run's output under the raw argument |
| Workflow.SuccessCachesThenEmits | alfred5/client.py:234-239 | a returning callback's list is emitted unchanged and, with caching on, stored under `bare_query` |
| Workflow.AttemptRaising | alfred5/client.py:234-241 | with requirements met, an exception from the callback reaches the handler with the list the callback built |
| Workflow.LifecycleReachesAttempt | alfred5/client.py:230-235 | with info.plist readable and the cache check not raising, the run always proceeds to the `try` block |
| Workflow.ExceptionAppendsOneEntry | alfred5/client.py:247-252 | an exception other than `WorkflowError` yields the callback's list followed by exactly one error entry, and nothing is cached |
| Workflow.WorkflowErrorIsUncaught | alfred5/client.py:241-246 | a `WorkflowError` from the callback ends the run without output, because `e.arg` raises |
| Workflow.MissingDistributionSkipsCallback | alfred5/client.py:122-145 | when distributions are missing, the run emits only the installing entry, whose arg is the pip command and whose icon is `download.png`; the callback never runs and its behaviour is irrelevant |
| Workflow.InstallCommandText | alfred5/client.py:125-143 | the installing entry's command line is `python3 -m pip install --target=<package_dir>` followed by each package after a space |
| Workflow.AttemptResolutionFailed | alfred5/client.py:116-122 | a resolution error other than a missing distribution goes to the handler with an empty list, before the callback runs |
| Workflow.ResolutionFailureIsReported | alfred5/client.py:120-121 | another error from `pkg_resources.require` is reported as the single error entry |
| Workflow.TwoResultsInOrder | alfred5/client.py:254-284 | a run with no argument and two appending calls emits exactly those two results, in order |
| Workflow.WorkflowClient.constructor | alfred5/client.py:75-107 | the parsed argument fields, the icon directory beside the module, and an empty result list |
| Workflow.WorkflowClient.AddResult | alfred5/client.py:254-284 | the list after the call is `Added(old list, call)`, which the `add_result` lemmas characterise; the results file is untouched |
| Workflow.WorkflowClient.ResponseWithResults | alfred5/client.py:309-315 | the emitted items are the result list, and the `{"items": [...]}` value decodes back to that list |
| Workflow.WorkflowClient.ErrorResponse | alfred5/client.py:286-307 | one more entry, with the error icon when none is given, then the whole list is emitted |
| Workflow.WorkflowClient.InstallRequirements | alfred5/client.py:112-147 | flow and list follow `RequirementsStep`: proceed unchanged, exit after adding the installing entry, or raise the resolution error |
| Workflow.WorkflowClient.CacheResponse | alfred5/client.py:149-166 | the results file becomes `Store(old file, bare_query, results)` and the results are unchanged |
| Workflow.WorkflowClient.LoadCachedResponse | alfred5/client.py:169-195 | the answer is `LoadDecision` of the file; the list is replaced only on a hit, which never occurs; the file is unchanged |
| Workflow.WorkflowClient.AwaitCallback | alfred5/client.py:236 | the list after the callback is the old list with its calls applied in order; a raise becomes the thrown flow |
| Workflow.Run | alfred5/client.py:198-252 | driving a client through `run` gives exactly `Lifecycle` of the inputs, which the lemmas above characterise |
| Snippets.ArchiveFor | alfred5/client.py:41-58 | the archive `package` writes; characterised by `Snippets.ArchiveMembersDistinct`, and built by `Snippets.SnippetClient.Package` |
| Snippets.ArchiveMembersDistinct | alfred5/client.py:41-58 | with distinct uids of one length, member names are pairwise distinct; there is one member per snippet plus info.plist and the optional icon; each snippet file reads back as its snippet |
| Snippets.SnippetClient.constructor | alfred5/client.py:26-27 | a new client has no snippets |
| Snippets.SnippetClient.InsertSnippet | alfred5/client.py:29-30 | appends exactly one snippet, with `dontautoexpand` defaulted to true |
| Snippets.SnippetClient.Package | alfred5/client.py:32-58 | the archive is `ArchiveFor` the snippets: it goes in `dst`, or the working directory when `dst` is empty, as `name.alfredsnippets`, and holds the snippet files in order, then info.plist, then icon.png when an icon path is given |

## Left out

- Logging (`Logger`, `log`) is left out: it has no effect on results.
- File-system effects are parameters or values. These cover opening and `mkdir` of `db`, `touch`, the temporary directory, `ZipFile` compression, `copy2` and `move`. The results file is a value of `Missing | Blank | Document`. A YAML document that is neither a mapping nor empty, and the YAML text itself, are not modelled.
- The model does not I/O-check `package`. It does not model a failing `copy2` of a missing icon, an unwritable destination, or a snippet name containing `/`.
- `subprocess.Popen` is left out: the installer is fire-and-forget and only its command line is modelled. The reading of requirements.txt and `pkg_resources.require` are replaced by the `Requirements` value.
- `asyncio.run` and the callback's own code are left out. The callback is its sequence of `add_result` calls plus how it ends. A callback that itself calls `response_with_results`, `error_response`, `response` or `exit` is not modelled.
- `response` (client.py:317-345) is a convenience the lifecycle never calls, and is not modelled.
- `sys.path.insert` and `Path` normalisation are left out. Paths are strings joined with `/`.
- `uuid4` is left out: uids are parameters of the calls that draw them.
- A `WorkflowError` subclass that defines `arg` is not modelled; the class as written has none.
- Snippets.SnippetClient.InsertSnippet: takes the uid as a parameter instead of drawing `uuid4()`.
- Models.SnippetFileNameInjective: requires equal uid lengths. This holds for `uuid4` strings, but the source itself does not enforce it.
- The JSON text `json.dumps` prints is not modelled, including its `ensure_ascii` escaping and number formatting. The model stops at the JSON value.
- Models.InfoPlistInjective: needs equal prefix lengths, because the prefix and suffix go into the XML unescaped. `Models.InfoPlistCollision` shows two different pairs that give the same text.
- setup.py and `__init__.py` hold only packaging metadata and re-exports, and are not part of this model.
