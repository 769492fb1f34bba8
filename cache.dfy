/**
 * The response cache: `db/results.yml`, a YAML mapping from the raw
 * argument (`bare_query`, `+` characters included, `None` when there was
 * no argument) to a list of simplified results.
 */
module Cache {
  import opened Wrappers
  import opened Text
  import opened Models

  /** One stored result: the four fields `cache_response` keeps. */
  datatype CachedEntry = CachedEntry(title: string, subtitle: string, iconPath: Option<string>, arg: string)

  type Records = map<Option<string>, seq<CachedEntry>>

  /**
   * The results file: not there yet, there but loading as `None` (empty, or
   * holding only `null`), or a mapping.
   */
  datatype ResultsFile = Missing | Blank | Document(records: Records)

  /** The stored form of one result: its icon reduced to the icon's path. */
  function Entry(r: Result): CachedEntry
  {
    CachedEntry(r.title, r.subtitle, if r.icon.Some? then Some(r.icon.value.path) else None, r.arg)
  }

  function Entries(results: seq<Result>): seq<CachedEntry>
  {
    seq(|results|, i requires 0 <= i < |results| => Entry(results[i]))
  }

  /** What `safe_load(f) or {}` gives once a missing file has been created empty. */
  function Existing(file: ResultsFile): Records
  {
    match file
    case Document(d) => d
    case _ => map[]
  }

  /**
   * `cache_response` on a file: the key gets the entries of the results, in
   * their order, and every other key keeps its list.
   */
  function Store(file: ResultsFile, key: Option<string>, results: seq<Result>): (stored: ResultsFile)
    ensures stored.Document?
    ensures stored.records.Keys == Existing(file).Keys + {key}
    ensures |stored.records[key]| == |results|
    ensures forall i :: 0 <= i < |results| ==> stored.records[key][i] == Entry(results[i])
    ensures forall k :: k in Existing(file) && k != key ==> stored.records[k] == Existing(file)[k]
  {
    Document(Existing(file)[key := Entries(results)])
  }

  /** The last write to a key wins. */
  lemma StoreLastWriterWins(file: ResultsFile, key: Option<string>, first: seq<Result>, second: seq<Result>)
    ensures Store(Store(file, key, first), key, second) == Store(file, key, second)
  {
    var a := Store(Store(file, key, first), key, second).records;
    var b := Store(file, key, second).records;
    assert a.Keys == b.Keys;
    assert forall k :: k in a ==> a[k] == b[k];
  }

  /** Writes to two different keys do not interfere. */
  lemma StoreCommutes(file: ResultsFile, k1: Option<string>, r1: seq<Result>, k2: Option<string>, r2: seq<Result>)
    requires k1 != k2
    ensures Store(Store(file, k1, r1), k2, r2) == Store(Store(file, k2, r2), k1, r1)
  {
    var a := Store(Store(file, k1, r1), k2, r2).records;
    var b := Store(Store(file, k2, r2), k1, r1).records;
    assert a.Keys == b.Keys;
    assert forall k :: k in a ==> a[k] == b[k];
  }

  /** How `load_cached_response` rebuilds a `Result` from an entry (lines 182-189); the uid is a fresh one. */
  function Rebuild(e: CachedEntry, uid: string): Result
  {
    Result(e.title, e.subtitle, uid, e.arg, None, if Truthy(e.iconPath) then Some(Icon(e.iconPath.value)) else None)
  }

  function RebuildAll(entries: seq<CachedEntry>, uids: nat -> string): seq<Result>
  {
    seq(|entries|, i requires 0 <= i < |entries| => Rebuild(entries[i], uids(i)))
  }

  /**
   * What a stored list would read back as: same length and order, title,
   * subtitle and arg equal; an icon exactly when the result had one with a
   * non-empty path, and then with that path and no type.
   */
  lemma StoreThenRebuild(file: ResultsFile, key: Option<string>, results: seq<Result>, uids: nat -> string)
    ensures var got := RebuildAll(Store(file, key, results).records[key], uids);
      && |got| == |results|
      && forall i :: 0 <= i < |results| ==>
        && got[i].title == results[i].title
        && got[i].subtitle == results[i].subtitle
        && got[i].arg == results[i].arg
        && got[i].uid == uids(i)
        && got[i].autocomplete == None
        && (got[i].icon.Some? <==> results[i].icon.Some? && results[i].icon.value.path != "")
        && (got[i].icon.Some? ==> got[i].icon.value == Icon(results[i].icon.value.path))
  {
    var stored := Store(file, key, results).records[key];
    var got := RebuildAll(stored, uids);
    forall i | 0 <= i < |results|
      ensures got[i].title == results[i].title && got[i].subtitle == results[i].subtitle
      ensures got[i].arg == results[i].arg && got[i].uid == uids(i) && got[i].autocomplete == None
      ensures got[i].icon.Some? <==> results[i].icon.Some? && results[i].icon.value.path != ""
      ensures got[i].icon.Some? ==> got[i].icon.value == Icon(results[i].icon.value.path)
    {
      assert stored[i] == Entry(results[i]);
      assert got[i] == Rebuild(stored[i], uids(i));
    }
  }

  /** The three ways `load_cached_response` can end: False, True with these entries, or an AttributeError. */
  datatype Lookup = Miss | Hit(entries: seq<CachedEntry>) | NoneHasNoKeys

  /**
   * `load_cached_response` as written (lines 171-195): a truthy `bare_query`
   * returns False at once; for a falsy one a missing file returns False, a
   * file loading as `None` fails on `data.keys()`, and a mapping fails the
   * later guard `self.bare_query and ...`.
   */
  function LoadDecision(bareQuery: Option<string>, file: ResultsFile): Lookup
  {
    if Truthy(bareQuery) then Miss
    else
      match file
      case Missing => Miss
      case Blank => NoneHasNoKeys
      case Document(d) =>
        match (if bareQuery in d then Some(d[bareQuery]) else None)
        case Some(stored) => if Truthy(bareQuery) then Hit(stored) else Miss
        case None => Miss
  }

  /** The lookup never returns True. */
  lemma LoadNeverHits(bareQuery: Option<string>, file: ResultsFile)
    ensures !LoadDecision(bareQuery, file).Hit?
  {
  }

  /** It raises exactly for a falsy query over a file that loads as `None`, and returns False otherwise. */
  lemma LoadRaisesIffBlank(bareQuery: Option<string>, file: ResultsFile)
    ensures LoadDecision(bareQuery, file).NoneHasNoKeys? <==> !Truthy(bareQuery) && file.Blank?
    ensures LoadDecision(bareQuery, file).Miss? <==> Truthy(bareQuery) || !file.Blank?
  {
  }

  /** So a list `cache_response` wrote is never read back under its own key. */
  lemma StoredIsNeverLoaded(file: ResultsFile, key: Option<string>, results: seq<Result>)
    ensures LoadDecision(key, Store(file, key, results)) == Miss
  {
  }

}
