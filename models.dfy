/**
 * The value types of the package: a script-filter result with its icon,
 * a text snippet, and the plain structures `asdict` turns them into, as a
 * small JSON value type. The decoders here read those structures back;
 * they are the partners the serialisers are proved against.
 */
module Models {
  import opened Wrappers
  import Text

  /** `Result.Icon`; `kind` is the field the source calls `type`. */
  datatype Icon = Icon(path: string, kind: Option<string> := None)

  /** `Result`. The uid comes from `uuid4()` in the source, so here the caller supplies it. */
  datatype Result = Result(
    title: string,
    subtitle: string := "",
    uid: string,
    arg: string := "",
    autocomplete: Option<string> := None,
    icon: Option<Icon> := None)

  /** `Snippet`; the uid comes from `uuid4()` in the source, so here the caller supplies it. */
  datatype Snippet = Snippet(
    snippet: string,
    name: string,
    keyword: string,
    uid: string,
    dontautoexpand: bool := true)

  /** The defaults of the three dataclasses. */
  lemma Defaults(title: string, path: string, body: string, name: string, keyword: string, uid: string)
    ensures var r := Result(title, uid := uid);
      r.title == title && r.subtitle == "" && r.arg == "" && r.autocomplete == None && r.icon == None
    ensures Icon(path).kind == None
    ensures Snippet(body, name, keyword, uid).dontautoexpand
  {
  }

  // ---------------------------------------------------------------------
  // asdict and json.dumps

  /** A JSON value: the shape `asdict` produces and `json.dumps` writes, with object members in insertion order. */
  datatype Json =
    | JNull
    | JBool(b: bool)
    | JString(str: string)
    | JArray(items: seq<Json>)
    | JObject(members: seq<(string, Json)>)

  function OptionalString(o: Option<string>): Json
  {
    match o
    case None => JNull
    case Some(s) => JString(s)
  }

  function IconToDict(i: Icon): Json
  {
    JObject([("path", JString(i.path)), ("type", OptionalString(i.kind))])
  }

  /** `Result.to_dict()`: the fields in declaration order, the icon nested or null. */
  function ToDict(r: Result): Json
  {
    JObject([
      ("title", JString(r.title)),
      ("subtitle", JString(r.subtitle)),
      ("uid", JString(r.uid)),
      ("arg", JString(r.arg)),
      ("autocomplete", OptionalString(r.autocomplete)),
      ("icon", match r.icon case None => JNull case Some(i) => IconToDict(i))])
  }

  function StringOf(j: Json): Option<string>
  {
    match j
    case JString(s) => Some(s)
    case _ => None
  }

  function OptionalStringOf(j: Json): Option<Option<string>>
  {
    match j
    case JNull => Some(None)
    case JString(s) => Some(Some(s))
    case _ => None
  }

  /** Reads an icon object back. */
  function IconFromDict(j: Json): Option<Icon>
  {
    match j
    case JObject(ms) =>
      if |ms| == 2 && ms[0].0 == "path" && ms[1].0 == "type"
         && StringOf(ms[0].1).Some? && OptionalStringOf(ms[1].1).Some?
      then Some(Icon(StringOf(ms[0].1).value, OptionalStringOf(ms[1].1).value))
      else None
    case _ => None
  }

  function OptionalIconOf(j: Json): Option<Option<Icon>>
  {
    match j
    case JNull => Some(None)
    case _ => if IconFromDict(j).Some? then Some(Some(IconFromDict(j).value)) else None
  }

  /** Reads a result object back: the six keys of `to_dict`, in that order. */
  function FromDict(j: Json): Option<Result>
  {
    match j
    case JObject(ms) =>
      if && |ms| == 6
         && ms[0].0 == "title" && ms[1].0 == "subtitle" && ms[2].0 == "uid"
         && ms[3].0 == "arg" && ms[4].0 == "autocomplete" && ms[5].0 == "icon"
         && StringOf(ms[0].1).Some? && StringOf(ms[1].1).Some? && StringOf(ms[2].1).Some?
         && StringOf(ms[3].1).Some? && OptionalStringOf(ms[4].1).Some? && OptionalIconOf(ms[5].1).Some?
      then Some(Result(
        StringOf(ms[0].1).value, StringOf(ms[1].1).value, StringOf(ms[2].1).value,
        StringOf(ms[3].1).value, OptionalStringOf(ms[4].1).value, OptionalIconOf(ms[5].1).value))
      else None
    case _ => None
  }

  /** `to_dict` loses nothing: every field, the icon's path and type included, reads back unchanged. */
  lemma ToDictRoundTrip(r: Result)
    ensures FromDict(ToDict(r)) == Some(r)
  {
    if r.icon.Some? {
      assert IconFromDict(IconToDict(r.icon.value)) == Some(r.icon.value);
    }
  }

  /** Hence two results with the same dictionary are the same result. */
  lemma ToDictInjective(r1: Result, r2: Result)
    ensures ToDict(r1) == ToDict(r2) <==> r1 == r2
  {
    ToDictRoundTrip(r1);
    ToDictRoundTrip(r2);
  }

  function Dicts(results: seq<Result>): seq<Json>
  {
    if results == [] then [] else [ToDict(results[0])] + Dicts(results[1..])
  }

  /** The value `response_with_results` hands to `json.dumps`: `{"items": [to_dict() of each result]}`. */
  function Payload(results: seq<Result>): Json
  {
    JObject([("items", JArray(Dicts(results)))])
  }

  function ResultsOf(items: seq<Json>): Option<seq<Result>>
  {
    if items == [] then Some([])
    else
      match FromDict(items[0])
      case None => None
      case Some(r) =>
        match ResultsOf(items[1..])
        case None => None
        case Some(rest) => Some([r] + rest)
  }

  /** Reads the host's view of a payload back: the `items` array, decoded element by element. */
  function ResultsFromPayload(j: Json): Option<seq<Result>>
  {
    match j
    case JObject(ms) =>
      if |ms| == 1 && ms[0].0 == "items" && ms[0].1.JArray? then ResultsOf(ms[0].1.items) else None
    case _ => None
  }

  lemma {:induction false} DictsRoundTrip(results: seq<Result>)
    ensures ResultsOf(Dicts(results)) == Some(results)
  {
    if results != [] {
      ToDictRoundTrip(results[0]);
      DictsRoundTrip(results[1..]);
      assert Dicts(results)[1..] == Dicts(results[1..]);
      assert results == [results[0]] + results[1..];
    }
  }

  /** The emitted payload lists exactly the results, in order, each with every field intact. */
  lemma PayloadRoundTrip(results: seq<Result>)
    ensures ResultsFromPayload(Payload(results)) == Some(results)
  {
    DictsRoundTrip(results);
  }

  // ---------------------------------------------------------------------
  // Snippet.save

  /** The file name `Snippet.save` writes: `"{name} [{uid}].json"`. */
  function SnippetFileName(s: Snippet): string
  {
    s.name + " [" + s.uid + "].json"
  }

  /** With uids of one length (every `uuid4` string has 36 characters) the file name determines the name and the uid. */
  lemma SnippetFileNameInjective(a: Snippet, b: Snippet)
    requires |a.uid| == |b.uid|
    ensures SnippetFileName(a) == SnippetFileName(b) <==> (a.name == b.name && a.uid == b.uid)
  {
    if SnippetFileName(a) == SnippetFileName(b) {
      var fa, fb := SnippetFileName(a), SnippetFileName(b);
      assert |a.name| == |b.name|;
      assert fa[..|a.name|] == a.name;
      assert fb[..|b.name|] == b.name;
      assert fa[|a.name| + 2..|a.name| + 2 + |a.uid|] == a.uid;
      assert fb[|b.name| + 2..|b.name| + 2 + |b.uid|] == b.uid;
    }
  }

  /** Without that, two different snippets can share a file name. */
  lemma SnippetFileNameCollision()
    ensures exists a: Snippet, b: Snippet :: a.name != b.name && SnippetFileName(a) == SnippetFileName(b)
  {
    var a := Snippet("", "x [y", "", "z");
    var b := Snippet("", "x", "", "y [z");
    assert SnippetFileName(a) == SnippetFileName(b);
  }

  /** The document `Snippet.save` writes: `{"alfredsnippet": asdict(self)}`. */
  function SnippetDocument(s: Snippet): Json
  {
    JObject([("alfredsnippet", JObject([
      ("snippet", JString(s.snippet)),
      ("name", JString(s.name)),
      ("keyword", JString(s.keyword)),
      ("uid", JString(s.uid)),
      ("dontautoexpand", JBool(s.dontautoexpand))]))])
  }

  /** Reads a snippet document back. */
  function SnippetFromDocument(j: Json): Option<Snippet>
  {
    match j
    case JObject(outer) =>
      if |outer| == 1 && outer[0].0 == "alfredsnippet" && outer[0].1.JObject? then
        var ms := outer[0].1.members;
        if && |ms| == 5
           && ms[0].0 == "snippet" && ms[1].0 == "name" && ms[2].0 == "keyword"
           && ms[3].0 == "uid" && ms[4].0 == "dontautoexpand"
           && StringOf(ms[0].1).Some? && StringOf(ms[1].1).Some? && StringOf(ms[2].1).Some?
           && StringOf(ms[3].1).Some? && ms[4].1.JBool?
        then Some(Snippet(StringOf(ms[0].1).value, StringOf(ms[1].1).value,
                          StringOf(ms[2].1).value, StringOf(ms[3].1).value, ms[4].1.b))
        else None
      else None
    case _ => None
  }

  /** The saved document is a single-key object whose fields are exactly the snippet's. */
  lemma SnippetDocumentRoundTrip(s: Snippet)
    ensures SnippetFromDocument(SnippetDocument(s)) == Some(s)
  {
  }

  // ---------------------------------------------------------------------
  // SNIPPET_INFO_TEMPLATE.format(prefix, suffix)

  /** The template's text, cut at its two `{}` fields: the fixed lines around them and the key each one sits under. */
  const InfoPreamble: string :=
    "<?xml version=\"1.0\" encoding=\"UTF-8\"?>\n"
    + "<!DOCTYPE plist PUBLIC \"-//Apple//DTD PLIST 1.0//EN\" \"http://www.apple.com/DTDs/PropertyList-1.0.dtd\">\n"
    + "<plist version=\"1.0\">\n<dict>\n"
  const PrefixKey: string := "\t<key>snippetkeywordprefix</key>\n\t<string>"
  const SuffixKey: string := "\t<key>snippetkeywordsuffix</key>\n\t<string>"
  const CloseString: string := "</string>\n"
  const InfoEnding: string := "</dict>\n</plist>"

  /** The fixed text before the prefix, between prefix and suffix, and after the suffix. */
  const InfoHead: string := InfoPreamble + PrefixKey
  const InfoMiddle: string := CloseString + SuffixKey
  const InfoTail: string := CloseString + InfoEnding

  /** The info.plist of a snippet collection: the template with its two `{}` fields filled, in order. */
  function InfoPlist(prefix: string, suffix: string): string
  {
    InfoHead + prefix + InfoMiddle + suffix + InfoTail
  }

  /** Where the five parts of `head + x + middle + y + tail` sit. */
  lemma FiveParts(head: string, x: string, middle: string, y: string, tail: string)
    ensures var t := head + x + middle + y + tail;
      var a := |head|;
      var b := a + |x| + |middle|;
      && |t| == b + |y| + |tail|
      && t[..a] == head && t[a..a + |x|] == x && t[a + |x|..b] == middle
      && t[b..b + |y|] == y && t[b + |y|..] == tail
  {
    var t := head + x + middle + y + tail;
    assert t == head + (x + (middle + (y + tail)));
    assert t[|head|..] == x + (middle + (y + tail));
    assert t[|head| + |x| + |middle|..] == y + tail;
  }

  lemma SuffixOfConcat(x: string, y: string)
    ensures Text.IsSuffix(y, x + y)
  {
    assert (x + y)[|x|..] == y;
  }

  /**
   * The prefix is the `<string>` value right under the `snippetkeywordprefix`
   * key, the suffix the one right under `snippetkeywordsuffix`, and all other
   * text is fixed.
   */
  lemma InfoPlistLayout(prefix: string, suffix: string)
    ensures var t := InfoPlist(prefix, suffix);
      var a := |InfoHead|;
      var b := a + |prefix| + |InfoMiddle|;
      && |t| == b + |suffix| + |InfoTail|
      && t[..a] == InfoHead && t[a..a + |prefix|] == prefix
      && t[a + |prefix|..b] == InfoMiddle && t[b..b + |suffix|] == suffix
      && t[b + |suffix|..] == InfoTail
    ensures Text.IsSuffix(PrefixKey, InfoHead) && Text.IsSuffix(SuffixKey, InfoMiddle)
    ensures InfoMiddle[..|CloseString|] == CloseString && InfoTail[..|CloseString|] == CloseString
  {
    FiveParts(InfoHead, prefix, InfoMiddle, suffix, InfoTail);
    SuffixOfConcat(InfoPreamble, PrefixKey);
    SuffixOfConcat(CloseString, SuffixKey);
  }

  /** Moving a copy of `middle` from the front of the second field to the end of the first leaves the text unchanged. */
  lemma ShiftAcrossMiddle(head: string, a: string, middle: string, b: string, c: string, tail: string)
    ensures head + a + middle + (b + middle + c) + tail == head + (a + middle + b) + middle + c + tail
  {
  }

  /**
   * `format` escapes nothing, so without equal prefix lengths two different
   * prefix/suffix pairs can fill the template to the same text.
   */
  lemma InfoPlistCollision()
    ensures exists p1: string, s1: string, p2: string, s2: string :: p1 != p2 && InfoPlist(p1, s1) == InfoPlist(p2, s2)
  {
    var p1, s1 := "a", "b" + InfoMiddle + "c";
    var p2, s2 := "a" + InfoMiddle + "b", "c";
    ShiftAcrossMiddle(InfoHead, "a", InfoMiddle, "b", "c", InfoTail);
    assert |p2| > |p1|;
    assert InfoPlist(p1, s1) == InfoPlist(p2, s2);
  }

  /** For prefixes of one length, the filled template determines both the prefix and the suffix. */
  lemma InfoPlistInjective(p1: string, s1: string, p2: string, s2: string)
    requires |p1| == |p2|
    ensures InfoPlist(p1, s1) == InfoPlist(p2, s2) <==> (p1 == p2 && s1 == s2)
  {
    if InfoPlist(p1, s1) == InfoPlist(p2, s2) {
      InfoPlistLayout(p1, s1);
      InfoPlistLayout(p2, s2);
    }
  }

}
