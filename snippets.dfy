/**
 * `SnippetClient`: an append-only list of snippets and the list of files
 * `package` puts into the `.alfredsnippets` archive.
 */
module Snippets {
  import opened Wrappers
  import opened Models

  /** What one archive member holds. */
  datatype Content = SnippetJson(doc: Json) | InfoText(text: string) | IconCopy(source: string)

  datatype Member = Member(name: string, content: Content)

  /** The archive `package` moves into place: directory, file name and members in the order written. */
  datatype Archive = Archive(directory: string, fileName: string, members: seq<Member>)

  /** The member `Snippet.save` and `zipfile.write(path, path.name)` produce for one snippet. */
  function SnippetMember(s: Snippet): Member
  {
    Member(SnippetFileName(s), SnippetJson(SnippetDocument(s)))
  }

  function InfoMember(prefix: string, suffix: string): Member
  {
    Member("info.plist", InfoText(InfoPlist(prefix, suffix)))
  }

  /** The snippets' files in list order, then info.plist, then icon.png when an icon path is given. */
  function ArchiveFor(snippets: seq<Snippet>, name: string, dst: string, cwd: string,
                      prefix: string, suffix: string, iconPath: string): Archive
  {
    Archive(
      if dst != "" then dst else cwd,
      name + ".alfredsnippets",
      seq(|snippets|, i requires 0 <= i < |snippets| => SnippetMember(snippets[i]))
        + [InfoMember(prefix, suffix)]
        + (if iconPath != "" then [Member("icon.png", IconCopy(iconPath))] else []))
  }

  predicate UniformUids(snippets: seq<Snippet>)
  {
    forall i, j :: 0 <= i < |snippets| && 0 <= j < |snippets| ==> |snippets[i].uid| == |snippets[j].uid|
  }

  predicate DistinctUids(snippets: seq<Snippet>)
  {
    forall i, j :: 0 <= i < j < |snippets| ==> snippets[i].uid != snippets[j].uid
  }

  /**
   * Snippets with distinct uids of one length (as `uuid4` gives) never
   * collide in the archive, even when they share a name: every member name
   * is different. The archive holds one file per snippet plus info.plist and
   * the optional icon, and each snippet file reads back as its snippet.
   */
  lemma ArchiveMembersDistinct(snippets: seq<Snippet>, name: string, dst: string, cwd: string,
                               prefix: string, suffix: string, iconPath: string)
    requires UniformUids(snippets) && DistinctUids(snippets)
    ensures var ms := ArchiveFor(snippets, name, dst, cwd, prefix, suffix, iconPath).members;
      && |ms| == |snippets| + 1 + (if iconPath != "" then 1 else 0)
      && (forall i, j :: 0 <= i < j < |ms| ==> ms[i].name != ms[j].name)
      && (forall i :: 0 <= i < |snippets| ==> SnippetFromDocument(ms[i].content.doc) == Some(snippets[i]))
      && ms[|snippets|] == InfoMember(prefix, suffix)
  {
    var ms := ArchiveFor(snippets, name, dst, cwd, prefix, suffix, iconPath).members;
    forall i | 0 <= i < |snippets|
      ensures SnippetFromDocument(ms[i].content.doc) == Some(snippets[i])
      ensures ms[i].name[|ms[i].name| - 1] == 'n'
    {
      SnippetDocumentRoundTrip(snippets[i]);
    }
    forall i, j | 0 <= i < j < |ms|
      ensures ms[i].name != ms[j].name
    {
      if j < |snippets| {
        SnippetFileNameInjective(snippets[i], snippets[j]);
      } else if i < |snippets| {
        assert ms[j].name[|ms[j].name| - 1] != 'n';
      }
    }
  }

  class SnippetClient {
    var snippets: seq<Snippet>

    constructor ()
      ensures snippets == []
    {
      snippets := [];
    }

    /** `insert_snippet`: appends one snippet with the default `dontautoexpand`. */
    method InsertSnippet(snippet: string, name: string, keyword: string, uid: string)
      modifies this
      ensures snippets == old(snippets) + [Snippet(snippet, name, keyword, uid)]
    {
      snippets := snippets + [Snippet(snippet, name, keyword, uid)];
    }

    /** `package`: the archive and the files it is built from, without the file system. */
    method Package(name: string, dst: string, cwd: string, prefix: string, suffix: string, iconPath: string)
      returns (archive: Archive)
      ensures archive == ArchiveFor(snippets, name, dst, cwd, prefix, suffix, iconPath)
    {
      var info := InfoMember(prefix, suffix);
      var members: seq<Member> := [];
      var i := 0;
      while i < |snippets|
        invariant 0 <= i <= |snippets|
        invariant |members| == i
        invariant forall k :: 0 <= k < i ==> members[k] == SnippetMember(snippets[k])
      {
        members := members + [SnippetMember(snippets[i])];
        i := i + 1;
      }
      members := members + [info];
      if iconPath != "" {
        members := members + [Member("icon.png", IconCopy(iconPath))];
      }
      var destination := if dst != "" then dst else cwd;
      archive := Archive(destination, name + ".alfredsnippets", members);
    }
  }

}
