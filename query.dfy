/**
 * How `WorkflowClient.__init__` reads the invocation argument. Pagination
 * is written as `+` characters typed after the query: each one asks for
 * one more page.
 */
module Query {
  import opened Wrappers
  import opened Text

  /** The three attributes derived from `sys.argv`: `bare_query`, `query` and `page_count`. */
  datatype Parsed = Parsed(bareQuery: Option<string>, query: Option<string>, pageCount: nat)

  /**
   * With an argument, `bare_query` is that argument, `page_count` is one more
   * than its number of `+`, and `query` is the argument with every `+` gone
   * and every other character kept. Without one, both strings are None and
   * `page_count` is 0, not 1.
   */
  function ParseArgv(argv: seq<string>): (p: Parsed)
    ensures p.bareQuery.Some? <==> |argv| > 1
    ensures p.query.Some? <==> |argv| > 1
    ensures p.pageCount == 0 <==> |argv| <= 1
    ensures |argv| > 1 ==> p.bareQuery.value == argv[1]
    ensures |argv| > 1 ==> p.pageCount == multiset(argv[1])['+'] + 1
    ensures |argv| > 1 ==> p.query.value == RemoveAll(argv[1], '+')
    ensures |argv| > 1 ==> '+' !in p.query.value
    ensures |argv| > 1 ==> |p.query.value| == |argv[1]| - (p.pageCount - 1)
    ensures |argv| > 1 ==> multiset(p.query.value) == multiset(argv[1])['+' := 0]
  {
    if |argv| > 1 then
      var bare := argv[1];
      CountIsMultiplicity(bare, '+');
      RemoveAllContents(bare, '+');
      Parsed(Some(bare), Some(RemoveAll(bare, '+')), Count(bare, '+') + 1)
    else
      Parsed(None, None, 0)
  }

}
