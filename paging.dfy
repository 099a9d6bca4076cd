/**
 * Paging of the list-query engine: `page` and `limit` read with
 * `parseInt(..., 10) || default`, the skip/end window, and the store's
 * skip/limit applied to the records the query selected.
 */
module Paging {
  import opened Wrappers
  import opened QueryString
  import opened IntParsing

  const DefaultPage: int := 1
  const DefaultLimit: int := 25

  /** `parseInt(req.query.page, 10) || 1`. */
  function PageParam(v: Option<QValue>): (page: int)
    ensures page != 0
  {
    IntOr(ParseInt(ToJsString(v)), DefaultPage)
  }

  /** `parseInt(req.query.limit, 10) || 25`. */
  function LimitParam(v: Option<QValue>): (limit: int)
    ensures limit != 0
  {
    IntOr(ParseInt(ToJsString(v)), DefaultLimit)
  }

  /** The number of records skipped: `(page - 1) * limit`. */
  function StartIndex(page: int, limit: int): int {
    (page - 1) * limit
  }

  /** One past the last record of the page: `page * limit`. */
  function EndIndex(page: int, limit: int): int {
    page * limit
  }

  /** The page ends `limit` records after it starts. */
  lemma EndIsStartPlusLimit(page: int, limit: int)
    ensures EndIndex(page, limit) == StartIndex(page, limit) + limit
  {
  }

  /** For a positive limit, a page has records before it exactly when it is not the first. */
  lemma PrevIffLaterPage(page: int, limit: int)
    requires limit >= 1
    ensures StartIndex(page, limit) > 0 <==> page > 1
  {
    if page > 1 {
      assert (page - 1) * limit >= limit;
    } else {
      assert (page - 1) * limit <= 0 by { assert (1 - page) * limit >= 0; }
    }
  }

  /**
   * MongoDB's `skip(n).limit(m)` on the selected records: a negative skip is
   * refused by the store, a negative limit returns at most `-m` records, and a
   * limit of 0 means no limit.
   */
  function Fetch<R>(selected: seq<R>, skip: int, limit: int): (r: Result<seq<R>, string>)
    ensures r.Ok? <==> skip >= 0
    ensures r.Ok? && limit != 0 ==> |r.value| <= (if limit < 0 then -limit else limit)
    ensures r.Ok? && skip <= |selected| ==> r.value <= selected[skip..]
    ensures r.Ok? && skip >= |selected| ==> r.value == []
    ensures r.Ok? && limit > 0 && skip + limit <= |selected| ==> |r.value| == limit
  {
    if skip < 0 then Err("skip value must be non-negative")
    else if skip >= |selected| then Ok([])
    else
      var n := if limit < 0 then -limit else limit;
      var end := if limit == 0 || skip + n > |selected| then |selected| else skip + n;
      Ok(selected[skip..end])
  }

  /**
   * How many records a successful fetch returns: all that remain after the
   * skip when the limit is 0, otherwise `|limit|` of them or as many as
   * remain, whichever is fewer. With the prefix property of `Fetch` this fixes
   * the result.
   */
  lemma FetchCount<R>(selected: seq<R>, skip: int, limit: int)
    requires skip >= 0
    ensures var remaining := if skip < |selected| then |selected| - skip else 0;
            var bound := if limit < 0 then -limit else limit;
            |Fetch(selected, skip, limit).value| == (if limit == 0 || remaining < bound then remaining else bound)
  {
  }

  /** The last page holds what remains, and a negative limit takes that many from the front. */
  lemma FetchExamples<R>(a: R, b: R, c: R)
    ensures Fetch([a, b, c], 2, 25) == Ok([c])
    ensures Fetch([a, b, c], 0, -2) == Ok([a, b])
    ensures Fetch([a, b, c], 1, 0) == Ok([b, c])
  {
    var s := [a, b, c];
    assert s[2..3] == [c];
    assert s[0..2] == [a, b];
    assert s[1..3] == [b, c];
  }

  /** The parameters read back any integer written in decimal; text without digits and 0 fall back. */
  lemma ParamsReadDecimal(n: int)
    ensures PageParam(Some(Str(IntString(n)))) == (if n == 0 then DefaultPage else n)
    ensures LimitParam(Some(Str(IntString(n)))) == (if n == 0 then DefaultLimit else n)
    ensures PageParam(None) == DefaultPage && LimitParam(None) == DefaultLimit
  {
    ParseIntOfIntString(n, "");
    assert IntString(n) + "" == IntString(n);
    assert ToJsString(Some(Str(IntString(n)))) == IntString(n);
    UndefinedIsNaN();
  }

}
