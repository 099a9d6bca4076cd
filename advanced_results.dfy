/**
 * The list-query engine `advancedResults(model, populate)` shared by the
 * bootcamp, course and user routers. From `req.query` it builds the filter
 * (reserved keys removed, comparison operators prefixed with `$`), the
 * projection and sort strings and the page window; it asks the store for the
 * page, and packs the answer as `{success, count, pagination, data}`.
 *
 * The store is abstract: `find` stands for `model.find(filter).select(..).sort(..)`
 * (what records the filter selects, projected and in order) and the
 * collection's size for `model.countDocuments()`.
 */
module AdvancedResults {
  import opened Wrappers
  import opened JsText
  import opened QueryString
  import opened OperatorRewrite
  import opened Paging

  /** The keys the engine reads itself and keeps out of the filter. */
  const RemoveFields: seq<string> := ["select", "sort", "page", "limit"]

  const ReservedKeys: set<string> := set k | k in RemoveFields

  const DefaultSort: string := "-createdAt"

  /** What the engine hands to `find`, `select` and `sort`. */
  datatype Selection = Selection(filter: string, fields: Option<string>, sortBy: string)

  datatype Link = Link(page: int, limit: int)

  datatype Pagination = Pagination(next: Option<Link>, prev: Option<Link>)

  datatype Envelope<R> = Envelope(success: bool, count: int, pagination: Pagination, data: seq<R>)

  /** Why no envelope is produced: a `TypeError` thrown by `split`, or the store refusing the window. */
  datatype Failure = TypeError(param: string) | StoreError(reason: string)

  /** The entries of `q` whose key is not in `ks`, in their order. */
  function FilterOut(q: Query, ks: set<string>): (r: Query)
    ensures forall e :: e in r <==> e in q && e.key !in ks
    ensures DistinctKeys(q) ==> DistinctKeys(r)
  {
    if q == [] then []
    else if q[0].key in ks then FilterOut(q[1..], ks)
    else [q[0]] + FilterOut(q[1..], ks)
  }

  lemma {:induction false} DeleteFilterOut(q: Query, ks: set<string>, k: string)
    ensures Delete(FilterOut(q, ks), k) == FilterOut(q, ks + {k})
  {
    if q != [] {
      DeleteFilterOut(q[1..], ks, k);
      var rest := FilterOut(q[1..], ks);
      if q[0].key !in ks {
        var f := [q[0]] + rest;
        assert FilterOut(q, ks) == f;
        assert f[0] == q[0] && f[1..] == rest;
        if q[0].key == k {
          assert Delete(f, k) == Delete(rest, k);
        } else {
          assert Delete(f, k) == [q[0]] + Delete(rest, k);
        }
      }
    }
  }

  /**
   * `const reqQuery = { ...req.query }` followed by `delete reqQuery[param]`
   * for each reserved key: the filter entries are the query's entries whose key
   * is not reserved, in the query's order.
   */
  method RemoveReserved(query: Query) returns (reqQuery: Query)
    ensures reqQuery == FilterOut(query, ReservedKeys)
    ensures forall e :: e in reqQuery <==> e in query && e.key !in RemoveFields
  {
    reqQuery := query;
    FilterOutNothing(query);
    for i := 0 to |RemoveFields|
      invariant reqQuery == FilterOut(query, FirstReserved(i))
    {
      DeleteFilterOut(query, FirstReserved(i), RemoveFields[i]);
      reqQuery := Delete(reqQuery, RemoveFields[i]);
    }
    assert RemoveFields[..|RemoveFields|] == RemoveFields;
    assert FirstReserved(|RemoveFields|) == ReservedKeys;
  }

  /** The reserved keys deleted by the first `n` turns of the loop. */
  function FirstReserved(n: nat): (ks: set<string>)
    requires n <= |RemoveFields|
    ensures forall k :: k in ks <==> k in RemoveFields[..n]
  {
    if n == 0 then {} else FirstReserved(n - 1) + {RemoveFields[n - 1]}
  }

  lemma {:induction false} FilterOutNothing(q: Query)
    ensures FilterOut(q, {}) == q
  {
    if q != [] {
      FilterOutNothing(q[1..]);
    }
  }

  /** `param.split(",").join(" ")`, or `None` when the parameter is falsy; a non-string has no `split` and throws. */
  function FieldList(v: Option<QValue>, name: string): (r: Result<Option<string>, Failure>)
    ensures r.Err? <==> Truthy(v) && !v.value.Str?
    ensures r == Ok(None) <==> !Truthy(v)
    ensures r.Ok? && r.value.Some? ==>
              && |r.value.value| == |v.value.s|
              && forall i :: 0 <= i < |v.value.s| ==>
                   r.value.value[i] == (if v.value.s[i] == ',' then ' ' else v.value.s[i])
    ensures r.Ok? && r.value.Some? ==> r.value.value == ReplaceChar(v.value.s, ',', ' ')
  {
    if !Truthy(v) then Ok(None)
    else if !v.value.Str? then Err(TypeError(name))
    else
      SplitJoinReplaces(v.value.s, ',', ' ');
      ReplaceCharAt(v.value.s, ',', ' ');
      Ok(Some(Join(Split(v.value.s, ','), " ")))
  }

  /** The sort string: the `sort` list, or `-createdAt` when `sort` is falsy. */
  function SortOrDefault(fields: Option<string>): string {
    match fields
    case Some(f) => f
    case None => DefaultSort
  }

  /** The selection the engine builds from the query, before the store is asked. */
  function Compile(query: Query): (r: Result<Selection, Failure>)
    ensures r.Err? <==> FieldList(Get(query, "select"), "select").Err? || FieldList(Get(query, "sort"), "sort").Err?
    ensures r.Ok? ==> r.value.filter == Rewrite(Stringify(FilterOut(query, ReservedKeys)))
    ensures r.Ok? ==>
              var select := Get(query, "select");
              r.value.fields == (if Truthy(select) then Some(ReplaceChar(select.value.s, ',', ' ')) else None)
    ensures r.Ok? ==>
              var sort := Get(query, "sort");
              r.value.sortBy == (if Truthy(sort) then ReplaceChar(sort.value.s, ',', ' ') else DefaultSort)
  {
    var fields := FieldList(Get(query, "select"), "select");
    var sortBy := FieldList(Get(query, "sort"), "sort");
    if fields.Err? then Err(fields.error)
    else if sortBy.Err? then Err(sortBy.error)
    else
      var filter := Rewrite(Stringify(FilterOut(query, ReservedKeys)));
      Ok(Selection(filter, fields.value, SortOrDefault(sortBy.value)))
  }

  /** `query.populate(populate)`: the relation expansion applied to every fetched record, when supplied. */
  function Expand<R>(populate: Option<R -> R>, records: seq<R>): (r: seq<R>)
    ensures |r| == |records|
    ensures populate.None? ==> r == records
    ensures populate.Some? ==> forall i :: 0 <= i < |records| ==> r[i] == populate.value(records[i])
  {
    match populate
    case None => records
    case Some(f) => seq(|records|, i requires 0 <= i < |records| => f(records[i]))
  }

  /**
   * The middleware itself. `find` is the store's evaluation of the selection,
   * which rejects a query it cannot run (a filter value it cannot cast, such
   * as `averageCost=abc`). `total` is the size of the whole collection, not
   * of the filtered query. `next` and `prev` are set by the two conditions
   * on the window, as written.
   */
  method AdvancedResults<R>(query: Query, collection: seq<R>, find: Selection -> Result<seq<R>, string>,
                            populate: Option<R -> R>)
    returns (out: Result<Envelope<R>, Failure>)
    ensures Compile(query).Err? ==> out == Err(Compile(query).error)
    ensures Compile(query).Ok? ==>
              var page := PageParam(Get(query, "page"));
              var limit := LimitParam(Get(query, "limit"));
              var found := find(Compile(query).value);
              var fetched := if found.Ok? then Fetch(found.value, StartIndex(page, limit), limit) else Err(found.error);
              && (out.Err? <==> found.Err? || StartIndex(page, limit) < 0)
              && (out.Err? ==> out.error == StoreError(fetched.error))
              && (out.Ok? ==>
                    && out.value.success
                    && out.value.count == |out.value.data|
                    && out.value.data == Expand(populate, fetched.value)
                    && out.value.pagination.next
                         == (if EndIndex(page, limit) < |collection| then Some(Link(page + 1, limit)) else None)
                    && out.value.pagination.prev
                         == (if StartIndex(page, limit) > 0 then Some(Link(page - 1, limit)) else None))
  {
    var reqQuery := RemoveReserved(query);
    var queryStr := Stringify(reqQuery);
    queryStr := Rewrite(queryStr);

    var fields := FieldList(Get(query, "select"), "select");
    if fields.Err? {
      return Err(fields.error);
    }
    var sortList := FieldList(Get(query, "sort"), "sort");
    if sortList.Err? {
      return Err(sortList.error);
    }
    var sortBy := DefaultSort;
    if sortList.value.Some? {
      sortBy := sortList.value.value;
    }
    assert Selection(queryStr, fields.value, sortBy) == Compile(query).value;

    var page := PageParam(Get(query, "page"));
    var limit := LimitParam(Get(query, "limit"));
    var startIndex := StartIndex(page, limit);
    var endIndex := EndIndex(page, limit);
    var total := |collection|;

    var found := find(Selection(queryStr, fields.value, sortBy));
    if found.Err? {
      return Err(StoreError(found.error));
    }
    var fetched := Fetch(found.value, startIndex, limit);
    if fetched.Err? {
      return Err(StoreError(fetched.error));
    }
    var results := fetched.value;
    if populate.Some? {
      results := Expand(populate, results);
    }

    var pagination := Pagination(None, None);
    if endIndex < total {
      pagination := pagination.(next := Some(Link(page + 1, limit)));
    }
    if startIndex > 0 {
      pagination := pagination.(prev := Some(Link(page - 1, limit)));
    }

    out := Ok(Envelope(true, |results|, pagination, results));
  }
}
