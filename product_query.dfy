/** The query rewriting `ProductRepository.find` performs before it hands the
    query to `paginate`: a `search` text becomes a case-insensitive `productName`
    pattern, and `avgRating` / `createdAt` sort directions move from the query
    into `options.sort`. */
module ProductQuery {
  import opened Common

  /** A query value: the text the client sent, or the `RegExp(source, 'i')` built
      from it. */
  datatype QueryValue = Text(text: string) | Pattern(source: string)

  /** JavaScript truthiness: an empty string is falsy, a RegExp object is not. */
  predicate TruthyValue(v: QueryValue) {
    v.Text? ==> v.text != ""
  }

  predicate Present(f: map<string, QueryValue>, key: string) {
    key in f && TruthyValue(f[key])
  }

  function SourceOf(v: QueryValue): string {
    match v
    case Text(t) => t
    case Pattern(p) => p
  }

  /** The caller's query object and `options.sort`, as `find` leaves them. */
  datatype FindState = FindState(filter: map<string, QueryValue>, sort: map<string, int>)

  /** The query object `find` receives and rewrites in place. */
  class ProductFilter {
    var fields: map<string, QueryValue>

    constructor(fields: map<string, QueryValue>)
      ensures this.fields == fields
    {
      this.fields := fields;
    }
  }

  /** The `{ page, limit, sort }` options object handed to `paginate`. */
  class PaginateOptions {
    var page: int
    var limit: int
    var sort: map<string, int>

    constructor(page: int, limit: int, sort: map<string, int>)
      ensures this.page == page && this.limit == limit && this.sort == sort
    {
      this.page, this.limit, this.sort := page, limit, sort;
    }
  }

  /** `if (query.search) { query.productName = new RegExp(query.search, 'i'); delete query.search; }`.
      `searchCompiles` is the `RegExp` constructor's verdict on the search text:
      on a text that is no pattern ("c++", "(") it throws a `SyntaxError`, which
      is no HTTP exception and is answered with status 500; the query is then
      left as it was. */
  function SearchStep(st: FindState, searchCompiles: bool): (r: Result<FindState>)
    ensures r.Err? <==> Present(st.filter, "search") && !searchCompiles
    ensures r.Err? ==> r.error == InternalServerError
    ensures !Present(st.filter, "search") ==> r == Ok(st)
    ensures r.Ok? ==> r.value.sort == st.sort
    ensures r.Ok? && Present(st.filter, "search") ==>
      && "search" !in r.value.filter
      && "productName" in r.value.filter && r.value.filter["productName"] == Pattern(SourceOf(st.filter["search"]))
      && r.value.filter.Keys == st.filter.Keys - {"search"} + {"productName"}
    ensures r.Ok? ==> forall k :: k in st.filter && k != "search" && k != "productName" ==>
      k in r.value.filter && r.value.filter[k] == st.filter[k]
  {
    if Present(st.filter, "search") then
      if !searchCompiles then Err(InternalServerError)
      else Ok(FindState((st.filter - {"search"})["productName" := Pattern(SourceOf(st.filter["search"]))], st.sort))
    else Ok(st)
  }

  /** `'asc'` sorts ascending (1), `'desc'` descending (-1); nothing else is a direction. */
  function SortOrder(v: QueryValue): (r: Option<int>)
    ensures r == Some(1) <==> v == Text("asc")
    ensures r == Some(-1) <==> v == Text("desc")
    ensures r.None? <==> v != Text("asc") && v != Text("desc")
  {
    if v == Text("asc") then Some(1) else if v == Text("desc") then Some(-1) else None
  }

  /** One of the two sort blocks of `find`, for `key` = "avgRating" or "createdAt":
      a truthy value must be a direction, which moves into `options.sort`. */
  function SortStep(st: FindState, key: string): (r: Result<FindState>)
    ensures !Present(st.filter, key) ==> r == Ok(st)
    ensures Present(st.filter, key) && st.filter[key] == Text("asc") ==>
      r.Ok? && r.value.sort == st.sort[key := 1] && r.value.filter == st.filter - {key}
    ensures Present(st.filter, key) && st.filter[key] == Text("desc") ==>
      r.Ok? && r.value.sort == st.sort[key := -1] && r.value.filter == st.filter - {key}
    ensures Present(st.filter, key) && st.filter[key] != Text("asc") && st.filter[key] != Text("desc") ==>
      r == Err(BadRequest)
  {
    if Present(st.filter, key) then
      match SortOrder(st.filter[key])
      case None => Err(BadRequest)
      case Some(o) => Ok(FindState(st.filter - {key}, st.sort[key := o]))
    else Ok(st)
  }

  /** The state `find` leaves behind, and the exception it throws, if any. The
      query is changed in place, so a rejection keeps the rewrites done before it. */
  datatype Rewrite = Rewrite(failure: Option<Error>, state: FindState)

  function RewriteFind(st: FindState, searchCompiles: bool): Rewrite {
    match SearchStep(st, searchCompiles)
    case Err(e) => Rewrite(Some(e), st)
    case Ok(s1) =>
    match SortStep(s1, "avgRating")
    case Err(e) => Rewrite(Some(e), s1)
    case Ok(s2) =>
      match SortStep(s2, "createdAt")
      case Err(e) => Rewrite(Some(e), s2)
      case Ok(s3) => Rewrite(None, s3)
  }

  /** A sort key the client may send: absent, falsy, or a direction. */
  predicate AcceptedSort(f: map<string, QueryValue>, key: string) {
    Present(f, key) ==> SortOrder(f[key]).Some?
  }

  /** `find` fails with status 500, changing nothing, exactly when a truthy
      `search` is no pattern, and otherwise with BadRequest exactly when a truthy
      `avgRating` or `createdAt` is not a direction. When it succeeds both are
      gone from the query, their directions are in `options.sort`, `search` has
      become a `productName` pattern, and every other key of the query is
      untouched. */
  lemma {:induction false} RewriteFindOutcome(st: FindState, searchCompiles: bool)
    ensures var rw := RewriteFind(st, searchCompiles);
      var badSearch := Present(st.filter, "search") && !searchCompiles;
      && (rw.failure.None? <==> !badSearch && AcceptedSort(st.filter, "avgRating") && AcceptedSort(st.filter, "createdAt"))
      && (rw.failure == Some(InternalServerError) <==> badSearch)
      && (badSearch ==> rw.state == st)
      && (rw.failure.Some? && !badSearch ==> rw.failure == Some(BadRequest))
      && (rw.failure.None? ==>
        && (Present(st.filter, "avgRating") ==>
              "avgRating" !in rw.state.filter && rw.state.sort["avgRating"] == SortOrder(st.filter["avgRating"]).value)
        && (Present(st.filter, "createdAt") ==>
              "createdAt" !in rw.state.filter && rw.state.sort["createdAt"] == SortOrder(st.filter["createdAt"]).value)
        && (Present(st.filter, "search") ==>
              "search" !in rw.state.filter && rw.state.filter["productName"] == Pattern(SourceOf(st.filter["search"])))
        && (forall k :: k in st.filter && k !in {"search", "productName", "avgRating", "createdAt"} ==>
              k in rw.state.filter && rw.state.filter[k] == st.filter[k])
        && (forall k :: k in st.sort && k != "avgRating" && k != "createdAt" ==>
              k in rw.state.sort && rw.state.sort[k] == st.sort[k]))
  {
    if Present(st.filter, "search") && !searchCompiles {
      return;
    }
    var s1 := SearchStep(st, searchCompiles).value;
    assert Present(s1.filter, "avgRating") == Present(st.filter, "avgRating");
    assert Present(s1.filter, "avgRating") ==> s1.filter["avgRating"] == st.filter["avgRating"];
    assert Present(s1.filter, "createdAt") == Present(st.filter, "createdAt");
    assert Present(s1.filter, "createdAt") ==> s1.filter["createdAt"] == st.filter["createdAt"];
    match SortStep(s1, "avgRating")
    case Err(e) =>
    case Ok(s2) =>
      assert Present(s2.filter, "createdAt") == Present(st.filter, "createdAt");
      assert Present(s2.filter, "createdAt") ==> s2.filter["createdAt"] == st.filter["createdAt"];
      assert Present(s1.filter, "search") == false;
  }
}
