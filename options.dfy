/**
 * The query-shaping helpers of lib/options.js: they read the control keys
 * of a request query (page, limit, from, to, sort, search, keywords) and
 * build a pagination descriptor, a sort spec, a search filter, the skip and
 * limit stages of an aggregation, the paginated response envelope, and
 * strip the control keys from the query object in place.
 *
 * JSON.parse is not modelled; every helper that calls it takes it as the
 * parameter `parse`, whose None result stands for a thrown SyntaxError.
 */
module Options {
  import opened Wrappers
  import opened JsValues

  /** Page size used when page-style pagination gives no usable limit. */
  const DefaultLimitDoc: int := 20

  /** The keys clearQuery deletes. `projections` is not among them. */
  const ControlKeys: set<string> := {"page", "from", "to", "limit", "keywords", "search", "sort"}

  /** The object getPagination returns. */
  datatype Pagination = Pagination(from: int, limit: int, page: int, isPaginated: bool)

  /** The "$skip" and "$limit" aggregation stages. */
  datatype Stage = Skip(skip: int) | Limit(limit: int)

  /** The `options` part of a paginated response. */
  datatype PageOptions = PageOptions(from: int, limit: int, page: int)

  /** The object getPaginatedResponse returns. */
  datatype PaginatedResponse = PaginatedResponse(
    options: PageOptions,
    results: Value,
    total: int,
    showPrev: bool,
    showNext: bool)

  // ---------------------------------------------------------------------
  // JavaScript comparisons with a parseInt result: NaN compares false.

  predicate Greater(x: Option<int>, k: int) {
    x.Some? && x.value > k
  }

  predicate AtMost(x: Option<int>, y: Option<int>) {
    x.Some? && y.Some? && x.value <= y.value
  }

  // ---------------------------------------------------------------------
  // getPagination

  /** `query[key] && parseInt(query[key]) > 0` */
  predicate PositiveParam(query: Props, key: string) {
    Truthy(Get(query, key)) && Greater(ParseInt(Get(query, key)), 0)
  }

  /** The condition of page-style pagination. */
  predicate PageStyle(query: Props) {
    PositiveParam(query, "page")
  }

  /** The condition of range-style pagination. */
  predicate RangeStyle(query: Props) {
    && Truthy(Get(query, "from"))
    && Truthy(Get(query, "to"))
    && AtMost(ParseInt(Get(query, "from")), ParseInt(Get(query, "to")))
  }

  /** What getPagination promises of its result: page-style wins over
      range-style; with neither, nothing is paginated and the descriptor is
      all zero. */
  predicate PaginationOf(query: Props, pag: Pagination) {
    && (pag.isPaginated <==> PageStyle(query))
    && (PageStyle(query) ==>
          && pag.page == ParseInt(Get(query, "page")).value
          && pag.page >= 1
          && pag.limit == (if PositiveParam(query, "limit") then ParseInt(Get(query, "limit")).value
                           else DefaultLimitDoc)
          && pag.limit >= 1
          && pag.from == pag.limit * (pag.page - 1)
          && pag.from >= 0)
    && (!PageStyle(query) && RangeStyle(query) ==>
          && pag.from == ParseInt(Get(query, "from")).value
          && pag.limit == ParseInt(Get(query, "to")).value - pag.from + 1
          && pag.limit >= 1
          && pag.page == 0)
    && (!PageStyle(query) && !RangeStyle(query) ==> pag == Pagination(0, 0, 0, false))
  }

  method GetPagination(query: Props) returns (pag: Pagination)
    ensures PaginationOf(query, pag)
  {
    pag := Pagination(0, 0, 0, false);

    if PositiveParam(query, "page") {
      pag := pag.(page := ParseInt(Get(query, "page")).value);

      var numDoc := DefaultLimitDoc;
      if PositiveParam(query, "limit") {
        numDoc := ParseInt(Get(query, "limit")).value;
      }

      pag := pag.(from := numDoc * (pag.page - 1));
      pag := pag.(limit := numDoc);
      pag := pag.(isPaginated := true);
      PageOffset(numDoc, pag.page);
    } else if RangeStyle(query) {
      pag := pag.(from := ParseInt(Get(query, "from")).value);
      pag := pag.(limit := ParseInt(Get(query, "to")).value - pag.from + 1);
    }
  }

  /** The first index of page p (counting from 1) of size l is not negative. */
  lemma PageOffset(l: int, p: int)
    requires l >= 1 && p >= 1
    ensures l * (p - 1) >= 0
  {
  }

  // ---------------------------------------------------------------------
  // getSort

  /** A present sort is used as it is when it is already an object, and is
      JSON-parsed otherwise; a parse failure is caught and leaves the empty
      spec. getSort never throws. */
  function GetSort(query: Props, parse: string -> Option<Value>): (r: Value)
    ensures !Truthy(Get(query, "sort")) ==> r == Obj(map[])
    ensures Truthy(Get(query, "sort")) && IsTypeofObject(Get(query, "sort")) ==> r == Get(query, "sort")
    ensures Truthy(Get(query, "sort")) && !IsTypeofObject(Get(query, "sort")) ==>
      r == (if parse(ToString(Get(query, "sort"))).Some? then parse(ToString(Get(query, "sort"))).value
            else Obj(map[]))
    ensures Get(query, "sort").Str? && Get(query, "sort").s != "" ==>
      r == (if parse(Get(query, "sort").s).Some? then parse(Get(query, "sort").s).value else Obj(map[]))
  {
    var sort := Get(query, "sort");
    if !Truthy(sort) then Obj(map[])
    else if IsTypeofObject(sort) then sort
    else
      match parse(ToString(sort))
      case Some(v) => v
      case None => Obj(map[])
  }

  // ---------------------------------------------------------------------
  // getSearch

  /** The condition `query.search && query.keywords`. */
  predicate SearchRequested(query: Props) {
    Truthy(Get(query, "search")) && Truthy(Get(query, "keywords"))
  }

  /** A string list of keywords is JSON-parsed; anything else is used as it is. */
  function ParsedKeywords(keywords: Value, parse: string -> Option<Value>): Option<Value> {
    if keywords.Str? then parse(keywords.s) else Some(keywords)
  }

  /** The clause for one keyword: the field named by the keyword must match
      ".*<search>.*" case-insensitively. */
  function Clause(keyword: Value, search: Value): Value {
    Obj(map[ToString(keyword) := Obj(map[
      "$regex" := Str(".*" + ToString(search) + ".*"),
      "$options" := Str("i")])])
  }

  /** What getSearch promises: one clause per keyword, in order, under
      "$or". A string of keywords that does not parse throws: that parse is
      outside the try. A parsed value that is not an array makes forEach
      throw inside the try, so no clause is pushed and the "$or" list is
      empty. */
  predicate SearchOf(query: Props, parse: string -> Option<Value>, r: Result<Props>) {
    var keywords := ParsedKeywords(Get(query, "keywords"), parse);
    && (!SearchRequested(query) ==> r == Ok(map[]))
    && (SearchRequested(query) && keywords.None? ==>
          r == Throws(SyntaxError(Get(query, "keywords").s)))
    && (SearchRequested(query) && keywords.Some? ==>
          && r.Ok?
          && r.value.Keys == {"$or"}
          && r.value["$or"].Arr?)
    && (SearchRequested(query) && keywords.Some? && !keywords.value.Arr? ==>
          r == Ok(map["$or" := Arr([])]))
    && (SearchRequested(query) && keywords.Some? && keywords.value.Arr? ==>
          && r.Ok? && "$or" in r.value && r.value["$or"].Arr?
          && |r.value["$or"].items| == |keywords.value.items|
          && forall i :: 0 <= i < |keywords.value.items| ==>
               r.value["$or"].items[i] == Clause(keywords.value.items[i], Get(query, "search")))
  }

  method GetSearch(query: Props, parse: string -> Option<Value>) returns (r: Result<Props>)
    ensures SearchOf(query, parse, r)
  {
    var search := Get(query, "search");
    var keywordsParam := Get(query, "keywords");
    if !(Truthy(search) && Truthy(keywordsParam)) {
      return Ok(map[]);
    }

    var keywords: seq<Value> := [];
    var parsedKeywords: Value;
    if keywordsParam.Str? {
      var parsed := parse(keywordsParam.s);
      if parsed.None? {
        return Throws(SyntaxError(keywordsParam.s));
      }
      parsedKeywords := parsed.value;
    } else {
      parsedKeywords := keywordsParam;
    }

    if parsedKeywords.Arr? {
      var ks := parsedKeywords.items;
      var i := 0;
      while i < |ks|
        invariant 0 <= i <= |ks|
        invariant |keywords| == i
        invariant forall j :: 0 <= j < i ==> keywords[j] == Clause(ks[j], search)
      {
        keywords := keywords + [Clause(ks[i], search)];
        i := i + 1;
      }
    }

    r := Ok(map["$or" := Arr(keywords)]);
  }

  // ---------------------------------------------------------------------
  // getPaginationStages

  /** At most one "$skip" stage, present iff from is nonzero, then at most
      one "$limit" stage, present iff limit is nonzero. A missing pagination
      gives no stage. */
  method GetPaginationStages(pagination: Option<Pagination>) returns (stages: seq<Stage>)
    ensures pagination.None? ==> stages == []
    ensures |stages| <= 2
    ensures pagination.Some? ==> (Skip(pagination.value.from) in stages <==> pagination.value.from != 0)
    ensures pagination.Some? ==> (Limit(pagination.value.limit) in stages <==> pagination.value.limit != 0)
    ensures forall i :: 0 <= i < |stages| ==>
      pagination.Some? && stages[i] in [Skip(pagination.value.from), Limit(pagination.value.limit)]
    ensures |stages| == 2 ==> stages[0].Skip? && stages[1].Limit?
  {
    stages := [];

    if pagination.Some? && pagination.value.from != 0 {
      stages := stages + [Skip(pagination.value.from)];
    }
    if pagination.Some? && pagination.value.limit != 0 {
      stages := stages + [Limit(pagination.value.limit)];
    }
  }

  // ---------------------------------------------------------------------
  // getPaginatedResponse

  /** The envelope of a paginated list: the window is copied into options,
      results fall back to an empty array, there is a previous page when
      from exceeds 1 and a next page when the clipped window end
      min(from + limit, total) falls short of total. */
  function GetPaginatedResponse(docs: Value, pagination: Pagination, total: int): (r: PaginatedResponse)
    ensures r.options == PageOptions(pagination.from, pagination.limit, pagination.page)
    ensures r.total == total
    ensures Truthy(docs) ==> r.results == docs
    ensures !Truthy(docs) ==> r.results == Arr([])
    ensures Truthy(r.results)
    ensures r.showPrev <==> pagination.from > 1
    ensures r.showNext <==> pagination.from + pagination.limit < total
  {
    var to := pagination.from + pagination.limit;
    var to := if to > total then total else to;
    PaginatedResponse(
      PageOptions(pagination.from, pagination.limit, pagination.page),
      if Truthy(docs) then docs else Arr([]),
      total,
      pagination.from > 1,
      to < total)
  }

  /** For page p of size l there is a next page exactly when the first p
      pages hold fewer than total documents, and a previous page exactly
      when the preceding pages hold more than one document. */
  lemma PageStyleFlags(docs: Value, l: int, p: int, total: int)
    requires l >= 1 && p >= 1
    ensures GetPaginatedResponse(docs, Pagination(l * (p - 1), l, p, true), total).showNext <==> l * p < total
    ensures GetPaginatedResponse(docs, Pagination(l * (p - 1), l, p, true), total).showPrev <==> l * (p - 1) > 1
  {
    assert l * (p - 1) + l == l * p;
  }

  /** Because the boundary is from > 1, the second page of one-document pages
      reports no previous page although the first exists. */
  lemma SecondPageOfOneHasNoPrev(docs: Value, total: int)
    ensures !GetPaginatedResponse(docs, Pagination(1, 1, 2, true), total).showPrev
  {
  }

  // ---------------------------------------------------------------------
  // clearQuery

  /** The mutable request-query object. */
  class JsObject {
    var props: Props

    constructor (props: Props)
      ensures this.props == props
    {
      this.props := props;
    }
  }

  /** The query's properties once the control keys are gone. */
  function Stripped(m: Props): (r: Props)
    ensures forall k :: k in ControlKeys ==> k !in r
    ensures forall k :: k in r <==> k in m && k !in ControlKeys
    ensures forall k :: k in r ==> r[k] == m[k]
  {
    m - ControlKeys
  }

  /** clearQuery deletes the seven control keys from the very object it is
      given and returns that object. */
  method ClearQuery(query: JsObject) returns (r: JsObject)
    modifies query
    ensures r == query
    ensures query.props == Stripped(old(query.props))
  {
    query.props := query.props - {"page"};
    query.props := query.props - {"from"};
    query.props := query.props - {"to"};
    query.props := query.props - {"limit"};
    query.props := query.props - {"keywords"};
    query.props := query.props - {"search"};
    query.props := query.props - {"sort"};
    r := query;
  }

  /** Clearing a query a second time changes nothing. */
  lemma StrippedIdempotent(m: Props)
    ensures Stripped(Stripped(m)) == Stripped(m)
  {
  }

  /** A cleared query asks for no shaping at all: no pagination, an empty
      sort and no search. */
  lemma StrippedQueryShapesNothing(m: Props, parse: string -> Option<Value>)
    ensures !PageStyle(Stripped(m)) && !RangeStyle(Stripped(m))
    ensures GetSort(Stripped(m), parse) == Obj(map[])
    ensures !SearchRequested(Stripped(m))
  {
  }

  // ---------------------------------------------------------------------
  // Worked cases

  /** parseInt of a one-digit string. */
  lemma ParseIntDigit(d: nat)
    requires d < 10
    ensures ParseInt(Str([DigitChar(d)])) == Some(d)
  {
    ParseIntDecimalPrefix(d, "");
    assert IntToString(d) + "" == [DigitChar(d)];
  }

  /** `{page: "1"}` gives the first page of the default size. */
  method FirstPageExample() returns (pag: Pagination)
    ensures pag == Pagination(0, 20, 1, true)
  {
    ParseIntDigit(1);
    assert DigitChar(1) == '1';
    pag := GetPagination(map["page" := Str("1")]);
  }

  /** `{from: "2", to: "4"}` gives the window of three documents from 2. */
  method RangeExample() returns (pag: Pagination)
    ensures pag == Pagination(2, 3, 0, false)
  {
    ParseIntDigit(2);
    ParseIntDigit(4);
    assert DigitChar(2) == '2' && DigitChar(4) == '4';
    pag := GetPagination(map["from" := Str("2"), "to" := Str("4")]);
  }

  /** The first page of 20 over 5 documents has neither neighbour, and
      aggregates with a single "$limit" stage. */
  method FirstPageResponseExample(docs: Value) returns (response: PaginatedResponse, stages: seq<Stage>)
    ensures !response.showPrev && !response.showNext
    ensures stages == [Limit(20)]
  {
    var first := FirstPageExample();
    response := GetPaginatedResponse(docs, first, 5);
    stages := GetPaginationStages(Some(first));
    assert Skip(0) !in stages && Limit(20) in stages;
    assert |stages| == 1;
  }

  /** Nothing keeps a range-style window from starting before 0:
      `{from: "-5", to: "3"}` gives from -5 and limit 9. */
  method NegativeRangeExample() returns (pag: Pagination)
    ensures pag == Pagination(-5, 9, 0, false)
  {
    ParseIntDecimalPrefix(-5, "");
    assert IntToString(-5) + "" == "-5";
    ParseIntDigit(3);
    assert DigitChar(3) == '3';
    pag := GetPagination(map["from" := Str("-5"), "to" := Str("3")]);
  }

  /** The paginated list of the integration test: `{page: 1}` (a number)
      over a collection holding one document gives an envelope whose
      results, options and total are all truthy. */
  method PaginatedListResponseExample(docs: Value) returns (response: PaginatedResponse)
    ensures Truthy(response.results)
    ensures response.options == PageOptions(0, 20, 1)
    ensures response.total == 1 && Truthy(Num(response.total))
    ensures !response.showPrev && !response.showNext
  {
    ParseIntOfNum(1);
    var pag := GetPagination(map["page" := Num(1)]);
    response := GetPaginatedResponse(docs, pag, 1);
  }
}
