/**
 * The in-memory part of Crud.list in lib/crud.js: before the permission
 * check and the database calls, list derives pagination, sort and search
 * from the caller's query object, clears the control keys from that same
 * object and merges the search filter into it; the object then serves as
 * the database filter. The permission check, the connection and the
 * collection calls are not part of this model.
 */
module Crud {
  import opened Wrappers
  import opened JsValues
  import opened Options

  /** What list hands on to the database calls. */
  datatype ListPlan = ListPlan(pagination: Pagination, sort: Value, search: Props, filter: JsObject)

  /** Crud.list up to the permission check. When getSearch throws, list
      throws before clearQuery runs and the query object is untouched.
      Otherwise the caller's own object has lost its control keys, carries
      the search filter (which overrides a "$or" of its own) and is the
      filter. */
  method ListFilter(query: JsObject, parse: string -> Option<Value>) returns (r: Result<ListPlan>)
    modifies query
    ensures r.Throws? <==> SearchRequested(old(query.props))
                           && ParsedKeywords(Get(old(query.props), "keywords"), parse).None?
    ensures r.Throws? ==> query.props == old(query.props)
    ensures r.Ok? ==> r.value.filter == query
    ensures r.Ok? ==> query.props == Stripped(old(query.props)) + r.value.search
    ensures r.Ok? ==> r.value.search.Keys <= {"$or"}
    ensures r.Ok? ==> r.value.sort == GetSort(old(query.props), parse)
    ensures r.Ok? ==> PaginationOf(old(query.props), r.value.pagination)
    ensures r.Ok? ==> SearchOf(old(query.props), parse, Ok(r.value.search))
    ensures r.Ok? ==> forall k :: k in ControlKeys ==> k !in query.props
    ensures r.Ok? ==> forall k :: k in old(query.props) && k !in ControlKeys && k != "$or" ==>
      k in query.props && query.props[k] == old(query.props)[k]
  {
    var pagination := GetPagination(query.props);
    var sort := GetSort(query.props, parse);
    var search := GetSearch(query.props, parse);
    if search.Throws? {
      return Throws(search.error);
    }

    var filter := ClearQuery(query);
    filter.props := filter.props + search.value;
    r := Ok(ListPlan(pagination, sort, search.value, filter));
  }
}
