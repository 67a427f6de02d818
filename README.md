# Query shaping of lambda-mongo-crud, modelled in Dafny

lambda-mongo-crud is a role-gated CRUD layer over one MongoDB collection.
Before `Crud.list` queries the database, it shapes the request query in memory
with the helpers of `lib/options.js`. This project models those helpers and proves
what they promise:

- `getPagination` turns `page`/`limit` or `from`/`to` into a pagination
  descriptor. Page style wins. With neither style the descriptor is all zero.
- `getSort` passes an object `sort` through unchanged and JSON-parses any other
  `sort`. A parse failure is swallowed and gives `{}`.
- `getSearch` builds `{$or: [...]}`, one case-insensitive `$regex` clause per
  keyword, in keyword order.
- `getPaginationStages` emits an optional `$skip` stage followed by an optional
  `$limit` stage.
- `getPaginatedResponse` builds the envelope of a paginated list, including the
  `show_prev`/`show_next` flags.
- `clearQuery` deletes the seven control keys from the query object in place.

It also models the part of `Crud.list` (lib/crud.js:29-34) that composes these
helpers into the database filter.

Files:

- `wrappers.dfy`: `Option`, and `Result` for code that returns or throws.
- `jsvalues.dfy`: the JavaScript values a query can hold. Also truthiness,
  `typeof … === 'object'`, `ToString` and the global `parseInt`. `parseInt`
  skips leading white space, takes a sign, treats a `0x` prefix as hexadecimal
  and reads the longest run of digits. NaN is `None`, so every comparison with it
  is false.
- `options.dfy`: the six helpers and `DEFAULT_LIMIT_DOC`. `getPagination`,
  `getSearch` and `getPaginationStages` are methods that build their result step
  by step, as the source does; `getSearch` has its `forEach` as a loop with
  invariants. `getSort` and `getPaginatedResponse` are functions. The query
  object is a class `JsObject` whose `props` map `clearQuery` changes in place.
- `crud.dfy`: the filter composition of `Crud.list`.

`JSON.parse` is a parameter, `parse: string -> Option<Value>`. `None` means it
threw a SyntaxError.

Points where the code behaves differently from what a caller might expect, all
modelled as written:

- `clearQuery` mutates the object it is given and returns that same object.
  `Crud.list` hands it the caller's own query. So the caller's query comes back
  without its control keys and with the `$or` search merged in; a caller might
  expect it to work on a private copy.
- A `keywords` string that is not valid JSON makes `getSearch` throw, because
  that `JSON.parse` sits outside the `try`. Only the `forEach` is guarded. A
  parsed value that is not an array makes `forEach` throw inside the `try`, and
  the result is then `{$or: []}`. A caller might expect an empty filter in both
  cases.
- Range-style `from` may be negative, and `projections` is not stripped.
- `show_prev` is `from > 1`. So the second page of one-document pages reports
  no previous page.

## Model

| member | source | states |
|---|---|---|
| `JsValues.ParseIntDecimalPrefix` | lib/options.js:17-33 | parseInt reads back the decimal text of every integer and stops at the first non-digit after it (so "20abc" and "20x" give 20); an "x" right after a lone "0" (or "-0") is the one exception, since it switches to hexadecimal |
| `JsValues.ParseIntOfNum` | lib/options.js:17-33 | parseInt of an integer-valued number is that number |
| `JsValues.ParseIntSkipsWhiteSpace` | lib/options.js:17-33 | leading white space and line terminators never change what parseInt reads |
| `Options.GetPagination` | lib/options.js:3-37 | (as the predicate PaginationOf) isPaginated holds exactly in page style (page truthy and parsing to p > 0). Page style wins and gives page = p, limit = the parsed limit when truthy and > 0, else 20, and from = limit*(p-1) >= 0. Otherwise, when from and to are truthy and parse with from <= to, it gives the parsed from and limit = to - from + 1 >= 1, with page 0. Otherwise it gives exactly {0, 0, 0, false} |
| `Options.PageOffset` | lib/options.js:25 | the offset of a page is never negative |
| `Options.GetSort` | lib/options.js:39-52 | returns {} when sort is falsy and returns an object sort unchanged. Any other truthy sort (a string, a number, true) is JSON-parsed from its ToString, giving the parsed value or {} when parsing fails; for a string that is the string itself. It never throws |
| `Options.GetSearch` | lib/options.js:54-77 | (as the predicate SearchOf) returns {} unless search and keywords are both truthy. A keywords string that does not parse throws SyntaxError. Otherwise the result has the single key "$or" holding an array. For an array k1..kn it is exactly one clause per keyword, in order, clause i mapping ToString(ki) to {$regex: ".*"+search+".*", $options: "i"}. A parsed non-array gives an empty "$or" |
| `Options.GetPaginationStages` | lib/options.js:79-94 | at most two stages. Skip(from) is present iff from != 0, and Limit(limit) is present iff limit != 0. With two stages skip comes first, and every stage is one of those two. A missing pagination gives [] |
| `Options.GetPaginatedResponse` | lib/options.js:96-116 | options copies from/limit/page and total is returned unchanged. results is docs when truthy, else [], so it is always truthy. show_prev iff from > 1, and show_next iff from + limit < total, which is what comparing min(from + limit, total) with total amounts to |
| `Options.PageStyleFlags` | lib/options.js:96-116 | for page p of size l: show_next iff l*p < total, and show_prev iff l*(p-1) > 1 |
| `Options.SecondPageOfOneHasNoPrev` | lib/options.js:113 | page 2 of size 1 (from = 1) reports no previous page |
| `Options.Stripped` | lib/options.js:118-129 | none of page, from, to, limit, keywords, search, sort is left. Every other key, projections included, keeps its value, and no key is added |
| `Options.ClearQuery` | lib/options.js:118-129 | deletes the control keys from the very object passed in and returns that object |
| `Options.StrippedIdempotent` | lib/options.js:118-129 | clearing twice is clearing once |
| `Options.StrippedQueryShapesNothing` | lib/options.js:118-129 | a cleared query asks for no pagination in either style, no sort and no search |
| `Options.FirstPageExample` | lib/options.js:17-29 | {page: "1"} gives {from: 0, limit: 20, page: 1, isPaginated: true} |
| `Options.RangeExample` | lib/options.js:31-34 | {from: "2", to: "4"} gives from 2, limit 3, not paginated |
| `Options.FirstPageResponseExample` | lib/options.js:96-116 | the first page of 20 over 5 documents has show_prev and show_next both false, and aggregates with the single stage $limit: 20 |
| `Options.NegativeRangeExample` | lib/options.js:31-33 | {from: "-5", to: "3"} gives from -5, limit 9, not paginated: nothing keeps a range-style from non-negative |
| `Options.PaginatedListResponseExample` | tests/index.js:143-148 | {page: 1} (a number) over a collection of one document gives an envelope whose results, options and total are truthy, with options {0, 20, 1} and neither flag set |
| `Crud.ListFilter` | lib/crud.js:27-34 | list throws exactly when getSearch throws, and then leaves the query untouched. Otherwise the caller's own object becomes the filter: it is the stripped query merged with the search (whose only possible key is "$or"). It keeps no control key and keeps every other key except a "$or" of its own. The sort is getSort of the original query. The pagination satisfies everything getPagination promises of the original query, and the search everything getSearch promises, so the merged "$or" holds exactly one clause per keyword, in order |

## Left out

- JavaScript numbers are modelled as integers only. The model has no fractions, no NaN or Infinity as query values, and no -0. It also leaves out the loss of precision above 2^53, and the exponent notation that ToString uses from 1e21 up.
- JSON.parse is a parameter of the helpers that call it; its grammar is not modelled.
- The console.log diagnostics in getSort and getSearch are output only. The one in getSort also has an operator-precedence slip, which has no effect on any result.
- `$regex` is only built as a string here; how MongoDB matches it is not modelled.
- Objects are maps. The model does not capture property order, inherited properties, a `__proto__` key, or objects with their own `toString`.
- Options.GetPaginationStages: its argument is a pagination descriptor or nothing. An arbitrary other JavaScript value in that position is not modelled.
- Options.GetPaginatedResponse: total is an integer. A non-numeric count is not modelled.
- lib/crud.js beyond lines 29-34 is not part of this model. That covers the easy-rbac permission check, rbacCatch, MongoClient connections and the get/create/update/delete collection calls, which are all asynchronous calls into libraries not shown here. index.js, the HTTP response envelope, is not part of it either.
- Projections, listAggregate and createdAt/updatedAt stamping do not appear in this version of the code. They are not part of this model.
