# elastic-sql, modelled in Dafny

This project models the core of `zxdstyle/elastic-sql`, a PHP query builder for
Elasticsearch. The core has four parts:

- **`Query`** holds the builder state: index, type, limit, offset, wheres, columns,
  orders and aggs. Its `where` turns a loosely typed call into one predicate record.
- **`Engine`** walks a fixed table of aspects. It builds the request body from the
  aspects that are present, then shapes it for create, update, delete or search.
- **`Elastic`** is the facade. It runs an operation through the transport client,
  checks the `result` status, and translates the client's conflict and not-found
  signals into the library's own exceptions. After a call returns, it replaces its
  query with a fresh one.
- **`Result` and `Paginator`** read a search response: hits, total hits, shards, took,
  timed-out and aggregations.

The project has three files:

- `php.dfy`
  - Module `Php` holds the PHP values the library handles: null, booleans,
    integers, strings, and ordered arrays with integer or string keys. It also holds
    the array operations the source relies on: reading a key, `$a[$k] = $x`,
    `$a[] = $x`, `unset`, `array_merge`, truthiness and `(string)`.
  - Module `Exceptions` holds the exceptions and the `Outcome` (value or thrown
    exception) every operation returns.
- `elastic_sql.dfy` (module `ElasticSql`) holds `Query`, `Engine` and `Elastic`. They
  refer to each other, so they share one module.
- `supports.dfy` (module `Supports`) holds `Result`. `Paginator` is the same class with
  `isPaginator` set; it differs only in `toArray`.

How the model treats the parts it cannot see:

- **Transport client.** It is a function parameter `Transport`. It maps a client
  method name and the request to a reply or a thrown exception.
- **Per-aspect compilers** (`resolveColumns`, `resolveWheres`, …). They are the
  function constant `Engine.compileAspect`, which may return a value or throw.
- **`resolve`'s foreach loop.** It is a method (`Engine.Resolve`). It is proved equal
  to `Walk` over the per-entry outcomes (`Engine.Steps`), and the properties of
  `resolve` are lemmas about `Walk`.
- **`getHits`' by-reference loop.** It is handled the same way: `FormatEach` is
  proved equal to `Collect` over the per-hit outcomes (`Formats`).
- **Exceptions of the library's own classes** (`InvalidArgumentException` and the
  others). They are taken to extend `ElasticException`, so `resolve` catches them.
  That is why `get('scroll')` is skipped. The classes themselves are not part of this
  model.

Two behaviours of the code worth knowing:

- The code raises no error when no index is set: `resolve` omits an empty index.
- An unexpected `result` status raises `RunTimeException` ("Create error",
  "Update error", "Delete error").

## Model

| member | source | states |
|---|---|---|
| Php.Put | src/Elastic.php:93-94 | `$a[$k] = $x`: the key then reads `$x`, and every other key reads as before |
| Php.KeyCast | src/Query.php:120 | a boolean or integer used as an array key is an integer key, and a string stays a string key |
| Php.EmptyValues | src/Engine.php:77 | `empty()` holds for exactly null, false, 0, `""`, `"0"` and `[]` |
| Php.IntStringRoundTrip | src/Query.php:159 | `(string)` of an integer is an integer numeric string, and converts back to the integer |
| Php.NatDigits | src/Query.php:159 | the decimal notation of a natural number is digits only, and reads back as the number |
| Php.KeysAt | src/Supports/Paginator.php:13-19 | an array's keys are read off its slots in order |
| Php.Append | src/Query.php:122 | `$a[] = $x` keeps the array as a prefix and adds `$x` under a fresh integer key |
| Php.Remove | src/Engine.php:55 | `unset`: the key is gone, and every other key and entry is kept |
| Php.MergeDisjoint | src/Engine.php:36-39 | `array_merge` of string-keyed arrays with no shared key lays them end to end |
| Php.MergeIntoFindString | src/Supports/Result.php:139-142 | after `array_merge`, a string key reads from the later array when it has the key, and from the earlier one otherwise |
| ElasticSql.OperatorNames | src/Query.php:46-53 | the operator table maps `=`, `>`, `>=`, `<`, `<=`, `!=` to `eq`, `gt`, `gte`, `lt`, `lte`, `ne` |
| ElasticSql.UnknownOperator | src/Query.php:120 | any other operator reads as null from the table |
| ElasticSql.Lookup | src/Query.php:113-114 | `$this->operators[$op]` reads the table's value for the operator's key, and null when the table lacks it |
| ElasticSql.FindEach | src/Query.php:120 | in an array with distinct keys, a key reads the value of its slot |
| ElasticSql.RangeOperatorInArray | src/Query.php:107 | the ordering-operator test is `in_array` over `['>=', '>', '<=', '<']` under PHP 8's loose `==`, so `true` matches too and integers, null, false and arrays never do |
| ElasticSql.RangeBounds | src/Query.php:111-116 | a range value becomes `{gte: v[0], lte: v[1]}` |
| ElasticSql.NormalizeWhere | src/Query.php:99-120 | the record keeps column and boolean. With two arguments, the second is the value and the operator is `=`. An array in the operator slot becomes the value, with a null operator. An ordering operator forces leaf `range`. A truthy operator is looked up in the table |
| ElasticSql.WhereTwoArguments | src/Query.php:99-101 | `where($c, $v)` stores an `eq` term on `$v` with boolean `and` |
| ElasticSql.WhereRange | src/Query.php:107-116 | an ordering operator yields leaf `range`, an operator name among gte/gt/lte/lt, and `{gte, lte}` bounds for an array value |
| ElasticSql.AppendTo | src/Query.php:122-129 | appending to `wheres` keeps every earlier record in order and adds the new record last. Null or false become a one-record array; any other scalar is an error |
| ElasticSql.Query.constructor | src/Query.php:55-60 | a new query holds the given engine and client, a null index, type, limit and offset, and empty wheres, columns, orders and aggs |
| ElasticSql.Query.Get | src/Query.php:184-192 | an undeclared name throws InvalidArgumentException. Each declared name yields its own property: the engine, the client, or the stored value of index, type, limit, offset, wheres, columns, orders, aggs or operators |
| ElasticSql.Query.Set | src/Query.php:168-177 | an undeclared name throws and changes nothing. Otherwise `get` of that name yields the argument, and every other name reads as before |
| ElasticSql.Query.Index | src/Query.php:67-70 | the index is the given string, and no other property changes |
| ElasticSql.Query.Type | src/Query.php:77-80 | the type is the given string, and no other property changes |
| ElasticSql.Query.Limit | src/Query.php:87-90 | the limit is the given integer, and no other property changes |
| ElasticSql.Query.Where | src/Query.php:92-132 | exactly one normalised record is appended to `wheres`, and every other property is unchanged |
| ElasticSql.Query.NewQuery | src/Query.php:155-160 | a fresh query with the same engine and client, index and type string-cast (unset becomes `""`), everything else cleared |
| ElasticSql.WireKeys | src/Engine.php:12-22 | the table's wire keys are strings and pairwise different. The one entry written without a key is `aggs`, and it is stored under `aggs` |
| ElasticSql.WalkRanked | src/Engine.php:73-85 | the walk adds keys in table order |
| ElasticSql.WalkStores | src/Engine.php:81 | each later wire key holds exactly what its entry emitted, and earlier keys are untouched |
| ElasticSql.WalkOk | src/Engine.php:73-85 | a walk that returns met no failing entry |
| ElasticSql.WalkFails | src/Engine.php:82-84 | a walk that throws throws the first failing entry's exception |
| ElasticSql.Shaped | src/Engine.php:36-39 | merging an `id`/`body` head with a resolved body lays them end to end, so no aspect overwrites `id` or `body` |
| ElasticSql.Engine.ResolveIndex | src/Engine.php:24-27 | the request index is the query's stored index, unchanged |
| ElasticSql.Engine.ResolveType | src/Engine.php:29-32 | the request type is the query's stored type, unchanged |
| ElasticSql.Engine.Compile | src/Engine.php:74-81 | `'resolve'.ucfirst($attribute)` sends `index` and `type` to resolveIndex and resolveType, and every other attribute to its aspect compiler |
| ElasticSql.Engine.Aspect | src/Engine.php:74-84 | an entry is skipped when its lookup throws, when its value is empty, or when its compiler throws an ElasticException. A non-empty value whose compiler returns is emitted as the compiled value. Any other exception from the compiler fails the entry |
| ElasticSql.Engine.Resolve | src/Engine.php:70-89 | the loop computes the walk over the table's entries |
| ElasticSql.Engine.ResolutionShape | src/Engine.php:12-22 | the resolved body is in table order, and each wire key holds exactly its entry's compiled value, or is absent when the entry was skipped |
| ElasticSql.Engine.ResolvedKeys | src/Engine.php:81 | the resolved body has string keys, each at most once |
| ElasticSql.Engine.ResolutionFails | src/Engine.php:82-84 | resolve throws iff some aspect throws a non-Elastic exception, and then it throws the first one |
| ElasticSql.Engine.ScrollNeverSent | src/Engine.php:21 | `scroll` is never in the request, because `get('scroll')` throws |
| ElasticSql.Engine.ResolvedIndex | src/Engine.php:19 | the request's `index` is the stored index when non-empty, and absent otherwise |
| ElasticSql.Engine.AggsUnderItsName | src/Engine.php:15 | the numeric table entry is stored under the key `aggs` |
| ElasticSql.Engine.ResolveCreate | src/Engine.php:34-40 | the request is `id`, then `body` = data, then the resolved aspects; it throws what resolve throws |
| ElasticSql.Engine.ResolveUpdate | src/Engine.php:62-68 | the request is `id`, then `body` = `{doc: data}`, then the resolved aspects |
| ElasticSql.Engine.ResolveDelete | src/Engine.php:42-47 | the request is `id`, then the resolved aspects only |
| ElasticSql.Engine.Select | src/Engine.php:49-60 | the request has exactly `index`, `type` and `body`. `body` holds every resolved entry except `index` and `type` |
| ElasticSql.Engine.ResolveSelect | src/Engine.php:49-60 | reading out the two params and unsetting them from the body yields `Select` |
| ElasticSql.Created | src/Elastic.php:89-96 | success iff `result` is `'created'`, else RunTimeException. The returned data holds `_id` and `_result`, and every other key as given |
| ElasticSql.Updated | src/Elastic.php:110-119 | true iff `result` is `'updated'` or `'noop'`, else RunTimeException |
| ElasticSql.Deleted | src/Elastic.php:135-139 | true iff `result` is `'deleted'`, else RunTimeException |
| ElasticSql.OnConflict | src/Elastic.php:85-87 | a version conflict becomes DocumentExistsException with message `Create error:` and the conflict's message; any other exception passes through |
| ElasticSql.OnMissing | src/Elastic.php:120-122 | a not-found signal becomes NotFoundDocumentException naming the id; any other exception passes through |
| ElasticSql.StringArg | src/Query.php:67 | a `string` parameter takes strings as they are, and integers and booleans as `(string)` writes them. Null and arrays are a TypeError |
| ElasticSql.IntArg | src/Query.php:87 | an `int` parameter takes integers, booleans as 0 or 1, and integer numeric strings such as `"10"`. Anything else is a TypeError |
| ElasticSql.WhereOf | src/Query.php:92 | `where` coerces `$leaf`, then `$boolean`, to strings. Either one failing is a TypeError. Otherwise the record keeps the column and the coerced boolean |
| ElasticSql.QueryMethodNamed | src/Elastic.php:195 | a name denotes a Query method iff it is one of its ten method names, ignoring case |
| ElasticSql.Elastic.constructor | src/Elastic.php:50-55 | the facade holds the query, with empty raw params |
| ElasticSql.Elastic.RunQuery | src/Elastic.php:176-185 | the request is recorded before the call. A call that throws leaves the query as it was; one that returns replaces it with its `newQuery()` |
| ElasticSql.Elastic.Create | src/Elastic.php:76-97 | the id is `data[primaryKey]` or null (the source defaults `primaryKey` to `'id'`). A conflict, while resolving or from the client, becomes DocumentExistsException. The reply is checked by `Created` |
| ElasticSql.Elastic.Update | src/Elastic.php:105-123 | a not-found signal becomes NotFoundDocumentException. The reply is checked by `Updated` |
| ElasticSql.Elastic.Delete | src/Elastic.php:130-143 | a not-found signal becomes NotFoundDocumentException. The reply is checked by `Deleted` |
| ElasticSql.Elastic.Search | src/Elastic.php:166-169 | the `Select` request goes to the client's `search`, and a non-array reply is a TypeError |
| ElasticSql.Elastic.First | src/Elastic.php:154-159 | the query's limit is 1 before the search, and its other properties are kept. The reply is wrapped in a plain Result. After a returning search the facade holds a fresh query reset from the old one |
| ElasticSql.Elastic.Get | src/Elastic.php:161-164 | the reply of the search is wrapped in a Paginator. After a returning search the facade holds a fresh query reset from the old one |
| ElasticSql.Elastic.Call | src/Elastic.php:193-202 | an unknown name throws BadMethodCallException. `index`, `type`, `limit` and `where` hand back the facade, store their coerced arguments and change only their own property. An argument that does not coerce is a TypeError. `get`, `getClient` and `getEngine` hand back what the query returned. A call that throws changes nothing |
| ElasticSql.Elastic.Forward | src/Elastic.php:195-198 | the same results and frames as `Call`, for a method name already resolved |
| ElasticSql.Elastic.ForwardNewQuery | src/Elastic.php:196-198 | `newQuery` hands back the facade, which keeps its own query |
| ElasticSql.Elastic.ForwardGet | src/Elastic.php:196-198 | `get` looks up the property named by the coerced argument, so `get(5)` looks up `"5"`. It hands back the property or `get`'s exception, and a TypeError for an argument that does not coerce |
| ElasticSql.Elastic.ForwardSetter | src/Elastic.php:196-198 | `index` and `type` store their argument coerced to a string (`index(5)` stores `"5"`). `limit` stores it coerced to an int (`limit(true)` stores 1). Each hands back the facade. An argument that does not coerce is a TypeError. No other property changes, and a failing call changes nothing |
| ElasticSql.Elastic.ForwardWhere | src/Elastic.php:196-198 | `where` appends the record `WhereOf` builds from the coerced arguments, with the defaults for those left out. A `$leaf` or `$boolean` that does not coerce is a TypeError. Only `wheres` changes, and not at all when the call throws |
| Supports.IntReturn | src/Supports/Result.php:46 | an `int` return accepts integers, booleans and integer numeric strings such as `"42"`. Anything else is a TypeError |
| Supports.StringReturn | src/Supports/Result.php:74-77 | a `string` return accepts strings, integers and booleans, string-cast; null and arrays are a TypeError |
| Supports.ArrayReturn | src/Supports/Result.php:65-68 | an `array` return accepts arrays only |
| Supports.FormatHit | src/Supports/Result.php:137-143 | formatting succeeds iff `_source` is an array |
| Supports.FormatHitInjects | src/Supports/Result.php:139-142 | the formatted hit's `_id` and `_score` are the hit's own, overriding same-named source fields |
| Supports.FormatHitKeepsSource | src/Supports/Result.php:139-142 | every other string-keyed source field comes through unchanged |
| Supports.FormatHitKeepsAll | src/Supports/Result.php:139-142 | the same, for every string-keyed field at once |
| Supports.MergeReadsThrough | src/Supports/Result.php:139-142 | a string key missing from the second merged array reads from the first |
| Supports.Collect | src/Supports/Result.php:95-98 | succeeds iff every hit formats. Then there is one formatted hit per raw hit, same key, same order |
| Supports.FirstFailure | src/Supports/Result.php:95-97 | the first hit that cannot be formatted decides the error |
| Supports.FormatEach | src/Supports/Result.php:94-98 | the by-reference loop computes `Collect` over the hits |
| Supports.HitsOf | src/Supports/Result.php:92-99 | getHits succeeds iff `hits.hits` is an array whose hits all format, and it keeps their keys |
| Supports.FormattedKeys | src/Supports/Result.php:95-98 | formatting the hits keeps their keys |
| Supports.FirstHitOf | src/Supports/Result.php:148-153 | it is formatHit of `hits.hits[0]`. It succeeds only when there is a hit at index 0 whose `_source` is an array. It carries that hit's `_id` and `_score`, and every other `_source` field unchanged |
| Supports.TotalHitsOf | src/Supports/Result.php:46-50 | `hits.total` when it is an integer, else `hits.total.value` converted to an int (a numeric string included). A TypeError when neither converts |
| Supports.Listing | src/Supports/Paginator.php:11-20 | exactly the keys took, timed_out, shards, hits, total_hits. `timed_out` is a boolean, `hits` is getHits' result and `total_hits` is getTotalHits' result |
| Supports.ListingKeys | src/Supports/Paginator.php:13-19 | the listing's keys are exactly took, timed_out, shards, hits and total_hits, in that order |
| Supports.Result.constructor | src/Supports/Result.php:15-19 | getRaw yields the meta and debug yields the raw params given |
| Supports.Result.Paginator | src/Supports/Paginator.php:5 | a Paginator is a Result built the same way |
| Supports.Result.SetMeta | src/Supports/Result.php:21-31 | members are read from the meta. A missing took, timed_out, _shards or hits is null, and missing aggregations are `[]` |
| Supports.Result.GetRaw | src/Supports/Result.php:37-40 | getRaw yields the whole response that setMeta stored |
| Supports.Result.TotalHits | src/Supports/Result.php:46-50 | the stored `hits.total` when it is an integer. Otherwise its `value` converted by the `int` return type: integers, booleans and integer numeric strings convert, anything else is a TypeError |
| Supports.Result.Shards | src/Supports/Result.php:65-68 | the stored `_shards` when it is an array, else a TypeError |
| Supports.Result.Took | src/Supports/Result.php:74-77 | the stored `took` as `(string)` writes it (an integer `took` gives its digits). It succeeds when `took` is a string, integer or boolean, else a TypeError |
| Supports.Result.TimedOut | src/Supports/Result.php:83-86 | the stored boolean, and false when the response has no `timed_out` |
| Supports.Result.Aggregations | src/Supports/Result.php:105-108 | the stored aggregations when they are an array or null, else a TypeError |
| Supports.Result.GetHits | src/Supports/Result.php:92-99 | the loop computes `HitsOf` of the stored hits |
| Supports.Result.ToArray | src/Supports/Result.php:114-117 | a Result converts to its first hit, which succeeds iff that hit's `_source` is an array and carries the hit's `_id` and `_score`. A Paginator converts to exactly the five listing keys, with `total_hits` the hit count and `timed_out` a boolean |

## Left out

- The transport client: `call_user_func` on the client and `ClientBuilder::fromConfig`. The client is the `Transport` parameter, and `Elastic::Builder` is not modelled.
- The per-aspect compilers (`resolveColumns`, `resolveWheres`, `resolveAggs`, `resolveOrders`, `resolveLimit`, `resolveOffset`, `resolveScroll`). Their code is not part of this model, so they are the uninterpreted `Engine.compileAspect`.
- `flush`: its resolver `resolveFlush` is not part of this model.
- `getMaxScore` and `toJson`: floating point and JSON encoding.
- Integers are unbounded, not PHP's 64-bit `int`. So `limit("99999999999999999999")` stores that number, where PHP raises a TypeError. Likewise an out-of-range numeric string given to an `int` return converts in the model.
- ElasticSql.Elastic.Create: `$primaryKey` defaults to `'id'` in the source. The model has no default arguments, so a caller passes `S("id")` for it.
- Floats are not values in this model. A hit's `_score` is carried as whatever value the response holds. A float passed to `where` or `limit`, and float or whitespace-padded numeric strings given to an `int` parameter or return, are not modelled.
- The aspect compilers are given the attribute and its value, but not the query that `resolve` also passes them.
- Through ordinary method syntax, `$elastic->get(...)` and the constructor resolve to `Elastic`'s own methods and never reach `__call`. `Call` models `__call` itself, which is public and can be called with any name.
- `ResultCollection`, `ServiceProvider` and the configuration file: framework wiring.
- The library's exception classes are not part of this model. They are assumed to extend `ElasticException`.
- Engine and return-type errors carry only the function's name as their message, not PHP's full text.
- PHP's conversion of numeric-string keys to integers is not modelled, nor reading an offset of a string (the model reads null).
- PHP warnings, such as the one for an undefined key, are not modelled; the value read is null, as in PHP.
- ElasticSql.Query.Set: the model requires an argument of the declared property's kind. It requires the engine and the client under their own names, and data elsewhere. `operators` is never set, which matches every caller in the source.
- ElasticSql.Elastic.Call: `__construct` and `set` through `__call` are stated only to throw, not with which message.
- Supports.IntReturn: accepts only integer numeric strings made of an optional sign and digits. Leading or trailing whitespace, float notation and leading-numeric strings such as `"10abc"` are treated as a TypeError.
- Supports.TotalHitsOf: likewise for a string `hits.total.value`, through `Supports.IntReturn`.
- ElasticSql.IntArg: accepts only integer numeric strings made of an optional sign and digits. Leading or trailing whitespace, float notation and leading-numeric strings such as `"10abc"` are treated as a TypeError.
- ElasticSql.Elastic.ForwardSetter: likewise for a string argument to `limit`, through `ElasticSql.IntArg`.
- ElasticSql.Elastic.First: for a reply that is not an array, only a TypeError is stated, not its message.
- Supports.Listing: on failure, the exception is stated only when `took()` fails first.
