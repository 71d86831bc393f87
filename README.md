# restifizer data service, modelled in Dafny

restifizer turns a data source (a Mongoose model, say) into a REST
resource. Its `DataService` class (`lib/data-service.js`) does the work
behind every verb:

- It settles its configuration once, in the constructor. That covers the
  id field, the field map `_normalizeFields` builds, the model and default
  field names, the array methods and `smartPut`.
- It then runs one promise pipeline per verb: `select`, `selectOne`,
  `insert`, `replace`, `update`, `delete` and `count`.
- The pipelines share steps. `buildConditions` copies the path parameters.
  `getFilter` merges them over the `filter` parameter or the default
  filter. `extractFieldList` chooses the fields a response carries.
  `getLimit`, `getPage` and the skip turn paging parameters into a query,
  and `addLinkHeaders` builds the `prev`/`next` links. `assignFields`,
  `assignFilter` and `proceedArrayMethods` copy a payload into a document.
  `locateModel`, `createDocument` and `saveDocument` talk to the adapter.

The modules follow that structure:

- `wrappers.dfy`: `Option` and `Result`.
- `js_array.dfy`, `js_object.dfy`, `js_string.dfy`: the JavaScript and
  lodash operations the service relies on. This covers plain objects with
  their insertion-ordered keys, `_.assign`, `_.pick`, `_.uniq`,
  `_.intersection`, `String.prototype.replace`/`split`, `parseInt` and
  number-to-string conversion.
- `field_schema.dfy`: field lists and `_normalizeFields`, both as a fold
  (`Normalize`) and as the loop the code runs (`NormalizeFields`).
- `query.dfy`: the page size, page number, skip, sort order and filter read
  from the query string.
- `links.dfy`: the `Link` header.
- `scope.dfy`: the per-request scope the pipelines thread through, as a
  class whose fields the steps update.
- `store.dfy`: the data source adapter. Its answers are fixed when it is
  made. The document `findOne` finds, the collection `find` returns and the
  number `count` returns are fixed values. What `create`, `save` and the
  adapter's own `assignField` give back are unspecified functions of their
  arguments (`createOf`, `saveOf`, `setFieldOf`), each answering some
  well-formed document. The adapter records every call the service makes,
  so each pipeline is specified by the exact calls it makes, in order, and
  by the whole scope it leaves behind.
- `data_service.dfy`: the `DataService` class and its pipelines. Its
  constructor-time settings are constants. `defaultFilter` is the one field
  that changes, because `getFilter` assigns into it.

The hooks (`pre`, `prepareData`, `beforeAssignFields`, `beforeSave`,
`afterSave`, `afterChange`, `beforeDelete`, `beforeArrayMethod`,
`collectionPost`, `post`) are the defaults of the class. They do nothing
or return their argument, so each pipeline is the sequence of its other
steps. `dataSource.toObject` is taken as the identity.

Four things in the code are modelled deliberately:

- In `select`, the `limit` passed to `addLinkHeaders` (line 116) is the
  outer `var limit` of line 75. It is never assigned, because line 90
  declares a second `limit` inside the callback. The model follows the code
  as written: the links carry `perPage=undefined` and there is never a
  `next` link.
- `delete` stores what `remove` answers in `scope.mode` (line 276), a field
  nothing reads. The model keeps the located document as the model, as the
  code does.
- The `smartPut` branch of `replace` calls `Bb.then` (line 182). Bluebird
  has no such function, so as written that branch throws. The pipeline is
  modelled with the intended step, and the code as written is kept beside
  it (see Findings).
- With `defaultFields` configured, the default field map is picked from the
  configured names (line 50) before the id field is pushed onto them (line
  57), so a request without `fields` gets no id back unless the configured
  names hold it. The service is modelled with the pick made after the push,
  and the code as written is kept beside it (see Findings).

## Model

| member | source | states |
|---|---|---|
| JsObject.Put | lib/data-service.js:597 | `o[k] = v`: the new value is under `k` and every other key keeps its value; an existing key keeps its position and a new key goes last; the object stays well-formed (no key twice) |
| JsObject.Assign | lib/data-service.js:342 | `_.assign(target, source)`: the result has the keys of both, and the source's value wins on a shared key |
| JsObject.Pick | lib/data-service.js:50 | `_.pick(o, names)`: exactly the keys of `names` that `o` has, with `o`'s values |
| JsObject.PickKeys | lib/data-service.js:50 | picking distinct names that are all present lists them in the order given |
| JsObject.PickAll | lib/data-service.js:507 | `_.pick(params, _.keys(params))` is an exact copy: same keys, same order, same values |
| JsObject.PutAll | lib/data-service.js:342 | the copy loop of `_.assign`: the written keys take the source's values and the other keys of the target are kept |
| JsArray.Uniq | lib/data-service.js:46 | `_.uniq`: no element twice, and the same elements as the input |
| JsArray.UniqOfDistinct | lib/data-service.js:46 | `_.uniq` leaves a list without duplicates unchanged |
| JsArray.UniqAfterPushPresent | lib/data-service.js:45-46 | pushing a name already present and calling `_.uniq` gives back the original list |
| JsArray.UniqAfterPushAbsent | lib/data-service.js:57-58 | pushing an absent name and calling `_.uniq` appends it |
| JsArray.DistinctOnce | lib/data-service.js:57-58 | in a list without duplicates every member occurs exactly once |
| JsArray.Intersection | lib/data-service.js:323 | `_.intersection(a, b)`: distinct values that are in both lists |
| JsString.FindFrom | lib/data-service.js:368 | the first occurrence at or after a position, and no occurrence before it |
| JsString.ReplaceFirst | lib/data-service.js:367-372 | `replace` leaves the string as it was exactly when the pattern does not occur or is replaced by itself; otherwise the length changes by the difference of the two |
| JsString.ReplaceFirstAt | lib/data-service.js:367-372 | `replace` with a string pattern cuts out exactly the first occurrence and puts the replacement in its place |
| JsString.ReplaceFirstAbsent | lib/data-service.js:367-372 | `replace` changes nothing when the pattern does not occur |
| JsString.ReplaceFirstKeepsTail | lib/data-service.js:379-381 | when no occurrence reaches into a tail, replacing in `a + t` replaces in `a` and keeps `t` |
| JsString.JoinSplit | lib/data-service.js:322 | the parts `split(',')` returns join back to the original string |
| JsString.Split | lib/data-service.js:322 | `split` always returns at least one part |
| JsString.SplitPartsHaveNoSeparator | lib/data-service.js:322 | no part of a split holds the separator |
| JsString.IntToString | lib/data-service.js:378 | `'' + n` is a non-empty string of digits and minus signs |
| JsString.ParseIntNeedsDigit | lib/data-service.js:362 | `parseInt` gives a number only for a string that holds a digit; otherwise `NaN` |
| JsString.ParseIntOfIntToString | lib/data-service.js:362 | `parseInt` reads back every integer that `'' + n` writes |
| JsString.ParseIntOfNegativeDigits | lib/data-service.js:362 | `parseInt` of a minus sign followed by digits is the negated value of the digits |
| FieldSchema.Describe | lib/data-service.js:585-595 | a string entry becomes `{name}`, an object keeps its name; the descriptor always carries the entry's name |
| FieldSchema.Normalize | lib/data-service.js:580-601 | the fold of `_normalizeFields` over the entries; when it succeeds the field map is a well-formed object |
| FieldSchema.NormalizeFields | lib/data-service.js:580-601 | the loop of `_normalizeFields`, with recursion into nested `fields`, returns exactly the fold `Normalize` |
| FieldSchema.DescribeOkIff | lib/data-service.js:585-591 | describing an entry fails exactly when it, or an entry nested in it, is neither a string nor an object |
| FieldSchema.NormalizeOkIff | lib/data-service.js:583-598 | over the entries the model represents, normalisation fails exactly when some entry at some depth has the wrong type, and the error is then the wrong-field-type error |
| FieldSchema.NormalizeKeys | lib/data-service.js:581-600 | the keys of the field map are the entry names, each once, in order of first occurrence |
| FieldSchema.NormalizeLastWins | lib/data-service.js:597 | when names repeat, the last entry with a name decides its descriptor, with nested fields normalised in turn |
| FieldSchema.NormalizeWellKeyed | lib/data-service.js:593-597 | every descriptor, at every depth, is stored under its own name |
| FieldSchema.NormalizeDenormalize | lib/data-service.js:580-601 | normalisation is idempotent: normalising the descriptors of a normalised map gives the map back |
| Query.GetLimit | lib/data-service.js:352-359 | with no truthy `perPage`/`per_page` the default page size, else the requested size capped at `maxPerPage` |
| Query.FirstTruthy | lib/data-service.js:353 | `perPage`, or else `per_page`: a given parameter is truthy, so the first given one is taken, and nothing only when neither is given |
| Query.ZeroPerPage | lib/data-service.js:353-357 | `perPage=0` is taken as asked: the page size is 0 and `per_page` is not looked at |
| Query.GetPage | lib/data-service.js:361-363 | `parseInt(page)` when it is a non-zero number, else `firstPageIndex` |
| Query.GetPageOfWrittenPage | lib/data-service.js:361-363 | a non-zero page number written into a link is read back as that page |
| Query.Skip | lib/data-service.js:101 | page 1 skips nothing, and a later page skips a non-negative number |
| Query.SkipNextPage | lib/data-service.js:101 | the next page starts one page size further on |
| Query.GetOrderBy | lib/data-service.js:347-350 | the parsed `orderBy` parameter if given, else the configured one; fails exactly when the parameter is not JSON |
| Query.MergeFilter | lib/data-service.js:340-343 | fails exactly when the `filter` parameter is not JSON; otherwise a well-formed object |
| Query.ConditionsWin | lib/data-service.js:340-343 | the path conditions always win over the query or default filter, and every other filter key keeps its value |
| Query.DefaultFilterAfter | lib/data-service.js:340-342 | the default filter stays configured exactly when it was, stays a well-formed object, and is untouched when the request has a `filter` |
| Query.DefaultFilterKeepsConditions | lib/data-service.js:340-342 | when the default filter is used it becomes the very filter of the request: it keeps its keys and gains every path condition with its value |
| Links.LimitText | lib/data-service.js:378 | `'' + limit` is non-empty and holds no `&` or `?`; an absent limit prints `undefined` |
| Links.LinkHeaders | lib/data-service.js:365-392 | a `prev` link exactly when `page > 1`; a `next` link exactly when a limit is given and the page came back full |
| Links.LinkHeadersContents | lib/data-service.js:365-392 | each link is the cleaned-up full URL, `&`, and `page=<page - 1>` or `page=<page + 1>` with `&perPage=<limit>` |
| Links.CleanUrl | lib/data-service.js:367-372 | cutting out the paging parameters and collapsing `&&` and `?&` never lengthens the URL |
| Links.BuildLinks | lib/data-service.js:365-392 | the step-by-step `replace` chain of `addLinkHeaders` builds exactly `LinkHeaders` |
| Links.PageParamsAmpSafe | lib/data-service.js:378 | the paging parameters a link appends cannot be touched by the `&&`/`?&` clean-up |
| Links.CleanupKeepsTail | lib/data-service.js:379-381 | the clean-up of a link leaves a clean-up-safe tail unchanged |
| Links.PageLinkEndsWithParams | lib/data-service.js:378-381 | every link ends with `page=<page>&perPage=<limit>`, exactly as appended |
| Links.LinkPageReadBack | lib/data-service.js:378 | the page number in a link sits between `page=` and `&`, and `getPage` reads it back as that page |
| Links.CleanUrlUnchanged | lib/data-service.js:367-372 | a URL without paging parameters, `&&` or `?&` is kept as it is |
| Store.DataSource.FindOne | lib/data-service.js:490-496 | records the `findOne` call with its filter and fields and answers the adapter's document |
| Store.DataSource.Find | lib/data-service.js:94-105 | records the `find` call with its query and answers the adapter's collection |
| Store.DataSource.Count | lib/data-service.js:298-302 | records the `count` call and answers the adapter's number |
| Store.DataSource.Create | lib/data-service.js:516 | records the `create` call and answers the adapter's document for the destination, `createOf(doc)`, a well-formed object |
| Store.DataSource.Save | lib/data-service.js:527 | records the `save` call and answers the adapter's saved document, `saveOf(doc)`, a well-formed object |
| Store.DataSource.Remove | lib/data-service.js:274 | records the `remove` call |
| Store.DataSource.AssignField | lib/data-service.js:419 | records the adapter's own `assignField` call and answers the target as the adapter writes it, `setFieldOf(target, source, field)` |
| Store.DataSource.ProceedArrayMethod | lib/data-service.js:475 | records the `proceedArrayMethod` call with the field's value, the method and the field |
| Service.NameEntries | lib/data-service.js:34 | the adapter's field names become one string entry each, in order |
| Service.ResolveIdField | lib/data-service.js:32 | the configured id field when it is non-empty, else the adapter's default; so it is empty only when the adapter's default is |
| Service.WithIdField | lib/data-service.js:35-39 | adding the id field keeps the field map a well-formed object |
| Service.AdapterNamesWellTyped | lib/data-service.js:34 | a field list made from the adapter's names always normalises |
| Service.WithIdFieldFacts | lib/data-service.js:35-39 | after the id-field step the id field is in the map, every existing field is kept, nothing else is added, and descriptors stay under their names |
| Service.ListWithId | lib/data-service.js:56-58 | after the push and `_.uniq` the id field is listed and no name is listed twice |
| Service.ListWithIdOnce | lib/data-service.js:56-58 | after the push and `_.uniq` the id field is listed exactly once, no name twice, and the names are the old ones plus the id field |
| Service.ModelFieldNamesAreKeys | lib/data-service.js:41-46 | the model field names are exactly the keys of the field map, in order |
| Service.SettleFields | lib/data-service.js:32-58 | the field map gets the id field, model names are its keys, default names hold the id field once, and the default fields are picked with them (or are all fields), so they hold the id field |
| Service.DefaultFieldMapAsWritten | lib/data-service.js:47-53 | the default field map as the code builds it: picked from the configured names, else the whole field map; a well-formed object |
| Service.DefaultFieldsLackIdAsWritten | lib/data-service.js:47-58 | as written, configured default fields without the id field give a default field map without it, while the default field names hold it |
| Service.DefaultFieldMap | lib/data-service.js:47-58 | the intended default field map: drawn from the field map with its values, and it holds the id field whenever the field map does |
| Service.DefaultFieldMapsAgree | lib/data-service.js:47-58 | the intended and the written default field maps have the same fields apart from the id field |
| Service.Construct | lib/data-service.js:20-68 | the constructor fails exactly when some configured entry has the wrong type; otherwise the service is the constructor's result: the id field is the configured one or else the adapter's default, the field map is the normalised configuration with that id field, the default fields are the corrected pick, and the read-only fields, array methods, `smartPut`, `orderBy`, `qFields`, config and default filter are the options' (the adapter's array methods when none are configured) |
| Service.DataService.constructor | lib/data-service.js:20-68 | every setting of the service as the constructor settles it: id field, field map, model and default fields (the intended `DefaultFieldMap`), read-only fields, array methods, `smartPut`, sort, search fields, paging, default filter |
| Service.CountDoc | lib/data-service.js:305 | `{count: n}` has the one key `count` |
| Service.DataService.GetField | lib/data-service.js:394-396 | a descriptor exactly for a field of the map, and it carries the field's name |
| Service.DataService.FieldListFor | lib/data-service.js:319-332 | always holds the id field; with `fields`, the requested model fields plus the id field, with their descriptors; without it, the default fields |
| Service.DataService.ExtractFieldList | lib/data-service.js:319-332 | `extractFieldList` returns `FieldListFor` of the query |
| Service.DataService.BuildConditions | lib/data-service.js:505-508 | the conditions are a copy of the path parameters, which also becomes `scope.source` |
| Service.DataService.GetFilter | lib/data-service.js:334-345 | the merged filter, and the default filter afterwards is `DefaultFilterAfter`: with the conditions merged into it when it is used |
| Service.DataService.AssignableMembers | lib/data-service.js:403-405 | the filtered keys are exactly the keys that pass `assignFilter` |
| Service.DataService.AssignableDistinct | lib/data-service.js:403-405 | filtering distinct keys keeps them distinct |
| Service.DataService.AssignableFieldsMembers | lib/data-service.js:403-405 | the fields assigned from a payload are exactly its keys that pass `assignFilter` |
| Service.DataService.AssignFilter | lib/data-service.js:432-436 | a field that passes is a model field and not read-only, and on an update the payload has it |
| Service.DataService.UpdateIsStrictest | lib/data-service.js:432-436 | a field an update assigns is assigned by every verb; only an update looks at the payload, and it assigns only fields the payload has |
| Service.DataService.AssignCallsAt | lib/data-service.js:416-419 | with its own setter, the adapter is called once per field, in field order |
| Service.DataService.AssignedDocContents | lib/data-service.js:416-423 | with the generic setter, exactly the given fields are written with the payload's values and the rest is kept |
| Service.DataService.AssignedPayload | lib/data-service.js:402-423 | assigning a payload writes exactly its assignable fields with its values and keeps every other field |
| Service.DataService.AssignField | lib/data-service.js:416-423 | `setProp` on the destination (insert) or the model, or the adapter's own setter's answer in its place; one adapter call exactly with the adapter's setter; nothing else changes |
| Service.DataService.AssignFields | lib/data-service.js:402-409 | the destination or model ends as the payload assigned over it, and the adapter calls are one per assigned field |
| Service.DataService.FieldCallsAt | lib/data-service.js:450-461 | the calls for one array method are one per field, in order, each with the field's value |
| Service.DataService.ArrayCallsSound | lib/data-service.js:442-465 | every array-method call is for a configured method whose body is in the payload, for a field of that body that passes `assignFilter`, with its value |
| Service.DataService.FieldCallsOnce | lib/data-service.js:450-461 | over distinct fields, the call for each field is made exactly once |
| Service.DataService.ArrayCallsComplete | lib/data-service.js:442-465 | every field of a configured method's body that passes `assignFilter` is handed to the adapter with its value |
| Service.DataService.ArrayCallsOnce | lib/data-service.js:442-465 | with no method configured twice, each such field is handed to the adapter exactly once |
| Service.DataService.ProceedFields | lib/data-service.js:453-461 | the inner loop makes exactly the calls `FieldCalls` lists |
| Service.DataService.ProceedArrayMethods | lib/data-service.js:442-476 | the outer loop makes exactly the calls `ArrayCalls` lists |
| Service.DataService.LocateModel | lib/data-service.js:483-498 | one `findOne` with the path conditions and the request's field list; the found document is returned |
| Service.DataService.CreateDocument | lib/data-service.js:515-519 | one `create` of the destination, and the adapter's answer becomes the model |
| Service.DataService.SaveDocument | lib/data-service.js:525-531 | one `save` of the model, and the adapter's answer becomes the model |
| Service.DataService.Select | lib/data-service.js:74-119 | fails exactly on a non-JSON `filter` or `orderBy`, with no adapter call and no links; otherwise one `find` with filter, fields, search, sort, limit and skip, the adapter's collection, and links made with an absent limit. Always: `source` is the path parameters and the default filter is left as `getFilter` leaves it; the field list is the request's once the filter parses, else unchanged |
| Service.DataService.FindPage | lib/data-service.js:82-106 | the `find` query of `select`: field list, search, sort, page size and skip of the request's page |
| Service.DataService.AddLinkHeaders | lib/data-service.js:365-392 | `res.links` gets `LinkHeaders` of the request URL |
| Service.DataService.SelectOne | lib/data-service.js:121-138 | the located document, or a 404 exactly when none is found; one `findOne`; `source` is the path parameters and the field list the request's |
| Service.DataService.Insert | lib/data-service.js:140-171 | source is the path parameters over the body; the destination gets the assignable fields; the adapter creates from it and saves what it created; the model is the saved document; 201 with its default fields |
| Service.DataService.Replace | lib/data-service.js:173-223 | the field list is always the request's. Found: body assigned and saved, destination kept, default fields of the saved document returned. Not found with `smartPut`: the parameters over the body assigned to the destination, created and saved, 201. Otherwise a 404 with `source` the path parameters and destination and model unchanged |
| Service.DataService.ReplaceLocated | lib/data-service.js:190-193 | the body is assigned to the located document, which is saved and becomes the model; the destination and the status are kept |
| Service.DataService.ReplaceByInsert | lib/data-service.js:179-186 | the scope becomes inserting, the source is the parameters over the body, the destination gets its assignable fields, and the adapter creates and saves it, with 201 |
| Service.DataService.SaveReplacement | lib/data-service.js:195-222 | assign, create when inserting, save, 201 when inserting; the model is the saved document and the result its default fields; the destination is kept when not inserting |
| Service.DataService.Update | lib/data-service.js:225-258 | the field list is the request's and the destination is kept. A 404 exactly when none is found, with `source` the path parameters and the model unchanged; otherwise `source` is the body, its fields are assigned, the array methods handed on, the document saved, and the saved document is the model and the response |
| Service.DataService.ApplyUpdate | lib/data-service.js:234-243 | after locating: the assign calls, the array-method calls and one save, in that order; `source` is the body, the destination is kept, and the saved document is the model |
| Service.DataService.Delete | lib/data-service.js:260-290 | `source` is the path parameters and the field list the request's; a 404 exactly when none is found, with model and status unchanged; otherwise one `remove` of the located document, which is the model, and a 204 |
| Service.DataService.Count | lib/data-service.js:292-311 | fails exactly on a non-JSON `filter`, with no adapter call and the model unchanged; otherwise one `count` with the filter and search, and `{count}` as the model and the response. Always: `source` is the path parameters and the default filter is left as `getFilter` leaves it |
| Service.MissingDocumentAsWritten | lib/data-service.js:179-189 | the missing-document handler as written, a `TypeError` with `smartPut`; see `SmartPutNeverInsertsAsWritten` |
| Service.SmartPutNeverInsertsAsWritten | lib/data-service.js:179-189 | as written, a missing document always fails the request, with `smartPut` by a `TypeError` |
| Service.MissingDocument | lib/data-service.js:179-189 | the intended handler: go on as an insert exactly with `smartPut`, else a 404 |
| Service.MissingDocumentAgrees | lib/data-service.js:179-189 | the intended and the written handler differ only with `smartPut` |

## Left out

- The hooks and `initialize`: they are the class's own no-op defaults, so each pipeline is modelled without them. `queryPipe` is taken as absent.
- The adapter's behaviour: the adapter module loaded at line 30 is not part of this model. The answers of `findOne`, `find` and `count` are fixed values of `Store.DataSource`. `create`, `save` and the adapter's `assignField` answer unspecified functions of their arguments. `remove` answers its argument, which nothing reads. `toObject` is the identity.
- Store.DataSource.AssignField: the adapter's own setter is taken to change only the document the generic setter would write (the destination or the model), and to leave it as `setFieldOf` of that document, the payload and the field name. Anything else it writes is not modelled.
- Service.DataService.AssignedDocContents: states nothing about what the adapter's own setter writes, because that is up to the adapter, which is not part of this model.
- Promises and Bluebird: the steps of a pipeline run one after the other. `Bb.map` in `assignFields` and `proceedArrayMethods` runs in field order. The array-method calls of `_.each` are not awaited by the code; here they run before `saveDocument`.
- Error responses: `setResError`, logging and the HTTP error objects are left out. A pipeline's failure is a `Failure` value.
- `JSON.parse`: query parameters arrive already parsed (`Query.Json`). A `filter` that parses to something other than an object is not modelled.
- Query.GetLimit: a given `perPage` or `per_page` is non-empty text and so truthy, even `0` (see `Query.ZeroPerPage`). An empty parameter is modelled as absent.
- Numbers are integers. `perPage` arrives as an integer. The code compares and returns the query string's text, which JavaScript coerces to a number; that coercion, and a `perPage` that is not a number, are not modelled. Neither are floating point and `NaN` in the skip and in the links.
- Query.GetPage: `parseInt` is modelled in base ten with ASCII white space; its hex prefix and Unicode white space are left out.
- JsObject.Pick: objects have no prototype. lodash 3 `_.pick` keeps a name when `key in object`, and the check at line 35 is a property lookup, so both see inherited `Object.prototype` properties: `defaultFields: ['constructor']` picks the `Object` function, and an `idField` of `'toString'` is never added to the field map. Inherited properties are not modelled, so `Pick` and `Service.WithIdField` are faithful only for names that are not properties of `Object.prototype`.
- JsObject.Put: JavaScript lists integer-like keys before the others; the model keeps plain insertion order.
- Aliasing: `_.assign` writes into `req.body` (lines 146, 185). The model keeps `req` immutable and `scope.source` as the merged copy. `_normalizeFields` writes nested `fields` back into the configured entry objects, and the model does not. The push at line 45 goes to the fresh array `_.keys` returned, so it touches nothing else. The push at line 57 writes into the configured `defaultFields` array when one is given, because line 49 makes `defaultFieldNames` that very array; the model leaves the caller's array as it was.
- FieldSchema.Describe: a `null` entry is not represented. `typeof null` is `'object'`, so the code takes it as a descriptor and then throws a `TypeError` at `result.fields` (line 593), not the wrong-field-type error. A nested `fields` that is truthy but not an array is not represented either.
- Field descriptors hold only `name` and `fields`. Other keys of a configured field object, and an object field without a `name`, are left out.
- A truthy array-method body that is not an object (a string, say) is treated as absent.
- `res.links` is recorded as `scope.links`. `req.get('host')` is the request's `host`.
- `getContext`, `setResData`, `resolveProp` and `setProp` beyond the single-key write are not modelled.

## Findings

| source | as written | input that shows it | evidently intended | confidence | as-written member | corrected member |
|---|---|---|---|---|---|---|
| lib/data-service.js:182 | with `smartPut`, the missing-document handler calls `Bb.then(...)`, which Bluebird does not define, so it throws a `TypeError` | `replace` with `smartPut: true` and no document matching the path parameters | insert the document instead (`Bb.resolve().then(...)` or `Bb.try(...)`) and answer 201 | high, not executed | Service.SmartPutNeverInsertsAsWritten | Service.DataService.Replace |
| lib/data-service.js:49-57 | with `defaultFields` configured, the default field map is picked from the configured names before the id field is pushed onto them | `defaultFields: ['name']` and a `select` without `fields`: the field list has `name` but not the id field | pick the default field map after the push, so that every response carries the id field | high, not executed | Service.DefaultFieldsLackIdAsWritten | Service.DefaultFieldMap |
