# Property listings back end: a verified model

This project models the core of a small real-estate listing service. The service is an
Express application over MongoDB with Mongoose. The model covers:

- **The property schema** (`PropertyModel`): the fields a listing has, the `trim` setters, the
  `required`, `min`, `maxlength` and `enum` validators, the enumeration defaults and the
  timestamps. It covers both ways the schema is applied: a create runs every validator over the
  whole draft, while an update (`runValidators`) checks only the fields it sets.
- **The request validators** (`ValidateProperty`): the ten create checks, the four update
  checks and the 24-hex-digit id check. Each is a middleware that either calls `next()` or
  answers 400 itself.
- **The property controller** (`PropertyController`): the six handlers over an in-memory
  collection, the class `PropertyStore`.
  - The store keeps a map from id to record, plus the ids in insertion order. The insertion
    order is the order a query without a sort returns.
  - Listing builds a filter from the query string, sorts the matches newest first and cuts one
    page out of them.
  - Search is a case-insensitive substring match over four fields, capped at twenty records.
- **The property routes** (`PropertyRoutes`): which middleware runs before which handler.
- **The lead controller** (`LeadController`): leads are forwarded to an external spreadsheet
  service and read back from it. That service is a parameter of the model.

Supporting modules:

- `Wrappers`: `Option`, `Result` and `Distinct`.
- `Text`: JavaScript's `trim`, ASCII case folding and substring search.
- `Http`: the JSON reply envelope, JSON values and JavaScript truthiness.
- `ObjectIds`: 12-byte ids and their 24-digit hex form.

Some behaviour follows from Mongoose and MongoDB rather than from the handlers' text, and the
model states it explicitly:

- An update's validators run before the record is looked up. So an invalid update of an
  unknown id is answered 400, not 404.
- The `images` entries of the schema are sub-documents with `data`, `contentType` and
  `filename`. The create and update handlers put uploaded files' path strings into `images`,
  and the schema refuses those. So a create with any uploaded file is always refused
  (`PropertyController.UploadedFilesAreRefused`). This rests on the upload middleware
  (routes/PropertyRoutes.js:16) giving every stored file a non-empty `path`, as disk storage does.
- An update is cast before its validators run, and the cast throws its first error on its own. So
  an update with any uploaded file is refused with the cast error's message alone, without the
  "Validation failed" prefix or any other path (`PropertyController.UploadedFilesFailUpdateCast`).
- A `limit` of 0 means no limit, and a negative limit means its absolute value.
- The sort is applied before `skip` and `limit`, whatever order the calls are written in.
- A negative skip (when `(page - 1) * limit` is negative) is refused by the store. The handler turns that refusal
  into a 500.
- `Math.ceil(total / limit)` is `null` in the reply when the limit is 0.

## Model

| member | source | states |
|---|---|---|
| Text.Trim | models/Property.js:7 | JavaScript's `trim`; `Text.TrimSpec` states what it returns |
| Text.TrimSpec | models/Property.js:4-9 | `trim` returns a contiguous part of the input with no leading or trailing whitespace, and everything it drops is whitespace |
| Text.TrimIdempotent | models/Property.js:56-61 | trimming an already trimmed value changes nothing |
| Text.TrimEmptyIff | middleware/validateProperty.js:7 | a value trims to the empty string exactly when it is all whitespace |
| Text.ContainsIgnoresQueryCase | controller/PropertyController.js:193-199 | the case-insensitive match gives the same answer for queries that differ only in ASCII case |
| Text.ContainsItself | controller/PropertyController.js:195 | every text matches itself, ignoring case |
| ObjectIds.Parse | middleware/validateProperty.js:99-101 | a string parses to an id exactly when it is 24 hex digits |
| ObjectIds.ParseFormat | middleware/validateProperty.js:99 | formatting an id and parsing the text gives back the same id |
| ObjectIds.FormatParse | middleware/validateProperty.js:99 | parsing a valid id string and formatting it gives the string in lower case |
| ObjectIds.ParseIgnoresCase | middleware/validateProperty.js:99 | two id strings that differ only in the case of their hex digits name the same id |
| ObjectIds.DecodeEncode | middleware/validateProperty.js:99 | hex decoding inverts hex encoding |
| PropertyModel.Valid | models/Property.js:3-83 | what the schema guarantees of a stored document: a non-empty trimmed title and description within their maximum lengths, counts not negative, image sub-documents with non-empty data, content type and filename, trimmed amenities and location |
| PropertyModel.ParseCategory | models/Property.js:24-29 | an accepted `category` is the name of the value it is read as |
| PropertyModel.NamesParse | models/Property.js:24-80 | each enumeration value's own name is accepted as that value (category, listingType, furnishing, status) |
| PropertyModel.TextField | models/Property.js:4-9 | a text path passes exactly when it is present, non-empty after trimming and within its maximum length; the stored value is the trimmed text |
| PropertyModel.EnumField | models/Property.js:24-35 | a missing enum path takes its default; a present one passes exactly when it is one of the names (and non-empty when required) and is stored as that value |
| PropertyModel.CountField | models/Property.js:36-55 | price, bedrooms, bathrooms and area pass exactly when present and not negative |
| PropertyModel.ImagesField | models/Property.js:10-23 | `images` passes exactly when every entry is a sub-document with non-empty data, content type and filename; a missing list is stored as empty |
| PropertyModel.FieldsOkIffAcceptable | models/Property.js:3-83 | the per-path validators all pass exactly when the draft meets the schema, stated field by field |
| PropertyModel.DraftErrors | models/Property.js:3-83 | a draft has no validation errors exactly when every path's validators pass |
| PropertyModel.Build | models/Property.js:3-83 | the document built from a passing draft is schema-valid and carries the new id and the creation time as both timestamps |
| PropertyModel.Materialize | models/Property.js:3-83 | creating a document succeeds exactly when the draft meets the schema; a refusal always names at least one error |
| PropertyModel.MaterializeFields | models/Property.js:3-83 | a new record holds the trimmed texts, the counts as given, one image sub-document per given entry with that entry's parts (none when `images` is absent), and the default of each enum left out (Apartment, Rent, Unfurnished, Available) |
| PropertyModel.PatchFieldsOkIffAcceptable | models/Property.js:3-83 | an update's validators, run only on the paths it sets, all pass exactly when each set path meets the schema |
| PropertyModel.PatchErrors | models/Property.js:3-83 | an update has no validation errors exactly when the validators of the paths it sets pass |
| PropertyModel.CastPatch | models/Property.js:3-83 | an update is accepted exactly when every path it sets meets the schema; a path string in `images` fails the cast, which comes first and is refused with the cast message alone; any other refusal names at least one failing path |
| PropertyModel.CastPatchAccepted | models/Property.js:3-83 | an accepted update passed the validators of every path it sets |
| PropertyModel.ValidationText | controller/PropertyController.js:34 | the text of a validation error starts with its prefix ("Property validation failed" or "Validation failed"), followed by the `path: message` entries |
| PropertyModel.Apply | controller/PropertyController.js:128-135 | the record after `findByIdAndUpdate` with `new: true`; `PatchFields` and `PatchPreservesValid` state what it keeps and changes |
| PropertyModel.PatchPreservesValid | models/Property.js:3-83 | applying an accepted update to a valid record gives a valid record with the same id and creation time and `updatedAt` set to now |
| PropertyModel.PatchFields | models/Property.js:3-83 | an accepted update changes exactly the fields it sets, to their trimmed or parsed values (`images` to one sub-document per given entry, with that entry's parts), and keeps every other field |
| PropertyModel.EmptyPatchOnlyTouches | models/Property.js:82 | an update that sets nothing only refreshes `updatedAt` |
| PropertyModel.AcceptableForUpdate | models/Property.js:3-83 | every draft a create accepts, an update accepts too |
| ValidateProperty.Blank | middleware/validateProperty.js:7-43 | `!x \|\| x.trim() === ''`: a text that is missing or trims to nothing |
| ValidateProperty.CreateErrors | middleware/validateProperty.js:4-47 | the create validator's `errors` array: the messages of the failed checks, in check order |
| ValidateProperty.UpdateErrors | middleware/validateProperty.js:64-81 | the update validator's `errors` array: the messages of the failed checks, in check order |
| ValidateProperty.PushIf | middleware/validateProperty.js:7-9 | one `if (failed) errors.push(message)` step appends the message exactly when the check failed |
| ValidateProperty.HasImages | middleware/validateProperty.js:12 | uploaded files, or a non-empty `images` array in the body |
| ValidateProperty.ValidationFailed | middleware/validateProperty.js:51-55 | the 400 reply with `success` false, "Validation failed" and the error list |
| ValidateProperty.CreateFailures | middleware/validateProperty.js:7-47 | the create validator makes ten checks |
| ValidateProperty.SelectLength | middleware/validateProperty.js:4-47 | the error list has one message per failed check |
| ValidateProperty.SelectInOrder | middleware/validateProperty.js:4-47 | the messages of the failed checks appear in check order |
| ValidateProperty.SelectMember | middleware/validateProperty.js:4-47 | a message is in the list exactly when a check carrying it failed |
| ValidateProperty.SelectEmpty | middleware/validateProperty.js:50 | the list is empty exactly when no check failed |
| ValidateProperty.Verdict | middleware/validateProperty.js:50-58 | the request passes on exactly when the error list is empty; otherwise the reply is 400 with the whole list |
| ValidateProperty.CreateChecks | middleware/validateProperty.js:4-47 | the pushes in source order build the list of failed checks' messages |
| ValidateProperty.ValidatePropertyCreate | middleware/validateProperty.js:2-59 | the gate is the verdict on the failed checks' messages |
| ValidateProperty.CreateErrorsExact | middleware/validateProperty.js:7-47 | each create message is reported exactly when its own check fails, and there are at most ten |
| ValidateProperty.CreatePassesIff | middleware/validateProperty.js:7-58 | a create passes exactly when the title and description are not blank, there are images, category, listing type and furnishing are given, price and area are positive, and bedrooms and bathrooms are present and not negative |
| ValidateProperty.BlankMeansWhitespace | middleware/validateProperty.js:7-43 | a title or description fails exactly when it is missing or only whitespace |
| ValidateProperty.PositiveVersusNonNegative | middleware/validateProperty.js:25-39 | price and area must be strictly positive, while bedrooms and bathrooms may be 0 |
| ValidateProperty.UpdateFailures | middleware/validateProperty.js:67-81 | the update validator makes four checks |
| ValidateProperty.UpdateChecks | middleware/validateProperty.js:63-81 | the pushes in source order build the list of failed checks' messages |
| ValidateProperty.ValidatePropertyUpdate | middleware/validateProperty.js:62-92 | the gate is the verdict on the failed update checks' messages |
| ValidateProperty.UpdateErrorsExact | middleware/validateProperty.js:67-81 | each update message is reported exactly when its own check fails, and there are at most four |
| ValidateProperty.UpdateWithoutNumbersPasses | middleware/validateProperty.js:66-81 | an update that sets none of the four numbers always passes |
| ValidateProperty.ValidateObjectId | middleware/validateProperty.js:95-109 | an id passes exactly when it parses as an id; otherwise the reply is 400 "Invalid property ID format" |
| PropertyController.Matches | controller/PropertyController.js:72 | the store's reading of the filter document: every key in it is a condition the record meets |
| PropertyController.Satisfies | controller/PropertyController.js:55-68 | each supplied query parameter is a condition on the record, and all of them hold |
| PropertyController.BuildFilter | controller/PropertyController.js:55-68 | the filter has a key for each supplied parameter, holding its value, and a price range when either bound is given; the store keeps exactly the records that satisfy every supplied parameter |
| PropertyController.FilterOfAgrees | controller/PropertyController.js:55-68 | the store's reading of that filter agrees with the query on every record |
| PropertyController.Window | controller/PropertyController.js:72-75 | a page is the contiguous run that starts after `skip` records and holds at most `|limit|` records, or all of the rest when the limit is 0 |
| PropertyController.PageOf | controller/PropertyController.js:51 | the page is 1 unless the query gives one |
| PropertyController.LimitOf | controller/PropertyController.js:52 | the page size is 10 unless the query gives one |
| PropertyController.SkipOf | controller/PropertyController.js:70 | the number of records before the page, `(page - 1) * limit` |
| PropertyController.Pages | controller/PropertyController.js:84 | `Math.ceil(total / limit)` in the reply: `null` exactly when the limit is 0, not negative for a positive limit and not positive for a negative one |
| PropertyController.PagesIsCeiling | controller/PropertyController.js:84 | with a positive limit, `pages` is the least number of pages that hold every match |
| PropertyController.NoPagesIffNoMatches | controller/PropertyController.js:84 | `pages` is 0 exactly when nothing matched |
| PropertyController.PageBeyondLastIsEmpty | controller/PropertyController.js:70-84 | a page number past `pages` starts after every match and is empty |
| PropertyController.WindowWithinLimit | controller/PropertyController.js:74-81 | `count` never exceeds the limit |
| PropertyController.SortNewestFirst | controller/PropertyController.js:75 | the sort returns the same records, ordered by `createdAt`, newest first |
| PropertyController.FilteredSpec | controller/PropertyController.js:72 | a scan keeps exactly the records its condition accepts |
| PropertyController.Take | controller/PropertyController.js:200 | `.limit(20)` on a list: its first `cap` elements, or all of it when it is shorter or the cap is 0 |
| PropertyController.ScanStops | controller/PropertyController.js:200 | a scan that stops at the end or at the cap has kept the first `cap` accepted records |
| PropertyController.Without | controller/PropertyController.js:160 | removing an id keeps every other id and the ids' distinctness |
| PropertyController.CreateDraft | controller/PropertyController.js:7-22 | the draft's `images` are the uploaded paths whenever `req.files` is there and the body's otherwise; `status` is dropped; every other listed field is the body's |
| PropertyController.FilePaths | controller/PropertyController.js:7 | `req.files.map(file => file.path)`: one path string per uploaded file, in order |
| PropertyController.UpdateDraft | controller/PropertyController.js:123-126 | the update's `images` are the uploaded paths when at least one file was uploaded and the body's otherwise; every other key is the body's |
| PropertyController.SearchMatches | controller/PropertyController.js:193-199 | the query occurs, ignoring ASCII case, in the title, description, location or category |
| PropertyController.CreateDraftWhitelist | controller/PropertyController.js:9-22 | a create reads only the twelve listed fields and the files; `status` and any other key cannot change the record |
| PropertyController.CreatedIsAvailable | controller/PropertyController.js:9-24 | a new record always starts out Available |
| PropertyController.UploadedFilesAreRefused | controller/PropertyController.js:7-24 | a create with at least one uploaded file is always refused by the schema |
| PropertyController.Lookup | controller/PropertyController.js:98-110 | a lookup answers 200 with the record exactly when the id is stored, and 404 "Property not found" otherwise |
| PropertyController.PropertyStore.Find | controller/PropertyController.js:72-75 | the scan returns the first `cap` records, in insertion order, that the condition accepts |
| PropertyController.PropertyStore.GetById | controller/PropertyController.js:96-117 | the reply is the lookup of the id in the collection |
| PropertyController.PropertyStore.Create | controller/PropertyController.js:4-37 | a draft the schema accepts is stored under the new id and answered 201; a refused one gets 400 with the validation message and leaves the collection unchanged |
| PropertyController.PropertyStore.Insert | controller/PropertyController.js:24 | a valid new record is added under its id at the end of the insertion order; the invariant is kept |
| PropertyController.RefusalText | controller/PropertyController.js:149-154 | a refused update's message is the cast error's own message when the cast failed, and the validation text otherwise |
| PropertyController.UploadedFilesFailUpdateCast | controller/PropertyController.js:123-135 | an update with uploaded files always fails the cast of `images`, whatever else the body holds, and its reply carries the cast message alone |
| PropertyController.PropertyStore.Update | controller/PropertyController.js:120-155 | a refused update is 400 with the cast message or the validation text, even for an unknown id; then an unknown id is 404; otherwise exactly that record takes the changes and the reply carries the new record |
| PropertyController.PropertyStore.Replace | controller/PropertyController.js:128-135 | a valid record replaces the stored one with its id; the order and invariant are kept |
| PropertyController.PropertyStore.Delete | controller/PropertyController.js:158-179 | exactly the record with that id is removed and the reply is 200; an unknown id is 404 and nothing changes |
| PropertyController.PropertyStore.Search | controller/PropertyController.js:182-213 | a missing or empty query is 400; otherwise the reply carries the first twenty matching records in insertion order, with their count |
| PropertyController.PropertyStore.GetAll | controller/PropertyController.js:40-93 | a negative skip is 500 with the store's message; otherwise the reply carries one page of the matches sorted newest first, the count on the page, the number of all matches, the page and the page count |
| PropertyController.SortedKeepsExactly | controller/PropertyController.js:72-75 | sorting the matches loses no record and adds none |
| PropertyController.PageItemsSatisfyQuery | controller/PropertyController.js:55-75 | every record on a page is a stored record that satisfies every supplied parameter |
| PropertyController.UnlimitedFirstPageIsEveryMatch | controller/PropertyController.js:70-75 | with `limit=0` on the first page, the page holds every match, newest first, as a permutation of the matches |
| PropertyController.SearchItemsMatch | controller/PropertyController.js:193-206 | a search answers at most twenty stored records, each matching the query; when fewer than twenty match, it answers all of them |
| PropertyController.FilteredSame | controller/PropertyController.js:72-77 | two conditions that agree on every record keep the same records |
| PropertyRoutes.PostProperty | routes/PropertyRoutes.js:19 | the create validator runs before the handler; a refused request leaves the collection unchanged |
| PropertyRoutes.GetProperty | routes/PropertyRoutes.js:22 | a malformed id is 400; a well-formed one is looked up |
| PropertyRoutes.PutProperty | routes/PropertyRoutes.js:23 | the id check, then the update validator, then the handler, whose cast refusal carries the cast message alone; each refusal leaves the collection unchanged |
| PropertyRoutes.DeleteProperty | routes/PropertyRoutes.js:24 | a malformed id is 400; a well-formed one is deleted, or 404 when absent |
| PropertyRoutes.GetProperties | routes/PropertyRoutes.js:20 | every record the listing returns is stored and satisfies the query |
| PropertyRoutes.SearchProperties | routes/PropertyRoutes.js:21 | the search returns at most twenty stored records, each matching the query |
| Http.Truthy | controller/LeadController.js:30 | JavaScript truthiness of a JSON value: `null`, `false`, `0` and `""` are falsy, arrays and objects are truthy |
| Http.TruthyText | controller/PropertyController.js:57-62 | `if (x)` on a string that may be missing (also `!x` at middleware/validateProperty.js:17-47): present and not empty |
| Http.OrElse | controller/LeadController.js:79-80 | `x \|\| fallback` (also at lines 43-44, 58, 64 and 83): the value when it is present and truthy, the fallback otherwise |
| LeadController.Given | controller/LeadController.js:30 | a body key that is present and truthy |
| LeadController.Complete | controller/LeadController.js:30 | the four required lead fields are all present and truthy |
| LeadController.PayloadOf | controller/LeadController.js:38-46 | the forwarded lead has the four required fields as given, the property reference `null` when it is missing or falsy, and status "new" |
| LeadController.SubmitLead | controller/LeadController.js:25-67 | a missing or falsy required field is 400 and the sink's answer plays no part; a truthy `success` from the sink is 201 with its data; anything else is 500 with a non-empty message |
| LeadController.SubmitDependsOnlyOnPayload | controller/LeadController.js:27-49 | two bodies that forward the same lead get the same answer |
| LeadController.GetAllLeads | controller/LeadController.js:70-91 | a truthy `success` is 200 with `count` defaulting to 0 and `data` to `[]`; an unsuccessful answer is 500 with its message or "Failed to fetch leads"; a thrown error is 500 with its raw message |
| LeadController.ListedLeadsHaveDefaults | controller/LeadController.js:79-80 | a successful listing carries a truthy or empty-list `data` and a truthy or zero `count` |
| LeadController.FetchRefusalHasMessage | controller/LeadController.js:83 | the 500 for an unsuccessful answer is never empty |
| LeadController.NotImplemented | controller/LeadController.js:94-123 | the unsupported handlers answer 501 with `success` false and no data |
| LeadController.GetLeadById | controller/LeadController.js:94-99 | 501 with its fixed message for every request |
| LeadController.UpdateLeadStatus | controller/LeadController.js:102-107 | 501 with its fixed message for every request |
| LeadController.DownloadLeadsExcel | controller/LeadController.js:110-115 | 501 with its fixed message for every request |
| LeadController.DeleteLead | controller/LeadController.js:118-123 | 501 with its fixed message for every request |
| LeadController.UnsupportedIgnoreRequest | controller/LeadController.js:94-123 | the four unsupported handlers answer the same whatever the request |

## Left out

- The network call to the spreadsheet service, its configuration and logging are left out. The
  service's answer is a parameter: a function of the forwarded lead for `submitLead`, and a value
  for `getAllLeads`.
- A sink answer of `null` is not a separate case. Reading `success` from it throws, so it
  reaches the model as the `Failed` outcome with that error's message. A number, string, boolean
  or array answer has no `success`, so the handler answers 500 with its fallback text; the model
  represents it as a `SinkReply` with every field absent.
- A sink `message` that is not a string is left out; the model takes it as a string or absent.
- The upload middleware (multer and its error handler), `server.js`, the configuration and the
  lead routes are not part of this model. The files the upload middleware leaves on the request
  are an input, `Request.files`.
- `models/Lead.js` is not part of this model: the lead controller never uses it.
- Numbers are integers. Floating point, `NaN` and JavaScript's coercion of query strings and body
  values to numbers are not modelled. A numeric filter parameter is present exactly when it was
  supplied non-empty. An empty `limit=` or `page=` is read by the source as 0, so it is passed to
  the model as `Some(0)`: an empty limit means no limit, and an empty page gives a negative skip
  and a 500.
- Body keys present with the JSON value `null` are left out: a field of `Fields` is either absent
  or holds a value. In the source, an update with `"title": null` passes the update validator and
  is then refused by the schema's `required` check (400), and a create with `"bedrooms": null`
  passes the check at middleware/validateProperty.js:29 and is then refused by the schema.
- Body values of the wrong JSON type are left out, since `Fields` is typed. For example, a number
  or an object as `title` makes `title.trim()` throw at middleware/validateProperty.js:7, and
  Express answers through its error handler.
- Unicode is left out. Search lower-cases ASCII letters only, and the query is matched as a plain
  substring: regular-expression metacharacters are not interpreted. Lengths count characters,
  not UTF-16 code units.
- The text of a store error is a parameter (`storeError`). The one cast failure the model has is
  a path string in `images`. On create it is one entry of the validation error, under the
  `images` path; on update the cast throws before any validator runs, and the 400 carries the cast
  message alone. Casts of other paths cannot arise with the model's typed fields.
- PropertyModel.CastMessage: follows the wording `Cast to embedded failed for value "…" (type
  string) at path "images"`. The source does not pin its Mongoose version, and the wording differs
  between versions (later ones append a reason such as ` because of "ObjectParameterError"`), so the
  exact text of the cast message is not promised.
- PropertyModel.ValidationText: lists the failed paths in schema order. Mongoose lists them in the
  order its validators finish, and for an update in the order of the update's keys, so the order
  of the `path: message` entries in a refusal's message is not promised. The contracts of
  `PropertyStore.Create`, `PropertyStore.Update` (through `RefusalText`), `PostProperty` and `PutProperty` quote this
  text, so they fix the set of entries and the prefix but not, for the source, their order.
- The database's order among records with the same `createdAt` is not specified. The model keeps
  ties in insertion order.
- Concurrency is left out. Handlers run one at a time against the collection.
- A failing database is left out, since the in-memory store never fails. In the source,
  `createProperty` and `updateProperty` answer such a failure with 400 and the error's message,
  and `getPropertyById`, `deleteProperty` and `searchProperties` answer it with 500. Only the
  listing's refusal of a negative skip is kept, as a 500.
- New ids and the current time are inputs (`newId`, `now`), since the store generates them.
- PropertyController.PropertyStore.Find: stated against the records in insertion order, the
  database's natural order for this collection. Its order on real storage is not promised.
