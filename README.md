# laravel-restful-api, modelled in Dafny

The package gives Laravel controllers their REST actions through traits. Each
action reads the request and queries the model's store. It fills a response
document held in the controller and answers with that document and an HTTP
status. This project models the following parts of it:

- **The JSON:API controller (`JsonApiDefaultTrait`).** It has ten actions:
  index, details, create, create-by-id, collection and element replace,
  collection and element update, collection and element delete.
  - `ExtractJsonApiAttributes` translates a request body into the flat
    array(s) that are validated and saved (module `JsonApiRequest`).
  - `singularizeUrl` builds the self links.
- **The legacy JSON controller (`ApiJsonDefaultTrait`).** It has six
  actions: index, details, create, element replace, element update and
  element delete.
- **The two attribute projections.**
  - `ApiFilterTrait::getApiFilter` decodes every allowed property whose name
    contains `json`.
  - `JsonApiExposesTrait::getAttributes` copies the allowed properties as
    they are.
- **The response templates and getters** of `JsonApiTrait` and `JsonTrait`,
  and the page size of 200 that both use.
- **The two stand-in controllers** (`JsonApi501Trait`, `ApiJson501Trait`).
  Every action answers a constant "501 Not Implemented" document.

PHP arrays are ordered maps, modelled as `seq<Entry>` (module `PhpArrays`).
`Set` and `Unset` follow PHP's assignment and `unset`. `Push` follows `[] =`
on an array that has never lost an integer key: it appends under one more
than the largest integer key present (0 when there is none). A lookup of a
missing key reads `null`.

The framework stays abstract (module `Collaborators`):

- The store's answers (`find`, `paginate`, `all`, `whereIn`) are inputs.
- Its effects are returned as a list of `StoreCall`s in the order issued.
- The validator is a function from the data and a rule set to a message bag.
- `json_encode`/`json_decode` is a `JsonCodec`. The round-trip property is
  required only where a property depends on it.

Each controller is a class.

- Its field `doc` is the response array the source mutates.
- Every action is a method. Its `ensures` ties the new document, the reply
  and the store calls to a specification function of the old document
  (`IndexSpec`, `DetailsSpec`, …).
- The step-by-step writes live in value-level methods whose loops carry
  invariants. Each such method performs the source's assignments one by one;
  the matching `…Doc` function states the document they leave behind, and
  the method's `ensures` is that equality.
- What each specification function promises is proved in
  `JsonApiDefaultProps` and `ApiJsonDefaultProps`. These lemmas cover the
  reply status, the stored documents, the error path, the store calls, and
  what is left unchanged.

## Model

| member | source | states |
|---|---|---|
| ApiFilter.GetApiFilter | src/Traits/ApiFilterTrait.php:51-65 | the loop builds exactly the filtered projection `Filtered` of the allow-list (empty when there is none) |
| ApiFilter.FilterKeys | src/Traits/ApiFilterTrait.php:55-62 | the projection's keys are the allow-list's names, without duplicates, in first-seen order |
| ApiFilter.FilterFind | src/Traits/ApiFilterTrait.php:55-62 | a key is present iff it is an allowed name; its value is the property, decoded when the name contains `json` |
| ApiFilter.NoFilter | src/Traits/ApiFilterTrait.php:55 | a controller without `$api_array_filter` projects nothing |
| ApiFilter.RoundTrip | src/Traits/ApiFilterTrait.php:57-58 | a `json` property stored as `json_encode(v)` is presented as `v` again |
| JsonApiExposes.GetAttributes | src/Traits/JsonApiExposesTrait.php:70-79 | the loop builds exactly the exposed projection of `getApiArrayFilter()` |
| JsonApiExposes.ExposedKeys | src/Traits/JsonApiExposesTrait.php:74-76 | the result's keys are the allow-list's names, deduplicated, in order |
| JsonApiExposes.ExposedFind | src/Traits/JsonApiExposesTrait.php:74-76 | a key is present iff it is an allowed name, and then holds the raw property |
| JsonApiExposes.DefaultExposesNothing | src/Traits/JsonApiExposesTrait.php:49 | with the default empty allow-list no attribute is exposed |
| JsonApiExposes.ExposedIsFilteredWithoutJson | src/Traits/JsonApiExposesTrait.php:70-79 | when no allowed name contains `json`, `getAttributes` and `getApiFilter` agree |
| JsonApiTrait.TemplateShape | src/Traits/JsonApiTrait.php:46-52 | the template has exactly `data`, `errors`, `meta` (in that order), empty `data` and `errors`, a null `meta.status` and no `links` |
| JsonTrait.SameTemplate | src/Traits/JsonTrait.php:46-57 | the legacy template and page size equal the JSON:API ones (200) |
| JsonApiDefault.JsonApiController.constructor | src/Traits/JsonApiTrait.php:46-52 | a new controller holds the clean template |
| JsonApiDefault.JsonApiController.GetJsonApiResponseArray | src/Traits/JsonApiTrait.php:64-67 | returns the current document and changes nothing |
| JsonApiDefault.JsonApiController.GetJsonApiMaximumResponseNumber | src/Traits/JsonApiTrait.php:57-77 | returns the page size, 200 |
| JsonApiDefault.SingularizeUrl | src/Traits/JsonApiDefaultTrait.php:846-857 | an empty or missing url falls back to the base; every occurrence of the plural name is replaced by the singular (nothing when the plural is empty) |
| JsonApiDefaultProps.SingularizeUrlReplacesEvery | src/Traits/JsonApiDefaultTrait.php:852-856 | the url splits at the plural name into pieces that no longer contain it, and the result rejoins those pieces with the singular |
| JsonApiDefaultProps.SingularizeUrlUnchanged | src/Traits/JsonApiDefaultTrait.php:848-856 | a url without the plural name comes back unchanged; `null`, `""` and `"0"` mean the url base |
| JsonApiRequest.ExtractJsonApiAttributes | src/Traits/JsonApiDefaultTrait.php:793-838 | the translation equals `Extract`: single object, bulk list or empty array |
| JsonApiRequest.CopyAttributesLoop | src/Traits/JsonApiDefaultTrait.php:803-809 | the attribute loop equals `CopyAttributes`: each attribute is written in order, `json` names encoded |
| JsonApiRequest.ItemLoop | src/Traits/JsonApiDefaultTrait.php:817-828 | one bulk item becomes its id (only when truthy) followed by its attributes |
| JsonApiRequest.ItemsLoop | src/Traits/JsonApiDefaultTrait.php:816-834 | the bulk loop pushes, in order, exactly the items that came out non-empty (`KeptValues` states this without the loop) |
| JsonApiRequest.CopyFind | src/Traits/JsonApiDefaultTrait.php:803-809 | after the copy a key holds its attribute (encoded when its name contains `json`) or else its earlier value |
| JsonApiRequest.CopyEmpty | src/Traits/JsonApiDefaultTrait.php:803-809 | the copy is empty iff nothing was there and there are no attributes |
| JsonApiRequest.ExtractSingle | src/Traits/JsonApiDefaultTrait.php:797-810 | for a single object every key is its attribute (encoded for `json` names), `id` falls back to `data.id`, any other key is absent |
| JsonApiRequest.ItemFind | src/Traits/JsonApiDefaultTrait.php:817-828 | for a bulk item, the same with `id` present only when truthy |
| JsonApiRequest.ItemEmpty | src/Traits/JsonApiDefaultTrait.php:818-831 | an item is dropped iff its id is falsy and it has no attributes |
| JsonApiRequest.KeptList | src/Traits/JsonApiDefaultTrait.php:831-833 | the bulk result is a list no longer than the input |
| JsonApiRequest.KeptKeeps | src/Traits/JsonApiDefaultTrait.php:831-833 | every non-empty item appears in the bulk result |
| JsonApiRequest.KeptFrom | src/Traits/JsonApiDefaultTrait.php:831-833 | every entry of the bulk result is one of the non-empty items |
| JsonApiRequest.NonEmptyMaps | src/Traits/JsonApiDefaultTrait.php:831-833 | the non-empty item maps as arrays, front to back: every value is a non-empty array, and there are no more of them than items |
| JsonApiRequest.KeptValues | src/Traits/JsonApiDefaultTrait.php:816-834 | the values of the bulk result are exactly `NonEmptyMaps` of the items: the non-empty ones, each once, in input order |
| JsonApiRequest.ExtractSingleFirst | src/Traits/JsonApiDefaultTrait.php:797-809 | a single resource's translation starts with `id`, holding the `id` attribute if there is one and `data.id` otherwise |
| JsonApiRequest.ExtractListItems | src/Traits/JsonApiDefaultTrait.php:811-837 | every value of a translated list body (or of the empty result) is a non-empty array |
| JsonApiRequest.ExtractShapes | src/Traits/JsonApiDefaultTrait.php:797-837 | a single object always gets an `id`; otherwise the result is a list, and empty when the body is neither shape |
| JsonApiRequest.CopyKeeps | src/Traits/JsonApiDefaultTrait.php:801-809 | a key written before the copy is still present after it (the id survives) |
| JsonApiRequest.ExtractThenFilter | src/Traits/JsonApiDefaultTrait.php:803-806 | a `json` attribute saved as extracted is presented by `getApiFilter` as the value sent |
| JsonApiDefault.IndexEntries | src/Traits/JsonApiDefaultTrait.php:185-193 | one index entry per record, in page order |
| JsonApiDefault.DeletedEntries | src/Traits/JsonApiDefaultTrait.php:713-721 | one resource object per deleted record, in order |
| JsonApiDefault.ErrorObjects | src/Traits/JsonApiDefaultTrait.php:282-289 | one 422 error object per validator message, in order |
| JsonApiDefault.FirstFailure | src/Traits/JsonApiDefaultTrait.php:409-434 | the batch stops at the first item that is not an array (where `Validator::make` throws) or whose validation fails; every earlier item is an array that passed; `None` means every item passed |
| JsonApiDefault.ReplaceRules | src/Traits/JsonApiDefaultTrait.php:409-414 | every replaced item is validated against the fresh model's rules |
| JsonApiDefault.FindRecord | src/Traits/JsonApiDefaultTrait.php:577-580 | the lookup in the preloaded collection finds a record with that id, or reports that none has it |
| JsonApiDefault.UpdateRules | src/Traits/JsonApiDefaultTrait.php:575-589 | each item is validated against rules that ignore its existing record (if any) |
| JsonApiDefault.NewSaves | src/Traits/JsonApiDefaultTrait.php:440-447 | one save of a fresh record per item, in order |
| JsonApiDefault.UpdateSaves | src/Traits/JsonApiDefaultTrait.php:615-632 | one save per item, onto its existing record or a fresh one, in order |
| JsonApiDefault.ResourceObject | src/Traits/JsonApiDefaultTrait.php:770-774 | builds the resource object: id, type, attributes |
| JsonApiDefault.PushErrors | src/Traits/JsonApiDefaultTrait.php:282-289 | appends one error object per message to `errors` |
| JsonApiDefault.FailValidation | src/Traits/JsonApiDefaultTrait.php:281-293 | writes the 422 failure document |
| JsonApiDefault.WriteCreated | src/Traits/JsonApiDefaultTrait.php:295-312 | writes the 201 document for the stored record |
| JsonApiDefault.NotFound | src/Traits/JsonApiDefaultTrait.php:211-222 | writes the single 404 error and drops `meta` and `data` |
| JsonApiDefault.ValidateBatch | src/Traits/JsonApiDefaultTrait.php:409-434 | the loop stops iff some item is not an array or fails, and reports a throw iff that first item is not an array; on a failure it writes that item's errors, otherwise it leaves the document alone |
| JsonApiDefault.BatchDone | src/Traits/JsonApiDefaultTrait.php:438-454 | writes the batch success `meta` and drops `errors` |
| JsonApiDefault.IndexHead | src/Traits/JsonApiDefaultTrait.php:164-180 | writes the index `meta`, drops `errors` and writes the paging links |
| JsonApiDefault.PushIndexEntries | src/Traits/JsonApiDefaultTrait.php:185-193 | the loop appends the index entries to `data` in page order |
| JsonApiDefault.DetailsFound | src/Traits/JsonApiDefaultTrait.php:224-248 | writes the details document |
| JsonApiDefault.SaveEach | src/Traits/JsonApiDefaultTrait.php:440-447 | the loop issues exactly `NewSaves` |
| JsonApiDefault.CollectIds | src/Traits/JsonApiDefaultTrait.php:562-567 | the loop collects exactly the truthy ids, in order |
| JsonApiDefault.SaveUpdates | src/Traits/JsonApiDefaultTrait.php:615-632 | the loop issues exactly `UpdateSaves` |
| JsonApiDefault.MergeIdMessages | src/Traits/JsonApiDefaultTrait.php:495-501 | the id validator's messages are merged into the body validator's bag |
| JsonApiDefault.ReplaceFailed | src/Traits/JsonApiDefaultTrait.php:502-513 | writes the element-replace failure document |
| JsonApiDefault.UpdateFailed | src/Traits/JsonApiDefaultTrait.php:672-678 | writes the element-update failure document |
| JsonApiDefault.Updated | src/Traits/JsonApiDefaultTrait.php:683-687 | writes the element-update success document |
| JsonApiDefault.PushDeletedEntries | src/Traits/JsonApiDefaultTrait.php:713-721 | the loop appends the deleted records to `data` in order |
| JsonApiDefault.DeleteTail | src/Traits/JsonApiDefaultTrait.php:723-729 | writes the collection-delete `meta` and links |
| JsonApiDefault.DeletedOne | src/Traits/JsonApiDefaultTrait.php:759-776 | writes the element-delete document |
| JsonApiDefault.JsonApiController.Index | src/Traits/JsonApiDefaultTrait.php:159-196 | new document, reply and store calls are `IndexSpec` of the old document (see `IndexAnswers`) |
| JsonApiDefault.JsonApiController.Details | src/Traits/JsonApiDefaultTrait.php:206-252 | the same for `DetailsSpec`, for a found and a missing record |
| JsonApiDefault.JsonApiController.Create | src/Traits/JsonApiDefaultTrait.php:263-316 | the same for `CreateSpec` |
| JsonApiDefault.JsonApiController.CreateById | src/Traits/JsonApiDefaultTrait.php:326-387 | the same for `CreateByIdSpec` |
| JsonApiDefault.JsonApiController.CollectionReplace | src/Traits/JsonApiDefaultTrait.php:397-458 | the same for `CollectionReplaceSpec`, whose reply is the thrown error when an item is not an array (see `CollectionReplaceAnswers`, `SingleBodyThrows`) |
| JsonApiDefault.JsonApiController.ElementReplace | src/Traits/JsonApiDefaultTrait.php:468-545 | the same for `ElementReplaceSpec` |
| JsonApiDefault.JsonApiController.CollectionUpdate | src/Traits/JsonApiDefaultTrait.php:556-643 | the same for `CollectionUpdateSpec`, whose reply is the thrown error when an item is not an array (see `CollectionUpdateAnswers`, `SingleBodyThrows`) |
| JsonApiDefault.JsonApiController.ElementUpdate | src/Traits/JsonApiDefaultTrait.php:653-692 | the same for `ElementUpdateSpec` |
| JsonApiDefault.JsonApiController.CollectionDelete | src/Traits/JsonApiDefaultTrait.php:703-732 | the same for `CollectionDeleteSpec` |
| JsonApiDefault.JsonApiController.ElementDelete | src/Traits/JsonApiDefaultTrait.php:741-780 | the same for `ElementDeleteSpec` |
| JsonApiDefaultProps.IdentifiedFields | src/Traits/JsonApiDefaultTrait.php:770-774 | a resource object has distinct keys: the key as a string, the singular type, the exposed attributes |
| JsonApiDefaultProps.IndexEntryFields | src/Traits/JsonApiDefaultTrait.php:186-192 | an index entry also carries empty relationships and a self link built from the singularized base url and the key |
| JsonApiDefaultProps.IndexHeadReads | src/Traits/JsonApiDefaultTrait.php:164-180 | after the index head writes: `meta` status and count as written, no `errors`, `data` untouched, links as built with `prev`/`next` overwritten |
| JsonApiDefaultProps.LinksReads | src/Traits/JsonApiDefaultTrait.php:169-176 | the link block reads back its collection, self, first and last urls |
| JsonApiDefaultProps.IndexHeadMeta | src/Traits/JsonApiDefaultTrait.php:164-167 | the index reports status `"200"`, the page's record count, no `errors` and an untouched `data` |
| JsonApiDefaultProps.IndexHeadLinks | src/Traits/JsonApiDefaultTrait.php:169-180 | the paging links: base, current, first and last page; `next`/`prev` are the paginator's urls or null |
| JsonApiDefaultProps.TemplateEmpty | src/Traits/JsonApiTrait.php:46-52 | the template's `data` and `errors` start empty |
| JsonApiDefaultProps.FailedChain | src/Traits/JsonApiDefaultTrait.php:282-291 | the failure writes give status `"422"`, no `data`, and the old errors followed by the new ones |
| JsonApiDefaultProps.FailedReads | src/Traits/JsonApiDefaultTrait.php:281-293 | the failure document holds the error objects, and its first error's status is `"422"` |
| JsonApiDefaultProps.ErrorObjectStatus | src/Traits/JsonApiDefaultTrait.php:283-288 | every validation error object carries status `"422"` |
| JsonApiDefaultProps.NotFoundReads | src/Traits/JsonApiDefaultTrait.php:211-222 | the 404 document holds exactly one error, no `meta`, no `data`, and its status is `"404"` |
| JsonApiDefaultProps.BatchDoneReads | src/Traits/JsonApiDefaultTrait.php:438-454 | batch success: count, status and detail as given, no `errors`, `data` untouched |
| JsonApiDefaultProps.CreatedChain | src/Traits/JsonApiDefaultTrait.php:295-312 | the create writes give status `"201"`, count 1, the detail, no `errors`, and `data` with empty relationships |
| JsonApiDefaultProps.EntryReads | src/Traits/JsonApiDefaultTrait.php:300-306 | a five-field resource object reads back each field |
| JsonApiDefaultProps.CreatedReads | src/Traits/JsonApiDefaultTrait.php:295-312 | the 201 document describes the stored record: its key, type, attributes, self link and empty relationships |
| JsonApiDefaultProps.CreatedEntryReads | src/Traits/JsonApiDefaultTrait.php:300-307 | adding empty relationships keeps id, type, attributes and links |
| JsonApiDefaultProps.DetailsReads | src/Traits/JsonApiDefaultTrait.php:224-248 | details of a found record: status `"200"`, count 1, no `errors`, the collection link and the record |
| JsonApiDefaultProps.DetailsEntryReads | src/Traits/JsonApiDefaultTrait.php:230-245 | the details record reads back its id, type, attributes and self link; `relationships` is an empty array when no attribute is exposed and an empty object otherwise |
| JsonApiDefaultProps.DeletedReads | src/Traits/JsonApiDefaultTrait.php:759-776 | element delete: status `"200"`, count 1, the detail, the collection link and the deleted record |
| JsonApiDefaultProps.UpdateFailedReads | src/Traits/JsonApiDefaultTrait.php:672-678 | update failure: top-level status `"422"`, the detail, the validator's bag, meta status `"422"`, no `data` |
| JsonApiDefaultProps.UpdatedReads | src/Traits/JsonApiDefaultTrait.php:683-687 | update success: the record's json filter under the singular name, status `"200"` and the detail unless that name shadows them |
| JsonApiDefaultProps.DeleteChain | src/Traits/JsonApiDefaultTrait.php:705-729 | collection delete: count, status 200, the detail, the collection link, no `errors`, and `data` exactly the deleted records |
| JsonApiDefaultProps.DeleteHeadReads | src/Traits/JsonApiDefaultTrait.php:705-721 | the head writes drop `errors`, set the count, and append the records to an empty `data` |
| JsonApiDefaultProps.DeleteTailReads | src/Traits/JsonApiDefaultTrait.php:723-729 | the tail writes change only status, detail and links |
| JsonApiDefaultProps.ReplaceFailedReads | src/Traits/JsonApiDefaultTrait.php:502-513 | element replace failure: no `meta`, no `data`, the errors appended, first status `"422"` |
| JsonApiDefaultProps.IndexAnswers | src/Traits/JsonApiDefaultTrait.php:159-196 | on the template: status `"200"`, one paginate call of 200, count and `data` list exactly the page's entries in order, no `errors` |
| JsonApiDefaultProps.IndexKeepsLinks | src/Traits/JsonApiDefaultTrait.php:169-195 | the entry loop does not disturb the links |
| JsonApiDefaultProps.NotFoundAnswers | src/Traits/JsonApiDefaultTrait.php:206-222 | a missing record gives the same 404 from details and element delete; the lookup uses the id or 0 |
| JsonApiDefaultProps.DetailsAnswers | src/Traits/JsonApiDefaultTrait.php:206-252 | a found record: status `"200"`, one lookup, count 1, the record in `data`, no `errors` |
| JsonApiDefaultProps.CreateInputDropsKey | src/Traits/JsonApiDefaultTrait.php:266-274 | create validates and saves the translated body without its primary key and with every other key |
| JsonApiDefaultProps.CreateAnswers | src/Traits/JsonApiDefaultTrait.php:263-316 | failing validation: no store call, 422, the messages as errors, no `data`; passing: one save of the input, 201, count 1, the stored key, no `errors` |
| JsonApiDefaultProps.CreateByIdAnswers | src/Traits/JsonApiDefaultTrait.php:326-387 | the id replaces the body's key for validation and is saved as PHP's `(int)` of it (`StringToInt` for a string); 422 with no store call, or one save and 201 |
| PhpValues.NumeralToInt | src/Traits/JsonApiDefaultTrait.php:347 | `(int)` of a decimal numeral: a 64-bit integer, the value truncated toward zero when it fits, otherwise 0 past the largest double and the nearest bound before it |
| PhpValues.StringToInt | src/Traits/JsonApiDefaultTrait.php:347 | `(int)` of a string is always a 64-bit integer |
| PhpValues.IntStringRoundTrip | src/Traits/JsonApiDefaultTrait.php:347 | the decimal text of any 64-bit integer, followed by anything that does not continue the numeral, casts back to that integer |
| PhpValues.IntStringSaturates | src/Traits/JsonApiDefaultTrait.php:347 | a decimal integer beyond the 64-bit range casts to the nearest bound, or to 0 when it is too large for a double |
| PhpValues.LeadingSpace | src/Traits/JsonApiDefaultTrait.php:347 | leading space, tab, newline, carriage return, vertical tab or form feed does not change the cast |
| PhpValues.WholeNumeral | src/Traits/JsonApiDefaultTrait.php:347 | digits followed by an exponent (or by anything that is neither a digit nor a point) are read as those digits scaled by that exponent; the cast applies `NumeralToInt` to that reading |
| PhpValues.FractionNumeral | src/Traits/JsonApiDefaultTrait.php:347 | digits, a point, digits and an optional exponent are read as the digits without the point, scaled down by the fraction's length and up by the exponent |
| PhpValues.NatStringValue | src/Traits/JsonApiDefaultTrait.php:347 | the decimal text of a natural number is all digits and denotes that number |
| JsonApiDefaultProps.CollectionReplaceAnswers | src/Traits/JsonApiDefaultTrait.php:397-458 | the collection is force-deleted first in every case; at the first item that is not an array the action throws, leaving the document alone; at the first failing array its errors (422, nothing saved); otherwise one save per item, 201 and the item count |
| JsonApiDefaultProps.CollectionReplaceRejects | src/Traits/JsonApiDefaultTrait.php:409-430 | the failure half of the above, from a given first failing index that holds an array |
| JsonApiDefaultProps.CollectionReplaceAccepts | src/Traits/JsonApiDefaultTrait.php:436-454 | the success half of the above |
| JsonApiDefaultProps.ElementReplaceAnswers | src/Traits/JsonApiDefaultTrait.php:468-545 | either validator failing gives 422, one lookup, and the merged messages (exactly those of both bags); success force-deletes the old record and saves the body with the id, answering 201 |
| JsonApiDefaultProps.ElementReplaceAccepts | src/Traits/JsonApiDefaultTrait.php:517-544 | the success half of the above |
| JsonApiDefaultProps.ElementReplaceRejects | src/Traits/JsonApiDefaultTrait.php:495-513 | the failure half of the above |
| JsonApiDefaultProps.TruthyIdsAre | src/Traits/JsonApiDefaultTrait.php:562-567 | the preloaded ids are exactly the items' truthy ids |
| JsonApiDefaultProps.CollectionUpdateAnswers | src/Traits/JsonApiDefaultTrait.php:556-643 | one `whereIn` of the truthy ids; then the throw at the first item that is not an array, the first failing item's errors (422), or one save per item onto its record, 200 and the count |
| JsonApiDefaultProps.SingleBodyThrows | src/Traits/JsonApiDefaultTrait.php:397-413 | a single resource whose `id` is not an array makes both batch actions throw on their first item: the replace after force-deleting the table, the update after only its `whereIn` |
| JsonApiDefaultProps.ListBodyValidates | src/Traits/JsonApiDefaultTrait.php:586-589 | a list body never makes a batch action throw |
| JsonApiDefaultProps.ElementUpdateAnswers | src/Traits/JsonApiDefaultTrait.php:653-692 | the body gets the id; failure is 422 with the bag and no `data`; success saves onto the found record and answers 200 with the json filter |
| JsonApiDefaultProps.CollectionDeleteAnswers | src/Traits/JsonApiDefaultTrait.php:703-732 | on the template: fetch all then delete all, status 200, the count, and `data` exactly the deleted records in order |
| JsonApiDefaultProps.DeleteOnTemplate | src/Traits/JsonApiDefaultTrait.php:705-729 | starting from the template, `data` is exactly the pushed entries |
| JsonApiDefaultProps.ElementDeleteAnswers | src/Traits/JsonApiDefaultTrait.php:741-780 | a found record: status `"200"`, one lookup then one delete of that record, the record in `data`, count 1 |
| ApiJsonDefault.ResourceEntry | src/Traits/ApiJsonDefaultTrait.php:115-119 | a legacy entry: raw id, table name as type, the filtered attributes |
| ApiJsonDefault.IndexHead | src/Traits/ApiJsonDefaultTrait.php:94-112 | writes the legacy index `meta` and links |
| ApiJsonDefault.FillIndex | src/Traits/ApiJsonDefaultTrait.php:114-122 | the loop keys each record's entry by its id in `data` and sets `relationships` |
| ApiJsonDefault.FilterInput | src/Traits/ApiJsonDefaultTrait.php:220-224 | the loop copies each fillable field from the request, then sets `id` |
| ApiJsonDefault.Invalid | src/Traits/ApiJsonDefaultTrait.php:186-189 | writes the legacy 422 document |
| ApiJsonDefault.Written | src/Traits/ApiJsonDefaultTrait.php:193-197 | writes the legacy success document with the record under the singular table name |
| ApiJsonDefault.ApiJsonController.constructor | src/Traits/ApiJsonDefaultTrait.php:73-79 | a new controller holds the legacy template |
| ApiJsonDefault.ApiJsonController.GetJsonApiResponseArray | src/Traits/JsonTrait.php:64-67 | returns the current document and changes nothing |
| ApiJsonDefault.ApiJsonController.GetMaximumResponseNumber | src/Traits/JsonTrait.php:57-77 | returns the page size, 200 |
| ApiJsonDefault.ApiJsonController.Index | src/Traits/ApiJsonDefaultTrait.php:90-125 | new document, reply and store calls are `IndexSpec` of the old document (see `ApiJsonDefaultProps.IndexAnswers`) |
| ApiJsonDefault.ApiJsonController.Details | src/Traits/ApiJsonDefaultTrait.php:135-169 | the same for `DetailsSpec` |
| ApiJsonDefault.ApiJsonController.Create | src/Traits/ApiJsonDefaultTrait.php:180-201 | the same for `CreateSpec` |
| ApiJsonDefault.ApiJsonController.ElementReplace | src/Traits/ApiJsonDefaultTrait.php:217-252 | the same for `ElementReplaceSpec` |
| ApiJsonDefault.ApiJsonController.ElementUpdate | src/Traits/ApiJsonDefaultTrait.php:266-299 | the same for `ElementUpdateSpec` |
| ApiJsonDefault.ApiJsonController.ElementDelete | src/Traits/ApiJsonDefaultTrait.php:312-327 | the same for `ElementDeleteSpec` |
| ApiJsonDefaultProps.TemplateReads | src/Traits/ApiJsonDefaultTrait.php:73-79 | the legacy template starts with empty `data` and `errors` and no `relationships` |
| ApiJsonDefaultProps.LinkWrite | src/Traits/ApiJsonDefaultTrait.php:106-112 | a conditional link write changes only that link |
| ApiJsonDefaultProps.IndexHeadMeta | src/Traits/ApiJsonDefaultTrait.php:94 | the legacy index status is the integer 200; nothing outside `meta` and `links` changes |
| ApiJsonDefaultProps.PageLinksReads | src/Traits/ApiJsonDefaultTrait.php:96-103 | the link block: base, current, first and last page, `prev` and `next` null |
| ApiJsonDefaultProps.LinksChain | src/Traits/ApiJsonDefaultTrait.php:96-112 | after the block and the two conditional writes, each link reads back as written last |
| ApiJsonDefaultProps.IndexHeadLinks | src/Traits/ApiJsonDefaultTrait.php:96-112 | `next`/`prev` hold the paginator's url only when it is truthy, else null |
| ApiJsonDefaultProps.IdKeys | src/Traits/ApiJsonDefaultTrait.php:115 | each record's `data` key is its id as an array key |
| ApiJsonDefaultProps.LastWithId | src/Traits/ApiJsonDefaultTrait.php:114-122 | the record a key ends up describing is one with that id, and none means no record has it |
| ApiJsonDefaultProps.IndexStepData | src/Traits/ApiJsonDefaultTrait.php:115-119 | one step writes that record's entry under its id |
| ApiJsonDefaultProps.IndexDataFind | src/Traits/ApiJsonDefaultTrait.php:114-122 | after the loop each key holds the entry of the last record with that id, or its earlier value |
| ApiJsonDefaultProps.IndexDataKeys | src/Traits/ApiJsonDefaultTrait.php:114-122 | from an empty `data`, the keys are the distinct ids in first-seen order |
| ApiJsonDefaultProps.IndexStepSameId | src/Traits/ApiJsonDefaultTrait.php:115-121 | a later record with the same id overwrites the earlier one completely |
| ApiJsonDefaultProps.IndexDataSnoc | src/Traits/ApiJsonDefaultTrait.php:114-122 | the loop over one more record is one more step |
| ApiJsonDefaultProps.IndexLaterWins | src/Traits/ApiJsonDefaultTrait.php:114-122 | of two consecutive records with the same id, only the later one counts |
| ApiJsonDefaultProps.IndexDataOther | src/Traits/ApiJsonDefaultTrait.php:114-122 | the loop changes nothing outside `data` and `relationships` |
| ApiJsonDefaultProps.IndexAnswers | src/Traits/ApiJsonDefaultTrait.php:90-125 | on the template: integer status 200, one paginate call of 200, `data` keyed by the distinct ids with the last record per id, `errors` kept, `relationships` only when there was a record |
| ApiJsonDefaultProps.IndexKeepsLinks | src/Traits/ApiJsonDefaultTrait.php:96-122 | the entry loop does not disturb the links |
| ApiJsonDefaultProps.LegacyEntryFields | src/Traits/ApiJsonDefaultTrait.php:115-119 | an entry reads back the raw id, the table name and the filtered attributes |
| ApiJsonDefaultProps.DetailsMissing | src/Traits/ApiJsonDefaultTrait.php:137-147 | a missing record: reply `"404"`, one lookup, `errors` is the single error map (not a list); nothing else changes |
| ApiJsonDefaultProps.DetailsFound | src/Traits/ApiJsonDefaultTrait.php:149-165 | a found record: integer status 200, count 1, the collection and self links, the entry, empty relationships, `errors` kept |
| ApiJsonDefaultProps.StatusDocReads | src/Traits/ApiJsonDefaultTrait.php:317-318 | the top-level status and detail read back; nothing else changes |
| ApiJsonDefaultProps.InvalidReads | src/Traits/ApiJsonDefaultTrait.php:186-189 | the 422 document carries the detail and the validator's bag |
| ApiJsonDefaultProps.WrittenReads | src/Traits/ApiJsonDefaultTrait.php:193-197 | the record sits under the singular table name; status and detail read back unless that name shadows them |
| ApiJsonDefaultProps.CreateAnswers | src/Traits/ApiJsonDefaultTrait.php:180-201 | failure: no store call, 422, the bag; success: one save of the request, the record, 201 and the detail |
| ApiJsonDefaultProps.FillableKeys | src/Traits/ApiJsonDefaultTrait.php:221-223 | the filtered input's keys are the fillable names, deduplicated, in order |
| ApiJsonDefaultProps.FillableFind | src/Traits/ApiJsonDefaultTrait.php:221-223 | a fillable name holds the request's value (null when absent); no other key exists |
| ApiJsonDefaultProps.FilteredInputShape | src/Traits/ApiJsonDefaultTrait.php:220-224 | the input holds exactly the fillable fields and `id`, with `id` the route id |
| ApiJsonDefaultProps.ElementReplaceAnswers | src/Traits/ApiJsonDefaultTrait.php:217-252 | failure: 422, no store call; a missing record is fatal after one lookup; otherwise lookup, force-delete, save of the input, 200 |
| ApiJsonDefaultProps.ElementUpdateAnswers | src/Traits/ApiJsonDefaultTrait.php:266-299 | failure: 422, no store call; a missing record is fatal; otherwise lookup then save onto it, 200 |
| ApiJsonDefaultProps.ElementDeleteAnswers | src/Traits/ApiJsonDefaultTrait.php:312-327 | missing: 404 with its detail after one lookup; found: lookup then delete of that record, 200 and its detail |
| JsonApi501.Respond | src/Traits/JsonApi501Trait.php:80-203 | every action, whatever its request and id, answers the constant document with status `"501"` |
| JsonApi501.ResponseShape | src/Traits/JsonApi501Trait.php:56-69 | the document holds one error, 501 "Not Implemented", and `meta` repeats its status, title and detail |
| JsonApi501.RespondConstant | src/Traits/JsonApi501Trait.php:80-203 | any two calls answer alike |
| ApiJson501.AsWrittenOnlyIndexAnswers | src/Traits/ApiJson501Trait.php:80-201 | as written, only `jsonIndex` finds a status; the other nine fail on the missing key |
| ApiJson501.Respond | src/Traits/ApiJson501Trait.php:80-83 | corrected: every action answers the constant document with status `"501"` |
| ApiJson501.SameResponse | src/Traits/ApiJson501Trait.php:56-69 | the legacy stand-in's document is the JSON:API stand-in's |

## Left out

- PhpArrays.Push: PHP keeps its next free integer key after an `unset`, and from PHP 8.3 continues after a negative largest key. `Push` appends after the largest integer key present (or at 0). No action of the core unsets an integer key before appending, so the two agree wherever `Push` is used.
- PhpValues.StringToInt: a numeral with a fraction or an exponent is truncated exactly. PHP first rounds it to a double, which differs from the exact value beyond about 15 significant digits. `ToInt` of an object gives 1 without PHP's warning.
- PHP's normalisation of numeric string keys (`"5"` → `5`) is not modelled. Keys are kept as written.
- Loose comparisons (`==`) in the store lookups are modelled as strict equality.
- A read of a missing array key gives `null`. Laravel's promotion of that notice to an exception is not modelled. The one place where the missing key is the whole behaviour, `ApiJson501Trait`, is listed under Findings.
- `getApiAttributes`, called by the JSON:API controller, is not part of this model. It is taken to be `JsonApiExposesTrait::getAttributes`.
- `getJsonFilter`, used by element update, is not part of this model. Its result is an input.
- `Inflector::singularize`, `getModelNameSingular` and the API names are not part of this model. They are fields of the model descriptor.
- The record the store hands back after `save()` is an input, not computed.
- Eloquent's mass-assignment guarding in `new model($request->all())` and `fill()` is not modelled. A save records the attributes it was given.
- `$request->get()` is read as a plain lookup. Laravel's dot-notation for nested keys is not modelled.
- The batch actions treat every body through `extractJsonApiAttributes`. A single-object body sent to one gives scalar items, and `Validator::make` throws a `TypeError` on the first of them. The model answers that throw as a `Fatal` reply with the document left as it was (`SingleBodyThrows`); the error page, and any handler that catches the exception, are not modelled.
- `$failed` is undefined when a batch is empty. The model treats that as "not failed".
- Each action runs on the document as the controller holds it. Running two actions on one controller writes into the same document, as the source does.
- Store effects are returned as a list of calls. Transactions, failures of the store and model events are not modelled.
- The legacy actions take `int $id`, so `$id ?? 0` is the id itself.
- The legacy replace and update dereference the result of `find` without a check. A missing record is a `Fatal` reply. The model does not describe the error page that follows.
- The JSON text, `Response::json` and HTTP emission are not modelled. A reply is the document and the status value.
- The interface files and the getters/setters for model, controller model and url base are not modelled. They hold no logic.
- ApiJsonDefaultProps.WrittenReads: the status and detail are stated only when the singular table name is not `status` or `detail`. A table with such a name overwrites them in the source.
- JsonApiDefaultProps.UpdatedReads: the same guard, for the API singular name.
- JsonApiDefault.JsonApiController.GetJsonApiMaximumResponseNumber: the page size is a constant. A subclass overriding the protected property is not modelled.
- The tests that expect other documents than the code produces are not followed. The model follows the code. For example, the legacy 404 keeps `data` and `meta`, and element update keeps `data` and `errors` while adding top-level keys.

## Findings

| source | as written | input that shows it | evidently intended | confidence | as-written member | corrected member |
|---|---|---|---|---|---|---|
| src/Traits/ApiJson501Trait.php:93-201 | nine of the ten actions read the status from `$this->response['errors']['status']`, but `errors` is a list whose only key is `0` | any action other than `jsonIndex`, e.g. `jsonDetails` with any id | a status of `"501"` from every action. Either the lookup is meant to be `$this->response['errors'][0]['status']`, as `jsonIndex` and the JSON:API stand-in read it, or the document is meant to hold `errors` as a single map, as tests/Functional/ApiJson501TraitTest.php:60-70 expects (that test also expects `data` `[]` and a null `meta.status`), which makes `['errors']['status']` right. The corrected member follows the first reading | not executed | ApiJson501.AsWrittenOnlyIndexAnswers | ApiJson501.Respond |
