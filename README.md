# meteor-ui5 Mongo binding layer in Dafny

This project models the layer of meteor-ui5 that binds SAPUI5 controls to Meteor's Mongo collections, and proves
properties of that model. The layer exists in two revisions, and each is modelled as written:

- The newer revision is `src/ui5/...`.
- The older revision is `model/...`, together with the compiled `dist/...` files for the property list binding and the
  context binding.

It has two kinds of parts:

- **The model** (`Model.js`). It resolves a binding path against a context and keeps one context object per absolute
  path. It parses a path into collection, document id and property path. It compiles UI5 filters and sorters into a
  Mongo selector and sort specifier, and assembles the query a binding observes. It also reads a property from a
  document, and destroys its bindings.
- **The bindings.** A list binding over the documents of a collection (`DocumentListBinding`). A list binding over an
  array property of one document (`PropertyListBinding`). A binding of one document as an element context
  (`ContextBinding`).

Each binding is a `class` whose fields are the binding's own:

- the context paths it lists;
- its sorters and filters;
- its element context;
- its query handles.

The Meteor and UI5 runtime appears only as data. Each query handle the binding opened is an entry of `stopped`, and
`handle` is the position of the current one. What the binding fires or calls back into UI5 is recorded in a ghost
`events` log.

Modules:

- `Common` (`common.dfy`) holds values, document ids, filters and sorters, selectors, the event log, and JavaScript's
  string, `slice` and `splice` rules.
- `QueryCompiler` (`query.dfy`) holds the selector and sort-specifier compilation shared by both revisions, over an
  operator switch passed in as a function.
- `LegacyModel` (`legacy_model.dfy`) and `MongoModel` (`mongo_model.dfy`) are the two `Model.js` files. The newer
  model reuses `resolve` and `getContext`, which it inherits.
- `DocumentListBinding`, `LegacyDocumentListBinding`, `PropertyListBinding`, `LegacyPropertyListBinding`,
  `ContextBinding` and `LegacyContextBinding` are the six binding files.

In three places the code does not do what its authors evidently meant. The model follows the intended behaviour in
the first two and the code in the third:

- The newer `ContextBinding.js` defines its prototype methods as arrow functions, so `this` in them is the `this` of the
  module's factory, not the binding. As written, `destroy`, `refresh`, `initialize`, `setContext` and `_runQuery` read
  and write none of the binding's fields, and the constructor's `this._runQuery()` does not query the binding's document.
  `ContextBinding` models the methods as the binding's own, which is what the older file does. "## Left out" names the
  gap.
- Both `Model.js` files report a rejected filter or sorter through `this.oModel.fireParseError` inside a `forEach`
  callback: the older one at lines 454, 510, 561 and 573, the newer one at lines 503, 562, 622 and 634. In both the
  callback is an arrow function, so `this` is the model. The model has no `oModel`, so as written the call throws a
  TypeError, and a query with one rejected filter or sorter throws as a whole. The model instead records a `ParseError`
  event and skips the entry, in both revisions: the `return` that follows each call shows that skipping was intended.
  "## Left out" names the gap.
- The newer list binding's `findIndex` miss (-1) flows into `splice(-1, ...)`. This is modelled as written: it
  inserts before the last context and removes the last context.

## Model

| member | source | states |
|---|---|---|
| LegacyModel.Model.constructor | model/mongo/Model.js:71-87 | the new model has an empty context cache, the size limit `iSizeLimit \|\| 100`, and legacy syntax off |
| MongoModel.Model.constructor | src/ui5/model/mongo/Model.js:50-57 | the intended construction: an empty cache and the limit `iSizeLimit \|\| 100`; as written it throws for any given limit (see Findings) |
| MongoModel.ConstructedSizeLimit | src/ui5/model/mongo/Model.js:50-57 | as written, construction gets through only without a limit, and then with 100 |
| MongoModel.SizeLimitRejected | src/ui5/model/mongo/Model.js:50-57 | every given limit makes `Model.apply(this, iSizeLimit)` throw, where `iSizeLimit \|\| 100` keeps any limit other than 0; without a limit both give 100 |
| LegacyModel.Resolve | model/mongo/Model.js:648-668 | the result is undefined exactly when the path is relative, there is no context and legacy syntax is off; a context always gives a path |
| LegacyModel.TrimSlash | model/mongo/Model.js:663-666 | trimming the trailing slash keeps an undefined path undefined and a defined one defined |
| LegacyModel.ResolveRelative | model/mongo/Model.js:652-655 | a relative path under a context is the context path, one `/`, and the path, with no doubled slash when the context path ends in `/` |
| LegacyModel.ResolveWithoutContext | model/mongo/Model.js:652-659 | without a context a relative path is undefined, or `"/" + path` under legacy syntax |
| LegacyModel.ResolveEmpty | model/mongo/Model.js:660-666 | an empty path under a context resolves to the context path, less one trailing `/` |
| LegacyModel.ResolveAbsolute | model/mongo/Model.js:649-651 | an absolute path resolves to itself whatever the context |
| LegacyModel.FullPath | model/mongo/Model.js:345 | the full path is the path itself without a context, and the resolved path with one |
| LegacyModel.Context.constructor | model/mongo/Model.js:628 | a new context holds the path it was made for |
| LegacyModel.ContextCache.constructor | model/mongo/Model.js:77 | the cache starts empty and consistent |
| LegacyModel.ContextCache.GetContext | model/mongo/Model.js:622-632 | throws exactly for a path not starting with `/`; otherwise the cached context for the path, created fresh and stored on the first request, with no entry ever removed or replaced |
| LegacyModel.Model.CreateBindingContext | model/mongo/Model.js:187-207 | a function in the context or parameters slot becomes the callback; an unresolvable path gives null; otherwise the context of the resolved path, or of `/` when that is empty, and a throw when that path lacks the root `/`; earlier cache entries are kept |
| MongoModel.Model.CreateBindingContext | src/ui5/model/mongo/Model.js:168-188 | the resolved path, or `/` when it is undefined or empty, is looked up in the cache; the callback gets that context; a throw when the path lacks the root `/`; earlier cache entries are kept |
| MongoModel.UnresolvedGivesRoot | src/ui5/model/mongo/Model.js:177-178 | a relative path without a context resolves to nothing, which the newer model replaces by `/` |
| MongoModel.ParsePath | src/ui5/model/mongo/Model.js:306-400 | only the empty path throws, after both parse errors; any other path raises at most the root error; the collection name holds neither `/` nor `(` |
| MongoModel.LookupMarker | src/ui5/model/mongo/Model.js:320-323 | a leading `?` parses exactly as a leading `/` and raises no error |
| MongoModel.SegmentsUnrooted | src/ui5/model/mongo/Model.js:333-336 | the segments of a path without root are its `split('/')` pieces, as for the same path with `/` put in front |
| MongoModel.NoRootContinues | src/ui5/model/mongo/Model.js:324-330 | another first character raises the root error, yet parsing goes on as for the path with `/` in front |
| MongoModel.DocumentIdOf | src/ui5/model/mongo/Model.js:360-378 | the id is the text after `(` up to the segment's last character; it is an ObjectID exactly when that text starts with `Object` |
| MongoModel.IdOfSegment | src/ui5/model/mongo/Model.js:348-378 | in `C(idText)` the `(` is found after the collection name, and the id text is read back as the id it prints |
| MongoModel.ObjectPrefixMisread | src/ui5/model/mongo/Model.js:360-378 | a string id starting with `Object` does not survive its document path: it parses back as an ObjectID |
| MongoModel.ObjectSegment | src/ui5/model/mongo/Model.js:349-378 | in `C(Object…)` the first `(` is the one after the collection name, and the id text is taken for an ObjectID |
| MongoModel.SegmentOpen | src/ui5/model/mongo/Model.js:348-366 | in `C(t)` the first `(` follows `C`, and the text cut out between the parentheses is `t` |
| MongoModel.ObjectIdText | src/ui5/model/mongo/Model.js:370-378 | in `ObjectID("h")` the first two double quotes enclose exactly `h` |
| MongoModel.ParseDocumentPath | src/ui5/model/mongo/Model.js:306-400 | `/C(id)` followed by further segments parses, without errors, to the collection, the id and the property path of those segments |
| MongoModel.ParseOfSegments | src/ui5/model/mongo/Model.js:333-400 | a rooted path parses by its first segment (name before `(`, id after it) and the segments after it |
| MongoModel.ParseOfBareSegment | src/ui5/model/mongo/Model.js:348-353 | a first segment without `(` is all collection name, with the empty id |
| MongoModel.IdTextWithoutSlash | src/ui5/model/mongo/Model.js:333 | a well-formed id prints without `/`, so it stays within one segment |
| MongoModel.DocumentPathRoundTrip | src/ui5/model/mongo/Model.js:306-400 | the path `/C(id)` parses back to collection `C` and the same id, ObjectIDs included |
| MongoModel.SingleSegmentPath | src/ui5/model/mongo/Model.js:333 | `/C(t)` is the single segment `C(t)` written as an absolute path |
| MongoModel.QuotedDocumentPathMisparsed | src/ui5/model/mongo/DocumentListBinding.js:257-261 | the newer list binding's `/C('id)` parses to an id that starts with `'`, never to the id itself |
| MongoModel.ParseLookupPath | src/ui5/model/mongo/Model.js:319-398 | the lookup path `?C(field)/.N` parses to collection `C`, the field name in place of the id, and `.N` |
| MongoModel.LookupPropertyPath | src/ui5/model/mongo/Model.js:381-398 | a lookup segment after a collection segment gets a `/` inserted after its `)`, keeping the `.` |
| MongoModel.Fragment | src/ui5/model/mongo/Model.js:515-566 | an operator is rejected, with its own error, exactly when the switch does not know it |
| MongoModel.ComparisonKey | src/ui5/model/mongo/Model.js:524-548 | exactly GE, GT, LE, LT and NE compile to a single operator key |
| MongoModel.ComparisonsHaveOneKey | src/ui5/model/mongo/Model.js:524-548 | GE, GT, LE, LT and NE each give one operator key over the first value; GE gives `$gte` and no `$gt` |
| MongoModel.GEDiffersFromLegacy | src/ui5/model/mongo/Model.js:524-527 | a GE filter compiles to `{$gte: v1}` here and to `{$gte: v1, $gt: v1}` in the older revision |
| MongoModel.SwitchesAgree | src/ui5/model/mongo/Model.js:515-566 | the two revisions' operator switches give the same fragment exactly when the operator is not GE and is not a StartsWith or EndsWith over an ObjectID, where the newer template literal writes `ObjectID("hex")` and the older `+` writes the hex |
| MongoModel.BuildMongoSelector | src/ui5/model/mongo/Model.js:491-599 | the selector and the parse errors are those of the shared selector definition over this revision's operator switch |
| MongoModel.BuildMongoSortSpecifier | src/ui5/model/mongo/Model.js:610-645 | the sort spec, with the object's own-key order, and the parse errors are those of the shared sort-spec definition |
| MongoModel.RunQuery | src/ui5/model/mongo/Model.js:417-445 | the query is built exactly when the full path is not empty, and its limit is always the model's size limit |
| MongoModel.DocumentQuery | src/ui5/model/mongo/Model.js:425-440 | the query of `/C(id)` with a truthy id selects `{_id: id}` whatever the filters, with the size limit and a sort only for sorters |
| MongoModel.QueryOfComponents | src/ui5/model/mongo/Model.js:417-440 | once a path is parsed with a truthy id, the query is on its collection with `{_id: id}`, the limit, and a sort only for sorters |
| MongoModel.Get | src/ui5/model/mongo/Model.js:661-674 | the result is the object itself or the default; the default exactly when some step is not a defined key of the top-level object; a throw only when reading from undefined or null |
| MongoModel.IdValueTruthy | src/ui5/model/mongo/Model.js:426 | the `_id` selector value is truthy exactly when the parsed id is: only the empty string id is falsy, and every object is truthy |
| MongoModel.GetNeverDescends | src/ui5/model/mongo/Model.js:661-674 | for a defined top-level key this `_get` gives the whole object, where the older one gives the key's value |
| MongoModel.Lookup | src/ui5/model/mongo/Model.js:272-281 | a lookup path leads to a context path `/collection(...)`; nothing is reached only for an empty lookup path or a missing document |
| MongoModel.LookupOfField | src/ui5/model/mongo/Model.js:272-289 | `?C(field)/.N` read from a document holding `field` leads to `/C(value)` and `.N`, and that path parses back to the value as id |
| MongoModel.LookupTargetOf | src/ui5/model/mongo/Model.js:272-281 | `?C(field)/.N` read from a document holding `field` leads to `/C(value)` and `.N` |
| MongoModel.PropertyStep | src/ui5/model/mongo/Model.js:224-254 | no context gives null; the call throws exactly when the full path is empty; a missing document gives null; an empty property path gives the document; a `?` path continues with the lookup; any other path gives `_get(document, path)` |
| MongoModel.FollowLookups | src/ui5/model/mongo/Model.js:285-289 | a step that ends gives its result; one that still has a lookup to follow ends when the fuel is spent |
| MongoModel.MoreFuel | src/ui5/model/mongo/Model.js:285-289 | a result reached with some fuel stays the same with more fuel |
| MongoModel.PropertyOf | src/ui5/model/mongo/Model.js:224-254 | `getProperty` gives the step's result whenever the first step ends |
| MongoModel.PlainPropertyGivesDocument | src/ui5/model/mongo/Model.js:244-247 | a plain property below a document context gives the whole document, through the non-descending `_get` |
| MongoModel.PlainPropertyPath | src/ui5/model/mongo/Model.js:306-400 | a plain name relative to a document path parses to that document and the name |
| MongoModel.StepOfPlainPath | src/ui5/model/mongo/Model.js:233-247 | `getProperty` on a parsed path with a plain property path reads the document with `_get` |
| MongoModel.DestroyedBindings | src/ui5/model/mongo/Model.js:473-484 | `destroy` is called on every binding, in order |
| MongoModel.DestroyCoversLegacy | src/ui5/model/mongo/Model.js:473-484 | every binding the older revision destroys is destroyed here too, and every other one as well |
| LegacyModel.DestroyedBindings | model/mongo/Model.js:678-689 | `destroy` is called exactly on the bindings having it as an own property, in order |
| LegacyModel.PrototypeDestroyNeverCalled | model/mongo/Model.js:678-689 | when no binding has `destroy` as an own property, as for every binding of this layer, no binding is destroyed |
| LegacyModel.Get | model/mongo/Model.js:232-244 | `_get` walks the normalised steps, reassigning the object reached, and gives the default as soon as a step is undefined |
| LegacyModel.WalkNested | model/mongo/Model.js:232-244 | a value stored under nested keys, one object per key, is what walking those keys reaches |
| LegacyModel.GetArrayLength | model/mongo/Model.js:232-244 | `_get(obj, "items.length")` on an array property gives the array's length |
| LegacyModel.GetIndexed | model/mongo/Model.js:232-244 | `name[i]` reaches element `i` of the array property `name` |
| LegacyModel.GetMissing | model/mongo/Model.js:232-244 | a missing top-level key gives the default |
| LegacyModel.LegacyDocumentId | model/mongo/Model.js:377-387 | the older id is always a plain string id, never an ObjectID |
| LegacyModel.ParsePath | model/mongo/Model.js:334-408 | parsing throws exactly for the empty path; the errors are the root error alone; the id is always a plain string id, and the collection name holds neither `/` nor `(` |
| LegacyModel.ParenIndexes | model/mongo/Model.js:377-387 | in `C(id)` the first `(` follows the name and the first `)` follows the id |
| LegacyModel.OpenParen | model/mongo/Model.js:377-381 | in `C(id)` the first `(` follows `C`, and the rest of the segment starts there |
| LegacyModel.CloseParen | model/mongo/Model.js:383-385 | in `C(id)` the first `)` follows the id, and the text before it is the id |
| LegacyModel.SegmentsOfPath | model/mongo/Model.js:362-366 | an absolute path of separator-free segments splits back into them |
| LegacyModel.ParseCollectionSegment | model/mongo/Model.js:334-408 | `/C(id)/...` parses to the name before `(`, the text strictly between `(` and the first `)`, and the property path of the rest |
| LegacyModel.SegmentIdOf | model/mongo/Model.js:377-387 | `C(id)` holds no `/`; its name ends at the first `(` and its id is read as the plain id `id` |
| LegacyModel.ParseOfSegments | model/mongo/Model.js:362-405 | a path starting with `/` parses, without errors, by its first segment (name before `(`, id after it) and the segments after it |
| LegacyModel.ParseBareCollection | model/mongo/Model.js:377-381 | a segment without `(` is all collection name, with the empty id |
| LegacyModel.GEFallsThrough | model/mongo/Model.js:491-495 | GE falls through into GT, so a GE filter compiles to both `$gte` and `$gt` on the first value |
| LegacyModel.LegacyFragment | model/mongo/Model.js:464-513 | an operator is rejected, with its own error, exactly when the switch does not know it |
| LegacyModel.TextOperators | model/mongo/Model.js:469-484 | Contains, StartsWith and EndsWith become a case-insensitive `$regex`: the value for Contains (a RegExp keeps its source, undefined gives the empty pattern), and `^` before or `$` after the text `+` gives the value (the hex of an ObjectID) for the others |
| LegacyModel.BuildMongoSelector | model/mongo/Model.js:442-547 | the selector and the parse errors are those of the shared selector definition over this revision's operator switch |
| LegacyModel.RunQuery | model/mongo/Model.js:411-439 | the query is built exactly when the full path is not empty |
| QueryCompiler.AddPaths | src/ui5/model/mongo/Model.js:568-579 | adding a fragment adds its path at the end when it is new, and keeps the paths otherwise |
| QueryCompiler.AddLookup | src/ui5/model/mongo/Model.js:568-579 | adding a fragment appends it to its path's group and changes no other group |
| QueryCompiler.AddKeepsDistinct | src/ui5/model/mongo/Model.js:568-579 | the `properties` Map never holds a path twice |
| QueryCompiler.FirstSeenMembers | src/ui5/model/mongo/Model.js:568-579 | the first-seen order holds each path once, and exactly the paths seen |
| QueryCompiler.GroupsCharacterised | src/ui5/model/mongo/Model.js:498-579 | the groups come in first-seen order of the accepted filters' paths, each holding exactly the accepted fragments on its path in filter order |
| QueryCompiler.GroupsDistinct | src/ui5/model/mongo/Model.js:498-579 | one group per property, and exactly the properties of the accepted filters |
| QueryCompiler.SelectorsForInPaths | src/ui5/model/mongo/Model.js:570-578 | looking up a group's path gives that group's fragments |
| QueryCompiler.SelectorShape | src/ui5/model/mongo/Model.js:491-599 | the selector is undefined exactly when no filter survives; otherwise one conjunct per property in first-seen order, its fragments in filter order, OR-ed when several, AND-ed when several properties |
| QueryCompiler.ErrorsCount | src/ui5/model/mongo/Model.js:498-566 | each filter is either compiled or reported, never both and never neither |
| QueryCompiler.GroupFilters | src/ui5/model/mongo/Model.js:498-580 | the `forEach` loop fills the `properties` Map and raises the parse errors of the shared definitions |
| QueryCompiler.ConjoinGroups | src/ui5/model/mongo/Model.js:582-591 | the `properties.forEach` loop builds one `$and` entry per group |
| QueryCompiler.BuildSelector | src/ui5/model/mongo/Model.js:491-599 | `_buildMongoSelector` returns the selector of the shared definition and raises its errors |
| QueryCompiler.SortRejection | src/ui5/model/mongo/Model.js:614-638 | a sorter is accepted exactly when its path has no `/` or `.` and it has no comparator function |
| QueryCompiler.PutKeyFacts | src/ui5/model/mongo/Model.js:640 | setting a key on the specifier object keeps an existing key in its place, puts a new array-index key among the index keys in ascending order ahead of the other keys, and adds any other new key at the end; it changes only that key's direction |
| QueryCompiler.PutKeyPaths | src/ui5/model/mongo/Model.js:640 | setting a key keeps an existing key in its place, adds a new key that is not an array index at the end, keeps the own-key order (array indexes first and ascending), adds the key once, and adds it to the non-index keys only when it is a new non-index key |
| QueryCompiler.PutKeyDirection | src/ui5/model/mongo/Model.js:640 | setting a key changes only that key's direction |
| QueryCompiler.SortSpecCharacterised | src/ui5/model/mongo/Model.js:610-645 | the spec has one key per accepted path, in JavaScript's own-key order: the array-index paths first and ascending, then the others in first-seen order; each key holds the direction of the last accepted sorter on it |
| QueryCompiler.SortOverride | src/ui5/model/mongo/Model.js:640 | a later sorter on a path already sorted overrides the direction and keeps the key's place |
| QueryCompiler.InsertIndexKeyFacts | src/ui5/model/mongo/Model.js:640 | a new array-index key goes among the index keys in ascending order: the own-key order is kept, the key is added once, and the non-index keys are unchanged |
| QueryCompiler.AppendNamedKeyFacts | src/ui5/model/mongo/Model.js:640 | a new key that is not an array index goes after every other key, keeping the own-key order |
| QueryCompiler.SetKeyFacts | src/ui5/model/mongo/Model.js:640 | overwriting an existing key keeps every key in its place and changes only that key's direction |
| QueryCompiler.SortSpecWithoutIndexes | src/ui5/model/mongo/Model.js:610-645 | when no accepted path is an array index, the keys are the accepted paths in first-seen order |
| QueryCompiler.IndexKeysAscend | src/ui5/model/mongo/Model.js:610-645 | sorters on `2` and then `1` give the keys `1`, `2` |
| QueryCompiler.BuildSortSpec | src/ui5/model/mongo/Model.js:610-645 | the `forEach` loop builds the sort spec of the shared definition, with the object's own-key order, and raises its errors |
| QueryCompiler.AssembleQuery | src/ui5/model/mongo/Model.js:417-445 | a query exactly when the path parsed; on its collection, with the limit, the `_id`-or-filters selector, and a sort exactly for a non-empty sorter list; the parse errors come first |
| QueryCompiler.IdIgnoresFilters | src/ui5/model/mongo/Model.js:425-429 | when the path names a document by a truthy id, the filters play no part and the selector is `{_id: id}` |
| Common.ParseErrorEvents | src/ui5/model/mongo/Model.js:327-345 | one parseError event per error raised, in the order raised |
| Common.StopCurrentStopsAll | src/ui5/model/mongo/DocumentListBinding.js:203-205 | when at most the current handle is live, stopping it leaves every handle stopped |
| Common.OpenAfterStop | src/ui5/model/mongo/DocumentListBinding.js:203-216 | a handle opened after stopping the current one is the only live one |
| Common.Page | src/ui5/model/mongo/DocumentListBinding.js:78-80 | `slice(start).splice(0, len)` is a contiguous run of the list from the relative start, `len` long clipped to the list, and empty for `len <= 0` |
| Common.PageWindow | src/ui5/model/mongo/DocumentListBinding.js:78-80 | for a start inside the list, the page is `[start, start + len)` clipped to the list, and empty when `len <= 0` |
| Common.PageFromEnd | src/ui5/model/mongo/DocumentListBinding.js:78-80 | a negative start counts back from the end of the list |
| Common.ContextWindow | src/ui5/model/mongo/DocumentListBinding.js:71-81 | the start defaults to 0 and the length to the size limit minus the start; the result is the window clipped to the list, empty when the length is not positive or the start is past the end |
| Common.SpliceRemove | src/ui5/model/mongo/DocumentListBinding.js:241-243 | `splice(at, 1)` removes exactly the element at a relative position inside the list, keeping the rest in order, and nothing past the end |
| Common.SpliceInsertAtMinusOne | src/ui5/model/mongo/DocumentListBinding.js:224-226 | `splice(-1, 0, x)` puts `x` just before the last element, or first in an empty list |
| Common.SpliceRemoveAtMinusOne | src/ui5/model/mongo/DocumentListBinding.js:241-243 | `splice(-1, 1)` drops the last element, and does nothing to an empty list |
| Common.LegacyDocumentPath | model/mongo/DocumentListBinding.js:67 | the older document path is the list path, `(`, the text `+` gives the id (its `valueOf`, the bare hex for an ObjectID) and `)` |
| Common.DocumentPath | src/ui5/model/mongo/DocumentListBinding.js:257-261 | the path the newer list binding evidently means to build: the list path, `(`, the id's `toString` text (`ObjectID("hex")` for an ObjectID) and `)` |
| Common.QuotedDocumentPath | src/ui5/model/mongo/DocumentListBinding.js:257-261 | the newer document path is the list path, `('`, the id text and `)` |
| Common.DocumentPathsInjective | src/ui5/model/mongo/DocumentListBinding.js:257-261 | within one list, the two `toString` paths are equal exactly when the ids print the same, so add, the before-lookup and remove agree on a document; the older binding's path is equal exactly when the ids' `valueOf` texts are |
| Common.LegacyDocumentPathsCollide | model/mongo/DocumentListBinding.js:67 | a string id and an ObjectID with the same hex get the same older document path, where their `toString` paths differ |
| Common.PlusStringDiffers | model/mongo/DocumentListBinding.js:67 | the text `s + v` appends is `String(v)` for every value except an ObjectID, where `valueOf` gives the hex |
| Common.IndexOf | src/ui5/model/mongo/Model.js:349 | `indexOf(c)` is the first position holding `c`, and -1 exactly when `c` does not occur |
| Common.Substring | src/ui5/model/mongo/Model.js:355-373 | `substring(a, b)` is the text between the two positions, in either order, within the string |
| Common.Split | src/ui5/model/mongo/Model.js:333 | `split(c)` gives at least one piece, none holding `c` |
| Common.JoinSplit | src/ui5/model/mongo/Model.js:333-383 | joining the pieces of `split(c)` with `c` gives back the string |
| Common.SplitJoin | src/ui5/model/mongo/Model.js:333-383 | splitting a join of pieces free of `c` gives back the pieces |
| Common.Segments | src/ui5/model/mongo/Model.js:333-336 | `split('/')` without its leading empty piece: no segment holds a `/` |
| Common.SegmentsEmpty | src/ui5/model/mongo/Model.js:333-345 | only the empty path has no segment at all |
| Common.SegmentsOfJoin | src/ui5/model/mongo/Model.js:333-336 | an absolute path of separator-free pieces splits back into them |
| Common.Repair | src/ui5/model/mongo/Model.js:384-398 | a property path without `)` is left as it is |
| Common.RepairLookup | src/ui5/model/mongo/Model.js:384-398 | when the first `)` is followed by `.`, a `/` is put between them and the `.` is kept |
| Common.Prop | src/ui5/model/mongo/Model.js:661-674 | `v[key]` throws exactly on undefined and null; it is the field or undefined on an object, and `length` on an array or a string; a string gives only its length or one-character strings |
| Common.PropAtCharacter | model/mongo/Model.js:242 | reading a string at a written index gives the one-character string there |
| Common.PropAtIndex | model/mongo/Model.js:242 | reading an array at a written index gives that element |
| Common.Normalise | src/ui5/model/mongo/Model.js:662 | brackets are gone after `[` becomes `.` and `]` is dropped |
| Common.NonEmpty | src/ui5/model/mongo/Model.js:662 | `filter(Boolean)` keeps only steps that are non-empty and come from the input |
| Common.NonEmptyKeepsAll | src/ui5/model/mongo/Model.js:662 | every non-empty input step survives `filter(Boolean)` |
| Common.NonEmptyConcat | src/ui5/model/mongo/Model.js:662 | `filter(Boolean)` of a concatenation is the concatenation of the filtered parts, so the kept steps stay in input order |
| Common.NonEmptySingle | src/ui5/model/mongo/Model.js:662 | a single step is kept exactly when it is not empty |
| Common.Steps | src/ui5/model/mongo/Model.js:662 | the steps `_get` walks are non-empty and hold no `.` |
| Common.NormaliseConcat | src/ui5/model/mongo/Model.js:662 | normalising a concatenation normalises each part |
| Common.NormalisePlain | src/ui5/model/mongo/Model.js:662 | a path without brackets is left as it is |
| Common.StepsOfPlain | src/ui5/model/mongo/Model.js:662 | a name without dots or brackets is a single step |
| Common.StepsOfIndexed | src/ui5/model/mongo/Model.js:662 | `name[i]` is walked as the two steps `name` and `i` |
| Common.NormaliseIndexed | src/ui5/model/mongo/Model.js:662 | `name[d]` is rewritten to `name.d` when neither part holds a bracket |
| Common.NatToString | src/ui5/model/mongo/PropertyListBinding.js:128 | an index is written as a decimal numeral without leading zeros |
| Common.NumeralRoundTrip | src/ui5/model/mongo/PropertyListBinding.js:128 | a written index reads back as the number it was written from |
| Common.NatToStringInjective | src/ui5/model/mongo/PropertyListBinding.js:128 | different indexes are written differently |
| DocumentListBinding.FindIndex | src/ui5/model/mongo/DocumentListBinding.js:269-271 | the first position holding the path, and -1 exactly when the path is not listed |
| DocumentListBinding.FilterArrayDiscarded | src/ui5/model/mongo/DocumentListBinding.js:112-119 | an array handed to `filter` is thrown away, so a non-empty array is not what gets stored |
| DocumentListBinding.InsertBeforeFound | src/ui5/model/mongo/DocumentListBinding.js:222-226 | a context added before a listed document goes immediately in front of that document's context |
| DocumentListBinding.InsertBeforeMissing | src/ui5/model/mongo/DocumentListBinding.js:222-226 | a context added before an unlisted document goes in front of the last one, or first in an empty list |
| DocumentListBinding.RemoveFound | src/ui5/model/mongo/DocumentListBinding.js:239-247 | removing a listed document takes out its first context and nothing else |
| DocumentListBinding.RemoveMissing | src/ui5/model/mongo/DocumentListBinding.js:239-247 | removing an unlisted document drops the last context instead |
| DocumentListBinding.InsertThenRemove | src/ui5/model/mongo/DocumentListBinding.js:222-247 | a new context inserted anywhere is taken out again by the lookup of its own path |
| DocumentListBinding.AppendThenRemove | src/ui5/model/mongo/DocumentListBinding.js:227-247 | an appended context is taken out again by the lookup of its own path |
| DocumentListBinding.AddThenRemoveRestores | src/ui5/model/mongo/DocumentListBinding.js:218-247 | adding a document that is not listed, wherever `before` puts it, and then removing it leaves the list as it was |
| DocumentListBinding.Binding.constructor | src/ui5/model/mongo/DocumentListBinding.js:40-49 | the binding stores its path, context, sorters and filters, and queries once |
| DocumentListBinding.Binding.RunQuery | src/ui5/model/mongo/DocumentListBinding.js:201-249 | the old handle is stopped; the list is emptied and change(remove) fired; the parse events follow; a new live handle is opened unless building the query threw |
| DocumentListBinding.Binding.ReplaceHandle | src/ui5/model/mongo/DocumentListBinding.js:201-217 | for a built query: the list is emptied, change(remove) and the parse events fired, every earlier handle ends stopped, and the new one, if any, is the only live handle |
| DocumentListBinding.Binding.AddedBefore | src/ui5/model/mongo/DocumentListBinding.js:218-232 | with a truthy `before`, the new context is spliced in at the index of `before`'s path; otherwise it is appended; then dataReceived and change(add) |
| DocumentListBinding.Binding.Changed | src/ui5/model/mongo/DocumentListBinding.js:234-237 | the list is unchanged and the model refreshes |
| DocumentListBinding.Binding.Removed | src/ui5/model/mongo/DocumentListBinding.js:239-247 | the context at the index of the document's path is spliced out, then the model refreshes |
| DocumentListBinding.Binding.GetContexts | src/ui5/model/mongo/DocumentListBinding.js:71-81 | the default call gives the first size-limit contexts; the full window gives the whole list; every context handed out is listed |
| DocumentListBinding.Binding.Filter | src/ui5/model/mongo/DocumentListBinding.js:107-125 | the control filters are cleared, the application filters set by the argument's kind, and the list queried again |
| DocumentListBinding.Binding.Sort | src/ui5/model/mongo/DocumentListBinding.js:136-144 | the sorters are set, a single one wrapped, and the list queried again |
| DocumentListBinding.Binding.Destroy | src/ui5/model/mongo/DocumentListBinding.js:91-95 | the current handle is stopped, after which no handle is live; nothing else changes |
| LegacyDocumentListBinding.AppendedPathParses | model/mongo/DocumentListBinding.js:67 | the older binding's document context parses back, in the older model, to the collection and the id's `valueOf` text as a string id: a string id comes back as itself, an ObjectID as the string id of its hex |
| LegacyDocumentListBinding.Binding.constructor | model/mongo/DocumentListBinding.js:37-46 | the binding stores its path, context, sorters and filters, starts without extended change detection, and queries once |
| LegacyDocumentListBinding.Binding.RunQuery | model/mongo/DocumentListBinding.js:50-83 | the old handle is stopped; the list is emptied and change(remove) fired; the parse events follow; a new live handle is opened unless building the query threw |
| LegacyDocumentListBinding.Binding.ReplaceHandle | model/mongo/DocumentListBinding.js:50-65 | for a built query: the list is emptied, change(remove) and the parse events fired, every earlier handle ends stopped, and the new one, if any, is the only live handle |
| LegacyDocumentListBinding.Binding.AddedBefore | model/mongo/DocumentListBinding.js:66-71 | the document's context, built with `+` and so with an ObjectID's hex, is appended whatever `before` says, then dataReceived and change(add) |
| LegacyDocumentListBinding.Binding.Changed | model/mongo/DocumentListBinding.js:73-76 | the list is unchanged and the model refreshes |
| LegacyDocumentListBinding.Binding.Removed | model/mongo/DocumentListBinding.js:78-81 | the context stays listed and the model refreshes |
| LegacyDocumentListBinding.Binding.GetContexts | model/mongo/DocumentListBinding.js:100-110 | the default call gives the first size-limit contexts; the full window gives the whole current list; every context handed out is listed |
| LegacyDocumentListBinding.Binding.GetCurrentContexts | model/mongo/DocumentListBinding.js:175-177 | the whole list, as long as the binding's length |
| LegacyDocumentListBinding.Binding.Filter | model/mongo/DocumentListBinding.js:133-145 | the control filters are cleared, the application filters set by the argument's kind, and the list queried again |
| LegacyDocumentListBinding.Binding.Sort | model/mongo/DocumentListBinding.js:156-162 | the sorters are set, a single one wrapped, and the list queried again |
| LegacyDocumentListBinding.Binding.Destroy | model/mongo/DocumentListBinding.js:112-120 | the current handle is stopped, after which no handle is live; nothing else changes |
| LegacyDocumentListBinding.Binding.EnableExtendedChangeDetection | model/mongo/DocumentListBinding.js:231-249 | the mode is on and `bDetectUpdates` recorded; a string key becomes a property getter, a function key is kept, any other key leaves the previous one |
| PropertyListBinding.ElementPath | src/ui5/model/mongo/PropertyListBinding.js:128 | the path of element `i` is `oContext.sPath + "/" + sPath + "[" + i + "]"` |
| PropertyListBinding.ElementPaths | src/ui5/model/mongo/PropertyListBinding.js:126-131 | one path per index, in index order |
| PropertyListBinding.ElementPathsDistinct | src/ui5/model/mongo/PropertyListBinding.js:126-131 | no two elements share a context path |
| PropertyListBinding.ElementPathParses | src/ui5/model/mongo/PropertyListBinding.js:128 | below a document context, element `i`'s path parses back to the document and `name[i]`, which `_get` walks as `name`, then `i` |
| PropertyListBinding.ElementSegment | src/ui5/model/mongo/PropertyListBinding.js:128 | `name[i]` holds neither `/` nor `)`, so it stays one segment and needs no repair |
| PropertyListBinding.ElementPathJoined | src/ui5/model/mongo/PropertyListBinding.js:128 | the element path is two segments below the root |
| PropertyListBinding.Binding.constructor | src/ui5/model/mongo/PropertyListBinding.js:37-56 | non-empty sorters or filters fire requestFailed and no query is run; otherwise the document is queried once |
| PropertyListBinding.Binding.RunQuery | src/ui5/model/mongo/PropertyListBinding.js:67-98 | the old handle is stopped; the list is emptied and change(remove) fired; a new cursor and live handle unless building the query threw |
| PropertyListBinding.Binding.ReplaceCursor | src/ui5/model/mongo/PropertyListBinding.js:67-83 | for a built query: the list is emptied, change(remove) and the parse events fired, every earlier handle ends stopped; the new cursor, if any, is stored and its handle is the only live one |
| PropertyListBinding.Binding.AddedBefore | src/ui5/model/mongo/PropertyListBinding.js:84-88 | dataReceived then change(add); the list is left alone |
| PropertyListBinding.Binding.ChangedOrRemoved | src/ui5/model/mongo/PropertyListBinding.js:89-96 | the model refreshes; the list is left alone |
| PropertyListBinding.Binding.GetContexts | src/ui5/model/mongo/PropertyListBinding.js:113-138 | the list is rebuilt from scratch: one context per array index in order, or none and an error for a non-array; then the window is cut; without a cursor the call throws after emptying the list |
| PropertyListBinding.Binding.GetCurrentContexts | src/ui5/model/mongo/PropertyListBinding.js:204-206 | the list exactly as the last rebuild left it, as long as the binding's length |
| PropertyListBinding.Binding.Filter | src/ui5/model/mongo/PropertyListBinding.js:166-173 | requestFailed fires; nothing else changes and nothing is queried |
| PropertyListBinding.Binding.Sort | src/ui5/model/mongo/PropertyListBinding.js:185-192 | requestFailed fires; nothing else changes and nothing is queried |
| PropertyListBinding.Binding.Destroy | src/ui5/model/mongo/PropertyListBinding.js:148-152 | the current handle is stopped, after which no handle is live; nothing else changes |
| LegacyPropertyListBinding.SingleFilterIgnored | dist/model/mongo/PropertyListBinding-dbg.js:144-150 | a single Filter handed to `filter` is stored but plays no part in the query |
| LegacyPropertyListBinding.Binding.constructor | dist/model/mongo/PropertyListBinding-dbg.js:33-42 | the binding always queries, whatever sorters and filters it was given |
| LegacyPropertyListBinding.Binding.RunQuery | dist/model/mongo/PropertyListBinding-dbg.js:46-79 | the old handle is stopped; the list is emptied and change(remove) fired; a new cursor and live handle unless building the query threw |
| LegacyPropertyListBinding.Binding.ReplaceCursor | dist/model/mongo/PropertyListBinding-dbg.js:46-62 | for a built query: the list is emptied, change(remove) and the parse events fired, every earlier handle ends stopped; the new cursor, if any, is stored and its handle is the only live one |
| LegacyPropertyListBinding.Binding.AddedBefore | dist/model/mongo/PropertyListBinding-dbg.js:63-67 | dataReceived then change(add); the list is left alone |
| LegacyPropertyListBinding.Binding.ChangedOrRemoved | dist/model/mongo/PropertyListBinding-dbg.js:68-77 | the model refreshes; the list is left alone |
| LegacyPropertyListBinding.Binding.GetContexts | dist/model/mongo/PropertyListBinding-dbg.js:96-121 | the list is rebuilt from scratch: one context per array index in order, or none and an error for a non-array; then the window is cut; without a cursor the call throws after emptying the list |
| LegacyPropertyListBinding.Binding.GetCurrentContexts | dist/model/mongo/PropertyListBinding-dbg.js:180-182 | the list exactly as the last rebuild left it, as long as the binding's length |
| LegacyPropertyListBinding.Binding.Filter | dist/model/mongo/PropertyListBinding-dbg.js:144-150 | the argument is stored as it is and the document queried again |
| LegacyPropertyListBinding.Binding.Sort | dist/model/mongo/PropertyListBinding-dbg.js:161-167 | the sorters are set, a single one wrapped, and the document queried again |
| LegacyPropertyListBinding.Binding.Destroy | dist/model/mongo/PropertyListBinding-dbg.js:123-131 | the current handle is stopped, after which no handle is live; nothing else changes |
| ContextBinding.LooseAndStrictComparisons | dist/model/mongo/ContextBinding.js:112 | loose `!=` implies strict `!==`, and they disagree exactly on null against undefined |
| ContextBinding.Binding.constructor | src/ui5/model/mongo/ContextBinding.js:35-51 | the binding queries its document; when building the query throws, the constructor stops there, with `bInitial` set, no element context and the context cache untouched; otherwise the callback clears `bInitial` and stores the cached element context, and a throw of `createBindingContext` leaves both |
| ContextBinding.Binding.BindElement | src/ui5/model/mongo/ContextBinding.js:46-50 | the callback clears `bInitial` and stores the context the model hands it |
| ContextBinding.Binding.RunQuery | src/ui5/model/mongo/ContextBinding.js:126-150 | the old handle is stopped; the query uses only the path and the context; a new live handle unless building the query threw |
| ContextBinding.Binding.ReplaceHandle | src/ui5/model/mongo/ContextBinding.js:128-136 | every earlier handle ends stopped, and the new one, if any, is the only live handle |
| ContextBinding.Binding.AddedBefore | src/ui5/model/mongo/ContextBinding.js:137-140 | dataReceived then change(add); nothing else changes |
| ContextBinding.Binding.Changed | src/ui5/model/mongo/ContextBinding.js:142-144 | change(change); nothing else changes |
| ContextBinding.Binding.Removed | src/ui5/model/mongo/ContextBinding.js:146-148 | change(remove); nothing else changes |
| ContextBinding.Binding.Refresh | src/ui5/model/mongo/ContextBinding.js:75-87 | when the recomputed context is the one held and the refresh is not forced, only checkUpdate runs; otherwise it is stored and change fires |
| ContextBinding.Binding.StoreElement | src/ui5/model/mongo/ContextBinding.js:96-100 | the recomputed context is stored and change fires |
| ContextBinding.Binding.Initialize | src/ui5/model/mongo/ContextBinding.js:93-101 | the recomputed context is always stored and change fires |
| ContextBinding.Binding.SetContext | src/ui5/model/mongo/ContextBinding.js:107-117 | the same context (`!==`) changes nothing; otherwise the context is stored, the element context recomputed and change fired |
| ContextBinding.Binding.Destroy | src/ui5/model/mongo/ContextBinding.js:62-66 | the current handle is stopped, after which no handle is live; nothing else changes |
| LegacyContextBinding.Binding.Resolved | model/mongo/Model.js:198 | the path resolves to nothing exactly when no context was given, legacy syntax is off and the path is relative |
| LegacyContextBinding.Binding.Fetched | model/mongo/Model.js:198-202 | an unresolved path hands the callback null; otherwise the context cached under the path looked up |
| LegacyContextBinding.Binding.constructor | dist/model/mongo/ContextBinding.js:25-41 | the binding queries its document; when building the query throws, the constructor stops there, with `bInitial` set, no element context and the context cache untouched; otherwise the callback clears `bInitial` and stores the element context, null for an unresolved path, and a throw of `createBindingContext` leaves both |
| LegacyContextBinding.Binding.BindElement | dist/model/mongo/ContextBinding.js:36-40 | the callback clears `bInitial` and stores the context the model hands it |
| LegacyContextBinding.Binding.RunQuery | dist/model/mongo/ContextBinding.js:51-77 | the old handle is stopped; the query uses only the path and the context; a new live handle unless building the query threw |
| LegacyContextBinding.Binding.ReplaceHandle | dist/model/mongo/ContextBinding.js:54-63 | every earlier handle ends stopped, and the new one, if any, is the only live handle |
| LegacyContextBinding.Binding.AddedBefore | dist/model/mongo/ContextBinding.js:64-67 | dataReceived then change(add); nothing else changes |
| LegacyContextBinding.Binding.Changed | dist/model/mongo/ContextBinding.js:69-71 | change(change); nothing else changes |
| LegacyContextBinding.Binding.Removed | dist/model/mongo/ContextBinding.js:73-75 | change(remove); nothing else changes |
| LegacyContextBinding.Binding.Refresh | dist/model/mongo/ContextBinding.js:82-93 | when the recomputed context is the one held and the refresh is not forced, only checkUpdate runs; otherwise it is stored and change fires |
| LegacyContextBinding.Binding.StoreElement | dist/model/mongo/ContextBinding.js:101-104 | the recomputed context is stored and change fires |
| LegacyContextBinding.Binding.Initialize | dist/model/mongo/ContextBinding.js:98-105 | the recomputed context is always stored and change fires |
| LegacyContextBinding.Binding.SetContext | dist/model/mongo/ContextBinding.js:110-119 | a loosely equal context (`!=`, so null and undefined count as the same) changes nothing; otherwise the context is stored, the element context recomputed and change fired |
| LegacyContextBinding.Binding.Destroy | dist/model/mongo/ContextBinding.js:44-49 | the current handle is stopped, after which no handle is live; nothing else changes |

## Left out

- Mongo and Minimongo themselves are not part of this model: the collection registry (`Mongo.Collection.get`), `find`, `fetch`, the evaluation of selectors and regular expressions, and the delivery of `observeChanges` callbacks. A query is data, a cursor is the query it was built from, and each callback is a method the runtime may call.
- `findOne` is a function parameter of `getProperty`, and the property a property list binding reads with lodash's `_.get` is a parameter of `GetContexts`.
- UI5's own machinery is recorded only as entries in the ghost event log: `_fireChange`, `fireDataReceived`, `fireRequestFailed`, `model.refresh`, `checkUpdate`, `jQuery.sap.log`. So are the base-class constructors, whose normalisation of constructor sorters and filters is taken as given arrays.
- Logging text and the `srcText` of parse errors are left out; an error is its kind.
- `MongoModel.FollowLookups`: lookups are followed at most `fuel` times, because a lookup target comes from document data and may lead to another lookup; what happens beyond the bound is not modelled.
- `isLengthFinal`, `getDistinctValues`, `bindProperty`, `bindTree`, `bindContext`, `getObject`, `destroyBindingContext` and `PropertyBinding` are one-line delegations or constants, and are not modelled.
- The `return this` of the newer `filter` and `sort` is not modelled; the methods return nothing.
- `LegacyDocumentListBinding.Binding.EnableExtendedChangeDetection`: `this.update` is not defined on a list binding, so the call guarded by it is never made and is not modelled.
- Numbers are mathematical integers and the layer's values are tagged data (`JVal`); NaN, floating point and JavaScript coercions other than truthiness, `String(v)` and the `valueOf` text binary `+` takes of the values used are left out.
- MongoModel.Fragment: `new RegExp(v)`, `` new RegExp(`^${v}`) `` and `` new RegExp(`${v}$`) `` (src/ui5/model/mongo/Model.js:525,
  529, 533) throw a SyntaxError when the text is not a valid pattern, such as a Contains on `"a("` or a StartsWith on
  `"*"`, and then the whole `_buildMongoSelector` and `runQuery` throw. JavaScript's pattern syntax is not modelled: the
  model always builds the `$regex` fragment. `new RegExp(re)` of a RegExp value also keeps `re`'s flags, which
  `JRegExp(source)` does not hold.
- LegacyModel.LegacyFragment: the same gap for `new RegExp(v)`, `new RegExp("^" + v)` and `new RegExp(v + "$")`
  (model/mongo/Model.js:474, 478, 482): an invalid pattern throws a SyntaxError there, and a RegExp value's flags are
  kept; the model always builds the fragment and holds no flags.
- LegacyModel.TextOperators: states the `$regex` for every value, so it inherits that gap: for a text that is not a
  valid pattern the source throws instead, and a RegExp value's flags are not part of the stated pattern.
- Common.Prop: the members a value inherits from its prototype (`constructor`, `toString`, `hasOwnProperty` and the
  like) and the own properties of regular expressions and ObjectIDs are not modelled: they read as undefined. Object
  fields, array elements, string characters and `length` are modelled.
- MongoModel.Get: inherits that gap from `Common.Prop`, so a step naming an inherited member such as `constructor`
  counts as undefined here, where the source finds it defined and keeps the object.
- LegacyModel.Get: inherits that gap from `Common.Prop`, so walking into an inherited member gives the default here.
- MongoModel.DocumentIdOf: `new Meteor.Collection.ObjectID(hex)` belongs to Meteor and is not part of this model. The
  id keeps the text between the quotes as it is: the constructor's rejection of text that is not 24 hexadecimal digits,
  its lower-casing, and the id it makes when there are no quotes (for `/C(Objectx)` it is handed `""`) are not modelled.
- MongoModel.Lookup: `_getLookupProperty` calls `this.getContext(sLookupContextPath)`, which adds an entry to the
  context cache; `getProperty` is modelled as a function of `findOne`, so that entry is not modelled. The property read
  through the lookup is.
- DocumentListBinding.Binding.Sort: `sort()` with no argument stores `[undefined]`, and the next
  `_buildMongoSortSpecifier` throws reading `sPath` of it; a sorter argument is always an array or a Sorter here, so
  that case is not modelled.
- LegacyDocumentListBinding.Binding.Sort: the same gap for `sort()` with no argument, which stores `[undefined]` and
  makes the next query throw.
- LegacyPropertyListBinding.Binding.Sort: the same gap for `sort()` with no argument, which stores `[undefined]` and
  makes the next query throw.
- A value handed to `filter` that is neither an array nor a Filter is one case, `NotAFilter`; whether it has a `length` is not distinguished.
- A context in a list binding is its path; the `Context` objects the older binding builds around those paths are not modelled.
- ContextBinding.Binding.constructor: the arrow-function `this` of the newer file is not modelled. As written, every
  prototype method (`destroy`, `refresh`, `initialize`, `setContext`, `_runQuery`) reads and writes properties of the
  module factory's `this`, not of the binding, so the constructor does not query the binding's document and `destroy`
  does not stop its query. The model states the intended semantics, which the older file has.
- Common.ParseErrorEvents: as written, `this.oModel.fireParseError` throws a TypeError, because `this` in the arrow
  callback is the model, which has no `oModel`. The model records one `ParseError` event per rejected entry and goes on;
  the source instead throws at the first rejected entry, after logging it.
- QueryCompiler.BuildSelector: as written, a rejected filter (a multi-filter or an unknown operator) makes the
  `fireParseError` call throw, so the whole query throws. The model skips that filter and builds the selector from the
  others.
- QueryCompiler.BuildSortSpec: as written, a rejected sorter (a path with `/` or `.`, or a comparator) makes the
  `fireParseError` call throw, so the whole query throws. The model skips that sorter and builds the specifier from the
  others.
- `mParameters` of the context bindings is taken to be an object or undefined, never a function.
- `dist/model/mongo/Model.js` is a minified single-line copy of `model/mongo/Model.js`; `LegacyModel` models that file.
- Concurrency, timers (`sUpdateTimer`) and the network are not part of this model.

## Findings

| source | as written | input that shows it | evidently intended | confidence | as-written member | corrected member |
|---|---|---|---|---|---|---|
| src/ui5/model/mongo/DocumentListBinding.js:257-261 | the document path is `sPath + "('" + id + ")"`, with an unbalanced quote | list `/Orders`, id `a1`: the path `/Orders('a1)` parses to the id `'a1` | `sPath + "(" + id + ")"`, which parses back to the same id | not executed | MongoModel.QuotedDocumentPathMisparsed | MongoModel.DocumentPathRoundTrip |
| src/ui5/model/mongo/Model.js:661-674 | `every` tests each step against `obj`, which is never reassigned, and returns `obj` | `_get({name: "x"}, "name")` gives the whole object | walk into the object and return `"x"` | not executed | MongoModel.GetNeverDescends | LegacyModel.Get |
| model/mongo/Model.js:678-689 | `destroy` is called only on bindings with an own `destroy` property | any binding of this layer (its `destroy` is on the prototype): its query handle is never stopped | call `destroy` on every binding | not executed | LegacyModel.PrototypeDestroyNeverCalled | MongoModel.DestroyedBindings |
| model/mongo/Model.js:491-495 | `case GE` has no `break` and falls into `case GT` | GE filter with value 5: `{$gte: 5, $gt: 5}` excludes 5 | `{$gte: 5}` | not executed | LegacyModel.GEFallsThrough | MongoModel.ComparisonsHaveOneKey |
| src/ui5/model/mongo/Model.js:51 | `Model.apply(this, iSizeLimit)` hands `apply` the size limit where an argument list is expected | `new Model(50)` throws a TypeError, so no size limit can be set | `Model.apply(this, arguments)`, as the older file does, and then `iSizeLimit \|\| 100` | not executed | MongoModel.SizeLimitRejected | MongoModel.Model.constructor |
| src/ui5/model/mongo/DocumentListBinding.js:112-119 | an array argument leaves `aFilters` at `[]` | `filter([f])`: the list is queried unfiltered | keep the array, as the older binding does | not executed | DocumentListBinding.FilterArrayDiscarded | LegacyDocumentListBinding.FiltersOf |

The bindings themselves follow each file as written. The corrected members state the intended behaviour beside the code,
and both revisions are modelled because both are part of the layer.
