# todo-example: form decoding, schema coercion, todo list and store

This project models, in Dafny, the core of the todo example app:

- **The form decoder** `convertToNestedObject` (vendored in `app/browser/api.mjs`). Each `(path, value)` entry of a form is folded into a nested tree of plain objects and arrays.
  - `extractPathParts` cuts each path into segments. It is modelled as an exact scanner of its regular expression.
  - `handlePathPart` picks the slot of the current container that a segment addresses.
  - The builder enforces its single-write rule (`DuplicateKeyError`) and its no-mixed-array rule (`MixedArrayError`).
  - At the end it squashes every array that received an indexed write.
  - Entry preprocessing covers `removeEmptyString`, `fixArrayNotationForPlainObjects` and `allowDuplicatesInIterables`.
- **The schema coercer** `formEncodingToSchema`. It rewrites or deletes the properties a JSON schema declares, and recurses into object properties. The app's todo schema is included.
- **The todo list mutations**, as written in both `app/browser/api.mjs` and `public/browser/todos-form-create.mjs`. A copy of the list is pushed to or spliced at the index `findIndex` finds for the todo's `key`, and is then assigned to the store.
- **The reactive store** vendored in `public/browser/todos-form-create.mjs`. It is a class with the state map, the dirty-property list and the listeners, and its `set`, `merge`/`initialize`, `subscribe`, `unsubscribe` and `notify`.
- **`toKebabCase`**, which turns an element's class name into its tag name.

Files and modules:

- `wrappers.dfy`: `Option` and `Result`.
- `json_value.dfy`: the JavaScript values the code handles.
- `path_parts.dfy`: `extractPathParts`.
- `path_encoding.dfy`: the round trip of the path grammar.
- `tree_builder.dfy`: `handlePathPart` and `convertToNestedObject`.
- `tree_props.dfy` and `tree_examples.dfy`: theorems about the builder.
- `tree_write_once.dfy`: the single-write and mixed-array rules over a whole input, with any entries in between.
- `schema_coercer.dfy` and `coercer_props.dfy`: `formEncodingToSchema`.
- `js_array.dfy`: `findIndex` and `splice` as the ECMAScript standard defines them.
- `todo_list.dfy`: the list arithmetic of the mutations.
- `store.dfy`: the store.
- `todo_mutations.dfy`: the mutations acting on the store.
- `kebab_case.dfy`: `toKebabCase`.

How the imperative code maps to Dafny:

- **The loops are loops.**
  - The entry loop of `convertToNestedObject` is a `while` loop, proved equal to the fold `Build`.
  - The `forEach` of `formEncodingToSchema` is a loop over the declared properties with a recursive call, proved equal to `Coerce`.
  - The store is a class whose methods update its fields. `merge` and `notify` are loops.
- **The converted tree is a value.** The source's `currentPathObject` reference and setter closures become "descend, then write the child back".
- **The identity set `arraysWithOrder` is a set of locations.** A location is the key and index path of an array from the root. Every successful entry keeps each filled slot on a written path filled and each container on it of the same kind (`TreeWriteOnce.PlaceKeepsWritten`). An array that an append wrote to stays at its location and stays unordered (`TreeWriteOnce.PlaceKeepsAppended`). The ordered set only grows (`TreeProps.PlaceOrderedGrows`). So one location names one array for the whole fold.

## Model

| member | source | states |
|---|---|---|
| PathParts.ExtractPathParts | app/browser/api.mjs:285-301 | Every part's `pathToPart` is a prefix of the path that ends at `.`, `[` or the end. A bracket part holds only digits, just before a `]`. A key part holds a non-empty key without `.` or `[`, and ends its `pathToPart`. The default is `[]` exactly when `[` follows. The parts come in path order. |
| PathParts.MatchWellFormed | app/browser/api.mjs:286-299 | A regex match at a non-separator position gives a well-formed part whose `pathToPart` ends where group 1 ends. |
| PathParts.ScanWellFormed | app/browser/api.mjs:288-300 | Every match found from position p on is well formed, ends after p, and comes after the previous one. |
| PathEncoding.ExtractEncode | app/browser/api.mjs:285-301 | Round trip. For any sequence of valid segments (keys, digit indices, appends), scanning the written path gives one part per segment. Each part has the segment's key and kind, the default container its successor needs, and the written prefix up to that segment as `pathToPart`. |
| TreeExamples.PartsOfName | app/browser/api.mjs:285-300 | `name` is one object part, default `{}`. |
| TreeExamples.PartsOfAppend | app/browser/api.mjs:285-300 | `name[]` is an object part `name` with default `[]`, then an array part with key `""` and `pathToPart` `name[]`. |
| TreeExamples.PartsOfIndex | app/browser/api.mjs:285-300 | `name[digits]` is an object part `name` with default `[]`, then an array part with the digits. |
| TreeExamples.PartsOfField | app/browser/api.mjs:285-300 | `name.field` is two object parts, with `pathToPart` `name` and `name.field`. |
| TreeBuilder.HandlePathPart | app/browser/api.mjs:304-338 | Iff statements. DuplicateKey exactly when the segment kind and the container kind disagree. MixedArray exactly when an append hits an ordered array, or an index hits a non-empty unordered one. The error carries `pathToPart`. Otherwise: an object segment reads the property; an array segment reads index `Number(digits)` or the current length, and an indexed write marks the array as ordered. |
| JsonValue.IsJsonObject | app/browser/api.mjs:260-266 | A value is a JSON object exactly when it is a plain object: strings, numbers, booleans, arrays and `null` are not. The builder's descent test uses it with the array test. |
| TreeBuilder.SetSlot | app/browser/api.mjs:336-337 | `array[n] = v` grows the array to n+1 when n is at or past the end, puts v at n, and keeps every other index, holes included. |
| TreeBuilder.FixArrayNotationForPlainObjects | app/browser/api.mjs:269-274 | An array value from a non-iterable input loses exactly one trailing `[]`. Every other entry is returned unchanged. The value is always kept. |
| TreeBuilder.AllowDuplicatesInIterables | app/browser/api.mjs:277-283 | For an iterable input, a non-empty path listed in `duplicateKeys` gets `[]` appended. Every other entry is unchanged. |
| TreeBuilder.ConvertToNestedObject | app/browser/api.mjs:340-403 | The loop with mutable `result` and `arraysWithOrder`, followed by the squash, returns exactly `Build` of the entries: the fold of the entries, then the squash of the ordered arrays. |
| TreeExamples.EmptyStringSkipped | app/browser/api.mjs:351 | With `removeEmptyString`, an entry whose value is `''` changes nothing. |
| TreeProps.PlaceOrderedGrows | app/browser/api.mjs:325-328 | Placing an entry only ever adds arrays to the ordered set. |
| TreeProps.PlaceTwice | app/browser/api.mjs:374-377 | Writing the same append-free parts a second time, below any container, fails with DuplicateKey at the last part's `pathToPart`. |
| TreeProps.ApplySamePathTwice | app/browser/api.mjs:374-377 | Two entries with the same append-free path, the second directly after the first: the second throws DuplicateKey at the path's last part. |
| TreeWriteOnce.PlaceWrites | app/browser/api.mjs:366-393 | A successful entry without `[]` leaves its path written: every slot on it filled, every value passed through a container, every array on it ordered. |
| TreeWriteOnce.WrittenThrows | app/browser/api.mjs:374-377 | An entry along a written path throws DuplicateKey at its last part. |
| TreeWriteOnce.PlaceKeepsWritten | app/browser/api.mjs:366-393 | Any successful entry, whatever its path, keeps a written path written. |
| TreeWriteOnce.PlaceAppends | app/browser/api.mjs:329-337 | A successful entry `P[]` leaves the array at P non-empty and not ordered. |
| TreeWriteOnce.PlaceKeepsAppended | app/browser/api.mjs:323-337 | Any successful entry keeps that array non-empty and not ordered, because an index into it would throw. |
| TreeWriteOnce.AppendedThrowsOnIndex | app/browser/api.mjs:329-334 | An entry `P[d]` into an array that `P[]` appended to throws MixedArray at `P[d]`. |
| TreeWriteOnce.WrittenThrowsOnAppend | app/browser/api.mjs:329-334 | An entry `P[]` into an array where `P[d]` is written throws MixedArray at `P[]`. |
| TreeWriteOnce.PlaceAddsBelow | app/browser/api.mjs:323-328 | An entry adds to the ordered set only arrays at or below the container it starts from. |
| TreeWriteOnce.FoldSplit | app/browser/api.mjs:350-394 | The loop over `a + b` is the loop over `a` followed, unless it threw, by the loop over `b`. |
| TreeWriteOnce.WriteOnce | app/browser/api.mjs:374-377 | A path without `[]` is written at most once over the whole input. When two kept entries i < j share it, entry j throws DuplicateKey at the path's last part unless an earlier entry threw, and the conversion throws either way. |
| TreeWriteOnce.IndexThenAppendLater | app/browser/api.mjs:329-334 | `P[d]` and later `P[]`, with any entries in between: the append throws MixedArray at `P[]` unless an earlier entry threw, and the conversion throws either way. |
| TreeWriteOnce.AppendThenIndexLater | app/browser/api.mjs:329-334 | `P[]` and later `P[d]`, with any entries in between: the index throws MixedArray at `P[d]` unless an earlier entry threw, and the conversion throws either way. |
| TreeWriteOnce.FieldWrittenAgainLater | app/browser/api.mjs:374-377 | `a.b`, then `a.c`, then `a.b` again: the conversion throws. |
| TreeExamples.NameEntry | app/browser/api.mjs:374-378 | Writing `name` sets the property when it is absent. It throws DuplicateKey(`name`) when the property is present. |
| TreeExamples.AppendEntry | app/browser/api.mjs:322-337 | `name[]` into an unordered (or missing) array writes the value at index = current length, and leaves the ordered set unchanged. |
| TreeExamples.AppendIntoOrdered | app/browser/api.mjs:329-334 | `name[]` into an ordered array throws MixedArray(`name[]`). |
| TreeExamples.IndexEntry | app/browser/api.mjs:322-337 | `name[d]` writes at `Number(d)` into an ordered, empty or missing array with that slot free, and marks the array as ordered. |
| TreeExamples.IndexTaken | app/browser/api.mjs:374-377 | `name[d]` on a filled slot throws DuplicateKey(`name[d]`). |
| TreeExamples.IndexIntoAppended | app/browser/api.mjs:329-334 | `name[d]` into a non-empty unordered array throws MixedArray(`name[d]`). |
| TreeExamples.FieldOnArray | app/browser/api.mjs:309-312 | `name.field` where `name` holds an array throws DuplicateKey(`name.field`). |
| TreeExamples.FieldBelowScalar | app/browser/api.mjs:381-387 | `name.field` where `name` holds a scalar throws DuplicateKey(`name`). |
| TreeExamples.FoldAppends | app/browser/api.mjs:350-394 | Any number of `name[]` entries append their values, in input order, to the array under `name`. |
| TreeExamples.AppendsKeepOrder | app/browser/api.mjs:336 | The whole conversion of `name[]` entries gives `{name: [v1, …, vn]}` in input order. |
| TreeExamples.IndexThenAppend | app/browser/api.mjs:329-334 | `name[d]` then `name[]` throws MixedArray(`name[]`). |
| TreeExamples.AppendThenIndex | app/browser/api.mjs:329-334 | `name[]` then `name[d]` throws MixedArray(`name[d]`). |
| TreeExamples.IndexedPair | app/browser/api.mjs:396-400 | Two indexed scalar writes at different indices give a squashed two-element array ordered by index, whatever the input order (`arr[2]=x, arr[0]=y` gives `[y, x]`). |
| TreeExamples.IndexedClash | app/browser/api.mjs:374-377 | Two indexed writes whose digits have the same numeric value throw DuplicateKey at the second path. |
| TreeProps.FlatNoHoles | app/browser/api.mjs:399 | `flat(0)` leaves no hole, and keeps as many elements as were present. |
| TreeProps.FlatDense | app/browser/api.mjs:399 | `flat(0)` leaves an array without holes unchanged. |
| TreeProps.FlatPosition | app/browser/api.mjs:399 | The element at index i moves to the number of present elements before i. |
| TreeProps.FlatKeepsOrder | app/browser/api.mjs:399 | Present elements keep their relative order. |
| TreeProps.SquashOutside | app/browser/api.mjs:396-400 | The squash leaves every subtree untouched when no ordered array lies at or below it. |
| TreeProps.SquashUnordered | app/browser/api.mjs:396-400 | With no ordered array, so append-only arrays included, the squash changes nothing. |
| SchemaCoercer.ParseNumber | app/browser/api.mjs:412 | `parseInt` of a digit string is its decimal value. A number is kept. |
| SchemaCoercer.OverlayStep | app/browser/api.mjs:408-444 | Coercing one more property sets only that property to its new value, or deletes it. |
| SchemaCoercer.FormEncodingToSchema | app/browser/api.mjs:407-446 | The `forEach` loop, with its recursion into object properties, returns exactly `Coerce`: the object with every declared property coerced, or TypeError. |
| CoercerProps.CoercePointwise | app/browser/api.mjs:408-444 | On success, each declared property takes the value its own coercion gives, and every other property keeps its value. |
| CoercerProps.UndeclaredUnchanged | app/browser/api.mjs:408 | A property the schema does not declare is never touched. |
| CoercerProps.NumericField | app/browser/api.mjs:410-425 | `integer`/`number`: the property is kept iff its value was truthy, and then it holds the parsed number. |
| CoercerProps.BooleanField | app/browser/api.mjs:433-435 | `boolean`: the property is always set, to true exactly for `'on'` and `true`, including when it was absent. |
| CoercerProps.TimeField | app/browser/api.mjs:426-432 | `time`/`date-time`: success means the value was a string with a colon. One colon gets `:00` appended; more colons are kept, so the result always has at least two. |
| CoercerProps.TimeFieldThrows | app/browser/api.mjs:428-429 | `time`/`date-time` with a missing value, a non-string or no colon throws TypeError. |
| CoercerProps.PlainStringUntouched | app/browser/api.mjs:426-432 | A string without a time format is never inspected. |
| CoercerProps.ObjectField | app/browser/api.mjs:436-443 | `object`: a truthy value is replaced by its own coercion with the nested schema. A falsy one stays. |
| CoercerProps.NestedErrorPropagates | app/browser/api.mjs:436-443 | An error inside a nested object is the error of the whole call. |
| CoercerProps.TodoSchemaShaped | app/browser/api.mjs:9-17 | The app's schema declares exactly `key` (integer), `completed` (boolean) and `title` (string, no format). |
| CoercerProps.TodoNeverThrows | app/browser/api.mjs:9-17 | Coercion with a schema of that shape never throws. |
| CoercerProps.TodoFields | app/browser/api.mjs:407-446 | With that schema: `key` is parsed, or deleted when falsy; `completed` becomes true exactly for `'on'`/`true`; every other property stays. |
| CoercerProps.TodoCoercible | app/browser/api.mjs:410-416 | The objects the model covers under that schema are exactly those whose truthy `key` is a digit string or a number. |
| CoercerProps.TodoIdempotent | app/browser/api.mjs:410-416 | Coercing a coerced todo again gives it back iff its key did not parse to 0. |
| CoercerProps.TodoZeroKeyNotIdempotent | app/browser/api.mjs:410-416 | `{key: "0"}` becomes `{key: 0, completed: false}`, and a second pass does not give that back. |
| JsArray.FindIndex | app/browser/api.mjs:97 | `findIndex` returns the first index whose element satisfies the predicate, or -1 exactly when none does. |
| JsArray.Splice | app/browser/api.mjs:97 | `splice` conserves elements: what is left plus what is removed is the original plus the inserted items. The length changes accordingly. |
| JsArray.SpliceAt | app/browser/api.mjs:105 | `splice(i, 1, …items)` at a valid index replaces exactly element i. |
| JsArray.SpliceReplace | app/browser/api.mjs:97 | `splice(i, 1, x)` at a valid index is the array with x at i. |
| JsArray.SpliceMinusOne | app/browser/api.mjs:97 | `splice(-1, 1, …items)` on a non-empty array replaces the last element. |
| JsArray.SpliceEmpty | app/browser/api.mjs:97 | `splice` on an empty array removes nothing and inserts the items. |
| TodoList.KeyIndex | app/browser/api.mjs:97 | The first todo with the item's `key`, or -1 iff there is none. |
| TodoList.Created | app/browser/api.mjs:86-92 | createMutation appends the item at the end and keeps the rest. |
| TodoList.UpdateFirstMatch | app/browser/api.mjs:94-100 | updateMutation replaces the first todo with the item's key, and only it. |
| TodoList.UpdateNoMatch | app/browser/api.mjs:97 | With no todo of that key, the last todo is replaced. |
| TodoList.UpdateEmpty | app/browser/api.mjs:97 | Updating an empty list gives `[item]`. |
| TodoList.DestroyFirstMatch | app/browser/api.mjs:102-108 | destroyMutation removes the first todo with the item's key, and keeps the order of the rest. |
| TodoList.DestroyNoMatch | app/browser/api.mjs:105 | With no todo of that key, the last todo is removed. |
| TodoList.DestroyEmpty | app/browser/api.mjs:105 | Destroying from an empty list leaves it empty. |
| TodoList.TodosOf | app/browser/api.mjs:88 | `store?.todos?.slice()`, defaulting to `[]`, is the stored list, or `[]` when there is none. |
| TodoList.ApiTodo | app/browser/api.mjs:87 | The defaulted todo: a truthy todo is kept as it is, and a missing or falsy one becomes the empty object `{}`, so the result is always truthy. |
| TodoList.OrEmpty | public/browser/todos-form-create.mjs:382 | The default `{}` replaces only a missing todo or problems value. |
| ReactiveStore.Store.constructor | public/browser/todos-form-create.mjs:235-237 | The store starts with no properties, no dirty properties and no listeners. |
| ReactiveStore.Store.Set | public/browser/todos-form-create.mjs:247-262 | A reserved name returns false and changes nothing. Any other name returns true. When the value differs (`!==`), it is stored and the name is appended to `dirtyProps`; otherwise nothing changes. Listeners never change. |
| ReactiveStore.Store.Merge | public/browser/todos-form-create.mjs:277-281 | Every property of the argument is copied into the state, and nothing is marked dirty. |
| ReactiveStore.Store.Initialize | public/browser/todos-form-create.mjs:287-291 | A truthy initial state is merged in. A falsy one changes nothing. |
| ReactiveStore.Store.Subscribe | public/browser/todos-form-create.mjs:299-301 | Appends `{fn, props}` and returns the new number of listeners. |
| ReactiveStore.Store.Unsubscribe | public/browser/todos-form-create.mjs:308-310 | The listeners become the splice at `findIndex(l => l.fn === fn)`, and the removed ones are returned. |
| ReactiveStore.UnsubscribeFirstMatch | public/browser/todos-form-create.mjs:308-310 | unsubscribe removes the first listener with that function. |
| ReactiveStore.UnsubscribeNoMatch | public/browser/todos-form-create.mjs:309 | With no listener of that function, the last listener is removed. |
| ReactiveStore.UnsubscribeEmpty | public/browser/todos-form-create.mjs:309 | With no listeners, nothing is removed. |
| ReactiveStore.ListenerIndex | public/browser/todos-form-create.mjs:309 | The first listener with that function, or -1 iff there is none. |
| ReactiveStore.Store.Notify | public/browser/todos-form-create.mjs:312-329 | Every listener is called exactly once, in subscription order, with its payload. Afterwards `dirtyProps` is empty, and state and listeners are unchanged. |
| ReactiveStore.Listed | public/browser/todos-form-create.mjs:317-318 | The filter keeps exactly the dirty props the listener lists. |
| ReactiveStore.CollectContents | public/browser/todos-form-create.mjs:319-324 | The reduce adds exactly the given keys, each with its current state value. |
| ReactiveStore.PayloadContents | public/browser/todos-form-create.mjs:316-325 | A listener with props receives exactly the dirty props it lists, with their current values. A listener without props receives the whole state. |
| TodoMutations.Commit | public/browser/todos-form-create.mjs:384-386 | `store.todos = copy; store.problems = problems` stores both. `todos` is always marked dirty, since the copy is a fresh array; `problems` is marked dirty when it differs. |
| TodoMutations.CreateMutation | public/browser/todos-form-create.mjs:382-387 | The stored list becomes the old list with the todo appended, and `problems` is always stored. |
| TodoMutations.UpdateMutation | public/browser/todos-form-create.mjs:389-394 | The stored list becomes `Updated` of the old list (first key match replaced, or the last todo), and `problems` is always stored. |
| TodoMutations.DestroyMutation | public/browser/todos-form-create.mjs:396-401 | The stored list becomes `Destroyed` of the old list (first key match removed, or the last todo), and `problems` is always stored. |
| TodoMutations.ListMutation | public/browser/todos-form-create.mjs:403-405 | The received list and problems are merged in by `initialize`. Nothing is marked dirty. |
| TodoMutations.ApiListMutation | app/browser/api.mjs:110-122 | With `notifyOnInitialize`, the list and problems are assigned through `set`, so `todos` is marked dirty. |
| KebabCase.ToKebabCase | public/browser/todos-form-create.mjs:114-116 | No uppercase letter is left. |
| KebabCase.OnlyDashesAdded | public/browser/todos-form-create.mjs:114-116 | Only dashes are added: without dashes, the result is the lowercased input without dashes. |
| KebabCase.InsertDashesBoundary | public/browser/todos-form-create.mjs:115 | A lowercase-uppercase pair straddling two strings is matched, and puts a dash between their results. |
| KebabCase.Idempotent | public/browser/todos-form-create.mjs:114-116 | Applying toKebabCase twice changes nothing more. |
| KebabCase.PascalCaseToKebab | public/browser/todos-form-create.mjs:88 | A class name made of capitalised words becomes the lowercased words joined by dashes (`TodosFormCreate` gives `todos-form-create`). |

## Left out

- `transformEntry`, the caller's callback, is left out. The model takes the entries as `{path, value}` unchanged. It is a foreign function.
- `FormData`, `Array.from`/`Object.entries` and `processForm`'s `JSON.stringify` are left out. The entries arrive as a sequence in iteration order, and `isIterable` is a parameter.
- The Web Worker and IndexedDB state machine, worker creation, `postMessage` and the message dispatch in `mutate` are left out. They are asynchronous I/O. The mutations take the message's fields as parameters.
- The `requestAnimationFrame`/`setTimeout` debounce and the `Proxy` mechanics are left out. `notify` is an explicit call that returns the listener calls it makes, in order.
- Listener side effects are left out. A listener that writes to the store during `notify` would change `dirtyProps` mid-loop.
- The store's own functions, installed under `initialize`, `subscribe` and `unsubscribe`, are not values in the state map. The whole-state payload of `notify` therefore omits them, and `merge` can overwrite them in the source.
- Values are integers, strings, booleans, null, objects and arrays. `undefined` as an entry value, floating point and `NaN` are not modelled.
- Prototype keys are not modelled. In the source `currentObject[k]` also reads inherited properties, so an entry `constructor=x` or `toString=x` finds a value and throws DuplicateKey (app/browser/api.mjs:374-377), and `__proto__` writes the prototype. The model's objects have no inherited properties and write the key.
- Array indices are unbounded naturals. JavaScript caps array indices at 2^32 - 2; a larger `a[4294967295]` becomes an object property in the source.
- Every object is a value. In-place updates of shared objects and aliasing are not modelled.
  - The converter builds a fresh tree. The squash is recursive and uses locations from before any squash, which is what the identity set gives.
  - The mutations copy the list before splicing, so the original list is never changed. With values this holds by construction.
- SchemaCoercer.Coercible: `parseInt`/`parseFloat` are modelled only on decimal digit strings and on integers. Hexadecimal, leading spaces, trailing text, signs and `NaN` are not. A truthy value under an `object` property must be a plain object; the source's property writes on a string or an array there are not modelled.
- SchemaCoercer.ParseNumber: numbers are exact unbounded integers. JavaScript numbers are doubles, so `parseInt` rounds a digit string above 2^53 (`"9007199254740993"` gives 9007199254740992), and `parseInt` of a number of magnitude 1e21 or more reads its exponent form and gives 1. Neither rounding is modelled.
- `toLowerCase` is modelled on ASCII letters only. Unicode case mapping is not.
- ReactiveStore.Differs: `!==` on objects and arrays compares references. The model treats every object or array as a fresh reference, as every one the app assigns is a newly built copy. Assigning the very same object twice is not modelled.
- TodoList.KeyOf: `.key` on a `null` todo or list element throws in JavaScript. The model reads it as `undefined`.
- ReactiveStore.Store.Initialize: a truthy initial state that is not a plain object is excluded by its precondition. Its indices would be enumerated by `for…in` in the source.
- TodoMutations.CreateMutation, TodoMutations.UpdateMutation and TodoMutations.DestroyMutation require the stored `todos` to be an array without holes, when present (`HasTodoList`). This excludes three cases. A stored `todos` that is `null` or `""` is read as `[]` by `store?.todos?.slice() || []`. Any other non-array makes the source throw, at `slice`, `push` or `findIndex`. A list with holes makes update and destroy throw on `.key` when `findIndex` reaches a hole before a matching todo, because it visits a hole as `undefined`. When a match comes first nothing throws, and destroy keeps the hole. Create never reads `.key` and keeps the hole. The app only ever stores hole-free arrays.
- `Store(initialState)` with an initial state is `constructor()` followed by `Initialize`.
- Key comparison `i.key === item.key` is structural in the model. Keys are numbers in the app.

### Where the behaviour follows the code rather than its description

- A value with no colon under a `time`/`date-time` format throws. `match` returns `null` and `.length` is read from it. It is not left unchanged.
- `fixArrayNotationForPlainObjects` tests whether the entry's own value is an array, not whether an array already exists in the tree.
- For `arr[0]` then `arr[]`, the MixedArray error names the append's `pathToPart`, `arr[]`.
