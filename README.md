# TAD-GPT-MCP: a Dafny model of the Revit bridge, the gateway normalisers and the action rules

TAD-GPT-MCP lets language-model tools drive Autodesk Revit. A Node gateway
(`gateway/server.js`) receives tool calls over HTTP. It normalises the action
name and the arguments (aliases, camelCase keys, numbers with units, booleans,
id lists) and forwards them to a bridge inside Revit (`RevitBridge.cs`). The
bridge authenticates the request, looks the action up in a case-insensitive
registry and builds a job. It queues the job for Revit's UI thread and drains
the queue in order. Each job ends as an HTTP 200 reply with data or an HTTP 500
reply with the exception's message. The actions themselves (quantity takeoffs,
QA fixes, sheets and documentation, view graphics, exports, structural,
architectural and MEP modelling) read the Revit document and change it. The
parameter tool server (`mcp_parameters/dist/index.js`) reshapes its own
arguments before it forwards them.

The model covers:

- The bridge's registry and `/actions` listing, its FIFO job runner and its
  request routing.
- The gateway's name and argument normalisers and its `/mcp` forwarding.
- The parameter server's argument normalisers.
- The decision rules of the Qto, Qa, Doc, Graphics, Export, Structure,
  Architecture, MepPipeConduit and MepDuct actions.

Revit itself is not modelled. The document appears as sequences of element
records, and every call into Revit is a function parameter. Examples are the
outcome of a `Delete`, an element creation, a parameter `Set` or an exporter.
An action's result is therefore determined by its inputs and by those outcomes.

Modules, one per source file, plus shared helpers:

| module | models |
|---|---|
| `Text`, `Seqs`, `Json`, `JsNum` | ASCII case folding, trimming, splitting and joining; generic sequence helpers; JSON values with objects as key-ordered entry lists; JavaScript `Number()`/`parseInt` over decimal strings |
| `Revit` | units (0.3048 m per foot), points, edges, closed profile loops, levels and element types |
| `Bridge` | `RevitBridge.cs`: `UiJob`, `ActionRunner`, the registry and its wrapper factories, `ListActions`, `Handle` |
| `GatewayNames`, `GatewayArgs`, `GatewayRoutes` | `gateway/server.js`: action names and hints, argument normalisers, argument merging and forwarding |
| `Params` | `mcp_parameters/dist/index.js` |
| `Qto`, `Qa`, `Docs`, `Graphics`, `Export`, `Structure`, `Architecture`, `Mep`, `MepDuct` | the matching `Actions/*Actions.cs` files |

Where the code and the written description of the system disagree, the model
follows the code:

- The bridge registry compares names ignoring case (`StringComparer.OrdinalIgnoreCase`), so `/actions` lists case-distinct keys once.
- Every failure of a bridge job, including an unknown action, is an HTTP 500 reply with ok = false and the exception's message. No other error status is used.
- The bridge has no timeout of its own. Only the gateway gives up, with the message "Bridge timeout".
- The pipe takeoff's bucket labels have no space: "≤{b}mm" and ">{last}mm".

Imperative parts of the source become Dafny methods with loops. Each is proved
equal to a specification function, and the source's promises are proved as
lemmas about that function:

- the job queue (`Bridge.ActionRunner`, a class with a `seq` queue);
- the closest-pair search;
- the nearest-wall search;
- the bulk setters;
- the room loops;
- the takeoff accumulations;
- the target collections.

## Model

| member | source | states |
|---|---|---|
| Text.LookupIgnoreCase | revit_bridge/mcp_revit_bridge/mcp_revit_bridge/RevitBridge.cs:344-345 | a hit returns the factory of an entry whose key equals the name ignoring case; a miss means no key equals it ignoring case |
| Text.LookupIgnoresCase | revit_bridge/mcp_revit_bridge/mcp_revit_bridge/RevitBridge.cs:66 | names that differ only in case resolve to the same factory |
| Bridge.AssignLookup | revit_bridge/mcp_revit_bridge/mcp_revit_bridge/RevitBridge.cs:66-67 | after the indexer assignment `reg[key] = f`, every name equal to key ignoring case finds f and every other name finds what it found before |
| Bridge.AssignKeys | revit_bridge/mcp_revit_bridge/mcp_revit_bridge/RevitBridge.cs:66-67 | assignment keeps every existing key in place with its spelling and appends the key only when no key equals it ignoring case |
| Bridge.BuildUnique | revit_bridge/mcp_revit_bridge/mcp_revit_bridge/RevitBridge.cs:66-258 | the registry built by the collection initializer never holds two keys that differ only in case |
| Bridge.BuildLookupNone | revit_bridge/mcp_revit_bridge/mcp_revit_bridge/RevitBridge.cs:66-258 | a name is unknown exactly when no initializer entry has a key equal to it ignoring case |
| Bridge.BuildLookupLast | revit_bridge/mcp_revit_bridge/mcp_revit_bridge/RevitBridge.cs:66-258 | a name resolves to the factory of the last initializer entry whose key equals it ignoring case |
| Bridge.Delegate | revit_bridge/mcp_revit_bridge/mcp_revit_bridge/RevitBridge.cs:197-257 | a plain entry hands the args over unchanged to its own handler; a wrapper hands QtoCountsMepElectrical a copy whose `categories` is its fixed list and whose every other key reads as in the caller's args (absent when they were null); the caller's args are a value and are not changed |
| Bridge.WrapperKeys | revit_bridge/mcp_revit_bridge/mcp_revit_bridge/RevitBridge.cs:199-200 | the wrapper's copy keeps the caller's keys in their order and adds `categories` last only when it was absent |
| Bridge.SortStrings | revit_bridge/mcp_revit_bridge/mcp_revit_bridge/RevitBridge.cs:283 | OrderBy gives a sorted permutation of its input |
| Bridge.ListActionsExactlyOnce | revit_bridge/mcp_revit_bridge/mcp_revit_bridge/RevitBridge.cs:283 | the /actions list is sorted, holds exactly the registry keys, and each key once |
| Bridge.TrySetOnce | revit_bridge/mcp_revit_bridge/mcp_revit_bridge/RevitBridge.cs:42-46 | TrySetResult / TrySetException resolve a pending completion source with the outcome once; a second attempt changes nothing |
| Bridge.Resolved | revit_bridge/mcp_revit_bridge/mcp_revit_bridge/RevitBridge.cs:39-47 | a job's resolution is terminal, and it is Succeeded exactly when the executable returned rather than threw |
| Bridge.StepStates | revit_bridge/mcp_revit_bridge/mcp_revit_bridge/RevitBridge.cs:39-47 | one turn of the loop resolves the dequeued job's source with its own outcome and changes no other source |
| Bridge.StepKeepsQueueValid | revit_bridge/mcp_revit_bridge/mcp_revit_bridge/RevitBridge.cs:37-47 | after one turn every job still queued has its own source, still Queued |
| Bridge.DrainHead | revit_bridge/mcp_revit_bridge/mcp_revit_bridge/RevitBridge.cs:37 | the drain takes the head job first and then drains the rest (FIFO) |
| Bridge.HostBeforeTail | revit_bridge/mcp_revit_bridge/mcp_revit_bridge/RevitBridge.cs:37-41 | the host state a queued job sees is the effect of exactly the jobs ahead of it, in queue order |
| Bridge.DrainHost | revit_bridge/mcp_revit_bridge/mcp_revit_bridge/RevitBridge.cs:37-48 | after the drain the host is the effect of every queued job applied in queue order |
| Bridge.DrainOthers | revit_bridge/mcp_revit_bridge/mcp_revit_bridge/RevitBridge.cs:37-48 | the drain touches no completion source other than those of the queued jobs |
| Bridge.DrainOthersDomain | revit_bridge/mcp_revit_bridge/mcp_revit_bridge/RevitBridge.cs:37-48 | the drain creates no completion source |
| Bridge.DrainResolvesEach | revit_bridge/mcp_revit_bridge/mcp_revit_bridge/RevitBridge.cs:35-49 | every queued job is resolved with the outcome of running it on the host left by the jobs before it; a throwing job is resolved Failed and the jobs behind it still run |
| Bridge.DrainLast | revit_bridge/mcp_revit_bridge/mcp_revit_bridge/RevitBridge.cs:35-49 | the job at the back of the queue is resolved with the outcome of running it after all the others |
| Bridge.ActionRunner.constructor | revit_bridge/mcp_revit_bridge/mcp_revit_bridge/RevitBridge.cs:30-32 | a new runner has an empty queue and no completion sources |
| Bridge.ActionRunner.Enqueue | revit_bridge/mcp_revit_bridge/mcp_revit_bridge/RevitBridge.cs:33 | Enqueue appends the job at the back with a fresh Queued source and changes nothing else |
| Bridge.ActionRunner.RunNext | revit_bridge/mcp_revit_bridge/mcp_revit_bridge/RevitBridge.cs:37-47 | one iteration dequeues the head, runs it on the host and resolves its source with its value or exception |
| Bridge.ActionRunner.Execute | revit_bridge/mcp_revit_bridge/mcp_revit_bridge/RevitBridge.cs:35-49 | Execute empties the queue, runs the jobs in FIFO order and leaves host and sources as the drain specification says |
| Bridge.OptionsBeforeAuth | revit_bridge/mcp_revit_bridge/mcp_revit_bridge/RevitBridge.cs:290-295 | OPTIONS gets 204 with no body, before any key check |
| Bridge.AuthExact | revit_bridge/mcp_revit_bridge/mcp_revit_bridge/RevitBridge.cs:298-311 | with a key set (non-empty, no surrounding blanks), a header made of any spelling of "Bearer " ignoring case followed by a token passes exactly when the trimmed token equals the key |
| Bridge.OtherRoutesNotFound | revit_bridge/mcp_revit_bridge/mcp_revit_bridge/RevitBridge.cs:297-334 | any request other than OPTIONS, GET /health, GET /actions and POST /mcp gets 404, or 401 when it fails the key check |
| Bridge.OnlyKnownPostsRun | revit_bridge/mcp_revit_bridge/mcp_revit_bridge/RevitBridge.cs:297-351 | a job is built only for an authorized POST /mcp with a non-blank action that the registry knows |
| Bridge.UnknownActionReply | revit_bridge/mcp_revit_bridge/mcp_revit_bridge/RevitBridge.cs:344-345 | for any admitted POST /mcp request naming an action with no factory, and any args, the reply is 500 with "Unknown action '<name>'." and nothing is queued |
| Bridge.FactoryErrorReply | revit_bridge/mcp_revit_bridge/mcp_revit_bridge/RevitBridge.cs:347 | for any admitted POST /mcp request, any action and any args (none read as {}), a factory that throws while parsing gets 500 with its message and nothing is queued |
| Bridge.CompleteOutcome | revit_bridge/mcp_revit_bridge/mcp_revit_bridge/RevitBridge.cs:353-358 | a returned value gives 200, ok, "ok" and the value as data; an exception gives 500, not ok and its message |
| Bridge.RevitBridge.constructor | revit_bridge/mcp_revit_bridge/mcp_revit_bridge/RevitBridge.cs:62-67 | the bridge starts with the initializer's registry, the configured key and an empty runner |
| Bridge.RevitBridge.Handle | revit_bridge/mcp_revit_bridge/mcp_revit_bridge/RevitBridge.cs:285-360 | a request answered by routing queues nothing and leaves host and sources unchanged; otherwise the job is queued at the back, the queue is drained, and the reply is the job's own outcome |
| GatewayNames.OwnAlias | gateway/server.js:82-91 | a name has an alias exactly when it is a key of the manual table, and then maps to that key's target |
| GatewayNames.AliasIn | gateway/server.js:82-95 | an alias lookup in a table succeeds exactly for its keys, giving the target listed for that key |
| GatewayNames.Candidates | gateway/server.js:97-103 | five spellings are tried, the trimmed name first |
| GatewayNames.FirstKnown | gateway/server.js:104 | the chosen candidate is known and no earlier candidate is; with no hit none is known |
| GatewayNames.FirstKnownAt | gateway/server.js:104 | a known candidate with no known candidate before it is the one chosen |
| GatewayNames.NormalizeActionName | gateway/server.js:92-106 | the candidate loop returns what the action-name rule says |
| GatewayNames.ActionNameOutcomes | gateway/server.js:92-106 | a trimmed alias key maps to its target; otherwise the first known candidate spelling is returned; otherwise the trimmed name |
| GatewayNames.KnownNamePassesThrough | gateway/server.js:94-104 | a known name that is no alias key is returned trimmed and otherwise unchanged |
| GatewayNames.LowerCaseFallback | gateway/server.js:99-104 | when the trimmed name is unknown but its lower-case form is known, the lower-case form is returned |
| GatewayNames.NoKnownActions | gateway/server.js:104-105 | without a bridge list only the alias table applies and the trimmed name passes through |
| GatewayNames.NotAnAliasKey | gateway/server.js:82-91 | names that start with none of the alias keys' first letters have no alias |
| GatewayNames.InheritedIsNotAName | gateway/server.js:95 | a trimmed name that is an inherited member of every object makes the function return a non-string |
| GatewayNames.ConstructorIsInherited | gateway/server.js:95 | "constructor" is no alias key but `manualAliases["constructor"]` reads an inherited member |
| GatewayNames.ConstructorIsNotAName | gateway/server.js:95 | the action "constructor" is normalised to a non-string |
| GatewayNames.NoAliasIsAName | gateway/server.js:92-106 | without an alias the corrected lookup returns the trimmed name or a known action |
| GatewayNames.AsWrittenAgreesElsewhere | gateway/server.js:92-106 | the code as written and the corrected lookup agree on every name that is not an inherited member |
| GatewayNames.ActionNameIsAName | gateway/server.js:92-106 | the corrected lookup always returns the trimmed name, a known action or an alias target |
| GatewayNames.HintKindOf | gateway/server.js:354-356 | the empty-name hint applies exactly to blank names |
| GatewayNames.InferHint | gateway/server.js:354-412 | every inferred hint is an object |
| GatewayNames.HintPrecedence | gateway/server.js:358-379 | ".list" actions get the no-argument hint even under "qto."; other "qto." actions get the takeoff hint; "view.category." actions are not treated as plain views |
| GatewayNames.BuildHints | gateway/server.js:414-420 | the loop fills `out` as the fold over the actions does |
| GatewayNames.HintsFoldGet | gateway/server.js:416-418 | every listed action gets its table hint when there is one, else the inferred one, and nothing else is hinted |
| GatewayNames.HintsFoldUnique | gateway/server.js:415-418 | the hinted keys are exactly the actions, each once |
| GatewayRoutes.GatewayBearerIsExact | gateway/server.js:27-34 | unlike the bridge, the gateway's own bearer check compares the whole header with case, so "bearer <key>" is refused by the gateway but accepted by the bridge |
| GatewayRoutes.MergeArgsTolerant | gateway/server.js:591-602 | the merged action is the source's `action` |
| GatewayRoutes.ArgsEntriesUnique | gateway/server.js:595-599 | what `args` contributes has no repeated key |
| GatewayRoutes.MergeArgsWins | gateway/server.js:591-602 | in the merged args a key of `args` wins over the same flat key; every other flat key except action and args is kept |
| GatewayRoutes.MergeInvalidJson | gateway/server.js:595-596 | a string `args` that is not valid JSON contributes nothing, so only the flat keys remain |
| GatewayRoutes.BridgeResult | gateway/server.js:48-67 | a 2xx reply is passed on as its body (`{}` when unreadable); anything else becomes ok=false with a non-empty message |
| GatewayRoutes.BridgeStatusMessage | gateway/server.js:61 | a non-2xx reply's message is "Bridge HTTP " followed by the status |
| GatewayRoutes.BridgeStatusInMessage | gateway/server.js:61 | the status can be read back from that message |
| GatewayRoutes.OutgoingRequest | gateway/server.js:51-57 | the gateway always calls the bridge with POST /mcp |
| GatewayRoutes.BridgeAdmitsGateway | gateway/server.js:55 | with the same key on both sides, the bridge never answers the gateway's call with 401 |
| GatewayRoutes.ExecQueryWins | gateway/server.js:677 | POST /exec reads a query key over the body key of the same name |
| GatewayRoutes.Handle | gateway/server.js:627-690 | a request is forwarded only when it passes the gateway's key check and carries a truthy action, and the client then gets exactly the bridge call's result |
| GatewayRoutes.CoerceEachShape | gateway/server.js:566-585 | coercion in place keeps the normalised keys camel-cased and distinct |
| GatewayRoutes.ForwardedArgsShape | gateway/server.js:638-640 | the forwarded args are an object whose keys are camel-cased and distinct |
| GatewayRoutes.ForwardsKnownName | gateway/server.js:638-640 | a trimmed known action that is no alias key is forwarded under its own name |
| GatewayArgs.Capitalize | gateway/server.js:426 | upper-casing the first character keeps the length, adds no underscore and changes only case |
| GatewayArgs.CamelParts | gateway/server.js:426 | the split parts are never empty as a list and none holds an underscore |
| GatewayArgs.ToCamelCaseKey | gateway/server.js:423-427 | the result has no underscore, and a key without one is returned unchanged |
| GatewayArgs.CamelCaseIdempotent | gateway/server.js:423-427 | camel-casing twice equals camel-casing once |
| GatewayArgs.CamelPartsPointwise | gateway/server.js:426 | each camel part is the matching snake part up to case |
| GatewayArgs.CamelCaseKeepsLetters | gateway/server.js:423-427 | camel-casing only removes underscores and changes letter case |
| GatewayArgs.ScanNumeral | gateway/server.js:433 | a scanned numeral has a non-empty digit run and digit-only fraction |
| GatewayArgs.MatchNumberWithUnit | gateway/server.js:433-436 | a matched unit is one of the listed units |
| GatewayArgs.ParseNumericWithUnits | gateway/server.js:429-438 | non-strings pass through with no unit; a unit is only reported with a number and is a listed unit; anything that does not read as a number comes back as it was |
| GatewayArgs.ParseBlankIsZero | gateway/server.js:434 | a blank string reads as the number 0 with no unit |
| GatewayArgs.ParseNumberWithUnit | gateway/server.js:432-437 | digits, blanks and a unit read as that number with that unit |
| GatewayArgs.ToMeters | gateway/server.js:440-454 | non-numbers come back unchanged and numbers stay numbers |
| GatewayArgs.ToMetersConsistent | gateway/server.js:440-454 | mm is a tenth of cm, cm a hundredth of m, in a twelfth of ft, and the spellings of one unit agree |
| GatewayArgs.ToMetersIdentity | gateway/server.js:445-452 | m, no unit, or an unknown unit leave the number unchanged |
| GatewayArgs.TrimmedParts | gateway/server.js:462 | the kept comma parts are non-empty, trimmed and comma-free |
| GatewayArgs.CommaList | gateway/server.js:462 | every part of a comma split is a trimmed non-empty word |
| GatewayArgs.MaybeCoerceScalar | gateway/server.js:456-483 | only strings and numbers change; numbers stay numbers; a boolean comes from "true"/"false"; a string result is the input; an array result holds at least two trimmed words |
| GatewayArgs.ScalarBlankIsZero | gateway/server.js:466-472 | a blank string becomes 0 whatever the key |
| GatewayArgs.ScalarSuffixRulesIdle | gateway/server.js:475-481 | the unit suffix rules never fire on a key without underscores |
| GatewayArgs.ScalarNumberWithUnit | gateway/server.js:466-471 | a number with a unit becomes metres whatever the key |
| GatewayArgs.MaybeCoerceBool | gateway/server.js:485-497 | keys not ending in a flag word are untouched; otherwise only numbers and strings may become booleans, and a number becomes (value ≠ 0) |
| GatewayArgs.BoolIdempotent | gateway/server.js:485-497 | applying the boolean coercion twice equals applying it once |
| GatewayArgs.ToArray | gateway/server.js:499-509 | arrays unchanged, null/undefined give [], strings give trimmed non-empty comma-free parts, any other value gives [val] |
| GatewayArgs.ToArrayOfWord | gateway/server.js:503-506 | a non-blank string without a comma gives [trimmed] |
| GatewayArgs.RenameKey | gateway/server.js:516-524 | the stored key is one no alias rename would change again |
| GatewayArgs.NormalizeArgsAliases | gateway/server.js:511-561 | the loop and fix-ups compute the alias normalisation |
| GatewayArgs.AliasFoldClean | gateway/server.js:515-532 | the loop keeps keys clean and distinct |
| GatewayArgs.ArgsAliasesShape | gateway/server.js:511-561 | afterwards every key is camel-cased and alias-free, no key repeats, categories is an array when present and so is groupBy for qto actions |
| GatewayArgs.CategoriesAccumulate | gateway/server.js:527-530 | a second key naming the categories extends the array instead of replacing it |
| GatewayArgs.IdItems | gateway/server.js:573-575 | id list items contain no strings and never grow in number |
| GatewayArgs.CoerceValue | gateway/server.js:569-583 | values under …Ids keys become arrays without strings; values under single-id keys are not strings |
| GatewayArgs.CoerceArgsForAction | gateway/server.js:563-589 | the loop computes the coerced args |
| GatewayArgs.CoerceEach | gateway/server.js:567-585 | every entry is coerced where it stands, under its own key |
| GatewayArgs.PutEachPointwise | gateway/server.js:567-585 | over distinct keys the loop writes each entry in place with its new value |
| GatewayArgs.ElevationFallbackIdle | gateway/server.js:586-587 | the elevation fallbacks read underscore keys that camel-casing has removed, so they never fire |
| GatewayArgs.CoercedArgsPointwise | gateway/server.js:563-589 | for object args the result is the normalised entries in order, each coerced for its key; nothing added or dropped |
| GatewayArgs.CoercedIds | gateway/server.js:566-588 | every output key is underscore-free; …Ids keys hold arrays in which strings were parsed as base-10 integers and the unparsable (NaN) ones dropped; single-id keys hold no string |
| GatewayArgs.CoercedNonObject | gateway/server.js:564 | anything but an object or array comes back as it is, or as {} when falsy |
| Params.ParseMaybeJson | mcp_parameters/dist/index.js:14-23 | non-strings come back unchanged; a string is replaced by its parse when it is valid JSON and kept otherwise |
| Params.ToBoolNum | mcp_parameters/dist/index.js:24-35 | non-strings come back unchanged |
| Params.ToBoolNumWords | mcp_parameters/dist/index.js:27-31 | exactly the trimmed, case-insensitive "true" and "false" become booleans |
| Params.ToBoolNumNumbers | mcp_parameters/dist/index.js:32-34 | any other non-empty string that Number reads as finite becomes that number; one it cannot read is kept; a number result only comes from such a string |
| Params.ToBoolNumIdempotent | mcp_parameters/dist/index.js:24-35 | a second pass changes nothing |
| Params.ToBoolNumBlank | mcp_parameters/dist/index.js:32-33 | a non-empty blank string becomes 0 |
| Params.ToBoolNumNat | mcp_parameters/dist/index.js:32-33 | the decimal spelling of a natural number becomes that number |
| Params.GuidBySegments | mcp_parameters/dist/index.js:36-38 | looksLikeGuid accepts exactly 8-4-4-4-12 hex digits in either case with version digit 1-5 and variant digit 8, 9, a or b |
| Params.GuidSplits | mcp_parameters/dist/index.js:36-38 | every GUID-shaped string is five segments joined by dashes |
| Params.GuidIsNotBip | mcp_parameters/dist/index.js:36-41 | no string is both GUID-shaped and BIP-shaped |
| Params.BipIsUpperCase | mcp_parameters/dist/index.js:39-41 | a lower-case letter disqualifies a BIP name |
| Params.FirstSet | mcp_parameters/dist/index.js:43-48 | `??` picks the first field that is neither undefined nor null |
| Params.PickToken | mcp_parameters/dist/index.js:42-56 | a token exists exactly when the first set token field is a non-empty string, and it carries that string; it is a guid iff GUID-shaped, else bip iff BIP-shaped, else param |
| Params.TokenKindIgnoresField | mcp_parameters/dist/index.js:43-55 | the kind comes from the shape, not the field: a GUID in `bip` is a guid token |
| Params.NonStringHidesLaterFields | mcp_parameters/dist/index.js:43-50 | a number in `guid` hides every later field and gives no token |
| Params.ExpandedIds | mcp_parameters/dist/index.js:57-66 | the result is empty exactly when `many` is empty, `one` is not a number and the selection is not asked for |
| Params.ExpandElementIds | mcp_parameters/dist/index.js:57-66 | the pushes build the expanded id list |
| Params.ExpandKeepsManyFirst | mcp_parameters/dist/index.js:59-60 | the `many` ids come first, in their order |
| Params.ExpandZeroTwice | mcp_parameters/dist/index.js:61-64 | elementId 0 yields 0 twice |
| Params.ExpandNonZero | mcp_parameters/dist/index.js:57-66 | any other number is pushed once, followed by 0 only when useSelection is truthy |
| Params.ParamsGetArgs | mcp_parameters/dist/index.js:68-82 | the output has exactly the keys elementIds, paramNames and includeValueString |
| Params.ParamsGetDefaults | mcp_parameters/dist/index.js:68-82 | without arguments nothing is asked for and value strings are included |
| Params.ParamsGetIds | mcp_parameters/dist/index.js:70-74 | elementIds falls back to [elementId] when that is a number, then to [] |
| Params.ParamsGetNames | mcp_parameters/dist/index.js:75-79 | with no parsed array, paramNames falls back to [param] |
| Params.ParamsGetNoNames | mcp_parameters/dist/index.js:75-79 | with no parsed array and neither param nor parameter, paramNames is [] |
| Params.CopyExtrasGet | mcp_parameters/dist/index.js:133-136 | after the copy loop a key keeps its entry value, is skipped when excluded or inherited, or takes the update's value |
| Params.CopyExtrasUnique | mcp_parameters/dist/index.js:133-136 | the copy loop repeats no key |
| Params.CopyExtraKeys | mcp_parameters/dist/index.js:133-136 | the in-place loop computes the copy |
| Params.WithTokenOthers | mcp_parameters/dist/index.js:118-132 | the token step touches only guid, bip and param |
| Params.SetEntryGet | mcp_parameters/dist/index.js:116-137 | every non-token field of a params.set entry is elementId and value as built, never elementIds or useSelection, and otherwise the update's own key |
| Params.SetEntryId | mcp_parameters/dist/index.js:117 | every entry carries its own id |
| Params.SetEntryExcludes | mcp_parameters/dist/index.js:134 | elementIds and useSelection never reach an entry |
| Params.BuildSetEntry | mcp_parameters/dist/index.js:116-137 | building an entry as the source does gives the entry specification |
| Params.UpdateEntries | mcp_parameters/dist/index.js:108-139 | an update that is not an object, has no ids or no token field gives no entry; a kept one gives one entry per id, in id order |
| Params.FlatEntriesSkipsDropped | mcp_parameters/dist/index.js:108-115 | dropped updates contribute nothing and the rest keep their order |
| Params.SingleCallUpdates | mcp_parameters/dist/index.js:87-105 | single-call updates exist only with a token and a `value`, one per expanded id |
| Params.SingleCallShape | mcp_parameters/dist/index.js:87-105 | the single-call form gives one update per expanded id, in order, with the token in its kind's field |
| Params.ParamsSetArgs | mcp_parameters/dist/index.js:140 | the output is `{updates: [...]}` |
| Params.BuildUpdateEntries | mcp_parameters/dist/index.js:108-139 | building one update's entries gives the entry specification |
| Params.BuildEntries | mcp_parameters/dist/index.js:116-138 | `ids.map` builds one entry per id |
| Params.UpdateEntriesKept | mcp_parameters/dist/index.js:116-138 | a kept update's entries are its ids mapped to entries with the coerced value and its token |
| Params.NormalizeParamsSetArgs | mcp_parameters/dist/index.js:83-141 | the flatMap loop computes the params.set body |
| Params.KeepObjects | mcp_parameters/dist/index.js:148-149 | the filter keeps only objects and arrays |
| Params.KeepObjectsMembers | mcp_parameters/dist/index.js:148-149 | a value is kept exactly when it was present and object-like |
| Params.ParamsSetWhereArgs | mcp_parameters/dist/index.js:173 | the output starts with `where` and `set`, and `set` is an array |
| Params.SetWhereKeepsObjects | mcp_parameters/dist/index.js:145-172 | only object entries of `set` are kept, each becoming one entry, in order |
| Params.SetWhereFlags | mcp_parameters/dist/index.js:175-180 | allowTypeParams and dryRun are forwarded exactly when they are booleans, unchanged |
| Params.WhereEntryGet | mcp_parameters/dist/index.js:168-170 | an entry copies every own key of its item that is not a token field |
| Params.BuildWhereEntry | mcp_parameters/dist/index.js:150-172 | building one entry as the source does gives the entry specification |
| Qto.KeyFromGroupBy | revit_bridge/mcp_revit_bridge/mcp_revit_bridge/Actions/QtoActions.cs:181-191 | the loop builds exactly the group key GroupKey: "(total)" without groupBy, else "g:v" per grouped name joined by "\|" with a missing or null value written "-" |
| Qto.GroupedKeyIsNotTotal | revit_bridge/mcp_revit_bridge/mcp_revit_bridge/Actions/QtoActions.cs:181-191 | with something to group by, no element's key is "(total)" |
| Qto.KeySplits | revit_bridge/mcp_revit_bridge/mcp_revit_bridge/Actions/QtoActions.cs:181-191 | when names and values hold no "\|", splitting the key at "\|" gives back the "g:v" segments in groupBy order |
| Qto.SameGroupIff | revit_bridge/mcp_revit_bridge/mcp_revit_bridge/Actions/QtoActions.cs:181-191 | two elements share a group exactly when every grouped name reads the same for both (missing and null both read "-") |
| Qto.PutGetIgnoreCase | revit_bridge/mcp_revit_bridge/mcp_revit_bridge/Actions/QtoActions.cs:196-197 | assignment into the case-insensitive key dictionary makes every spelling of the key read the new value and leaves other keys alone |
| Qto.KeyObjFromGroupBy | revit_bridge/mcp_revit_bridge/mcp_revit_bridge/Actions/QtoActions.cs:193-199 | the loop builds exactly the key object KeyObject: {key:"(total)"} without groupBy, else the grouped names with their values |
| Qto.KeyFieldsGet | revit_bridge/mcp_revit_bridge/mcp_revit_bridge/Actions/QtoActions.cs:196-197 | in the key object each grouped name (in any case) maps to its value, or "" when absent or null, and no other name is present |
| Qto.EnumParse | revit_bridge/mcp_revit_bridge/mcp_revit_bridge/Actions/QtoActions.cs:205 | a parsed member is named by the trimmed token ignoring case; no parse means no member is so named |
| Qto.EnumParseNone | revit_bridge/mcp_revit_bridge/mcp_revit_bridge/Actions/QtoActions.cs:205 | a token naming no member does not parse |
| Qto.TryParseBuiltInCategory | revit_bridge/mcp_revit_bridge/mcp_revit_bridge/Actions/QtoActions.cs:201-209 | a blank token is no category, and a parsed category is a member of the enumeration |
| Qto.TryParseIff | revit_bridge/mcp_revit_bridge/mcp_revit_bridge/Actions/QtoActions.cs:201-209 | a token parses exactly when it is not blank and some member is named by it or by its "OST_" form |
| Qto.OstFormOfPrefixed | revit_bridge/mcp_revit_bridge/mcp_revit_bridge/Actions/QtoActions.cs:207 | a token already starting with "OST_" is tried as it is |
| Qto.PrefixIsOptional | revit_bridge/mcp_revit_bridge/mcp_revit_bridge/Actions/QtoActions.cs:201-209 | a bare token naming no member parses the same as the same token with "OST_" in front |
| Qto.ParseOfBare | revit_bridge/mcp_revit_bridge/mcp_revit_bridge/Actions/QtoActions.cs:205-208 | a token that fails the first parse is parsed in its "OST_" form |
| Qto.ParseOfPrefixed | revit_bridge/mcp_revit_bridge/mcp_revit_bridge/Actions/QtoActions.cs:205-208 | a token already in "OST_" form is parsed once, as it is |
| Qto.ParseCategories | revit_bridge/mcp_revit_bridge/mcp_revit_bridge/Actions/QtoActions.cs:770-771 | the parsed categories are no more than the tokens and each is a member |
| Qto.ParseCategoriesMembers | revit_bridge/mcp_revit_bridge/mcp_revit_bridge/Actions/QtoActions.cs:769-771 | a category is collected exactly when some token parses to it; tokens that do not parse are dropped |
| Qto.NoParsedCategoryNoFilter | revit_bridge/mcp_revit_bridge/mcp_revit_bridge/Actions/QtoActions.cs:773-780 | when no token parses, the family count applies no category filter |
| Qto.InactiveFilterPassesAll | revit_bridge/mcp_revit_bridge/mcp_revit_bridge/Actions/QtoActions.cs:272-291 | with no criterion given every wall passes, so the guarded filter changes nothing |
| Qto.FilterWallsMembers | revit_bridge/mcp_revit_bridge/mcp_revit_bridge/Actions/QtoActions.cs:258-291 | a wall is taken off exactly when it is a wall of the document, selected when useSelection, and meets every given criterion (type id, type name ignoring case, regex, level ignoring case, phase ignoring case) |
| Qto.InvalidRegexIgnored | revit_bridge/mcp_revit_bridge/mcp_revit_bridge/Actions/QtoActions.cs:248-252 | a name pattern that does not compile gives the result of giving no pattern |
| Qto.BlankTypeNamesIgnored | revit_bridge/mcp_revit_bridge/mcp_revit_bridge/Actions/QtoActions.cs:240 | blank type names are dropped: the result is that of giving none |
| Qto.KeyedItem | revit_bridge/mcp_revit_bridge/mcp_revit_bridge/Actions/QtoActions.cs:323-333 | an element's key and key object are computed from its parts under groupBy |
| Qto.SumOfNew | revit_bridge/mcp_revit_bridge/mcp_revit_bridge/Actions/QtoActions.cs:330-338 | a new group adds its sum to the sum over groups |
| Qto.SumOfUpdate | revit_bridge/mcp_revit_bridge/mcp_revit_bridge/Actions/QtoActions.cs:330-338 | updating one group changes the sum over groups by the change in that group |
| Qto.AddItem | revit_bridge/mcp_revit_bridge/mcp_revit_bridge/Actions/QtoActions.cs:330-338 | one element adds to its group, a new key is appended last, and no other group changes |
| Qto.AbsentKey | revit_bridge/mcp_revit_bridge/mcp_revit_bridge/Actions/QtoActions.cs:330-338 | a key no element has has no count, no sums and no key object |
| Qto.AddedHolds | revit_bridge/mcp_revit_bridge/mcp_revit_bridge/Actions/QtoActions.cs:330-338 | after an element is added its group holds the count and sums of its elements and the first element's key object |
| Qto.OtherHolds | revit_bridge/mcp_revit_bridge/mcp_revit_bridge/Actions/QtoActions.cs:330-338 | adding an element leaves every other group as it was |
| Qto.AddGrouped | revit_bridge/mcp_revit_bridge/mcp_revit_bridge/Actions/QtoActions.cs:330-338 | one more element keeps the groups a correct grouping: keys in first-seen order, no key twice |
| Qto.AddBalanced | revit_bridge/mcp_revit_bridge/mcp_revit_bridge/Actions/QtoActions.cs:294-338 | one more element keeps the group counts and sums equal to the running totals |
| Qto.AccumulateStep | revit_bridge/mcp_revit_bridge/mcp_revit_bridge/Actions/QtoActions.cs:298-338 | one turn of the foreach keeps the groups correct and balanced |
| Qto.AccumulatedStep | revit_bridge/mcp_revit_bridge/mcp_revit_bridge/Actions/QtoActions.cs:298-338 | one turn of the foreach takes the state after i elements to the state after i + 1 |
| Qto.Accumulate | revit_bridge/mcp_revit_bridge/mcp_revit_bridge/Actions/QtoActions.cs:294-339 | the foreach ends with the totals equal to the sums over all elements and the groups a correct grouping whose counts and sums add up to the totals |
| Qto.GroupKeysAreItemKeys | revit_bridge/mcp_revit_bridge/mcp_revit_bridge/Actions/QtoActions.cs:330-338 | there is a group exactly for each key some element has |
| Qto.WallItems | revit_bridge/mcp_revit_bridge/mcp_revit_bridge/Actions/QtoActions.cs:298-333 | each filtered wall gives its keyed item with metric quantities |
| Qto.QtoWalls | revit_bridge/mcp_revit_bridge/mcp_revit_bridge/Actions/QtoActions.cs:233-380 | totalCount is the number of filtered walls, the totals are their summed metric quantities, the groups partition them and add up to the summary, and rows are listed only with includeIds |
| Qto.CountItems | revit_bridge/mcp_revit_bridge/mcp_revit_bridge/Actions/QtoActions.cs:785-803 | each counted element gives its keyed item |
| Qto.QtoFamiliesCount | revit_bridge/mcp_revit_bridge/mcp_revit_bridge/Actions/QtoActions.cs:757-814 | the counted instances are grouped, the group counts add up to their number, and rows are listed only with includeIds |
| Qto.FamilyInstancesMembers | revit_bridge/mcp_revit_bridge/mcp_revit_bridge/Actions/QtoActions.cs:769-780 | an instance is counted exactly when no category parses or its category is one that does |
| Qto.CountsCategoriesAsWritten | revit_bridge/mcp_revit_bridge/mcp_revit_bridge/Actions/QtoActions.cs:1127-1133 | the category list walked is never empty |
| Qto.DefaultCategories | revit_bridge/mcp_revit_bridge/mcp_revit_bridge/Actions/QtoActions.cs:1112-1133 | when no token parses, the eleven distinct default MEP and electrical categories are walked |
| Qto.DefaultsDistinct | revit_bridge/mcp_revit_bridge/mcp_revit_bridge/Actions/QtoActions.cs:1112-1125 | the default categories hold no repeat |
| Qto.DedupDistinct | revit_bridge/mcp_revit_bridge/mcp_revit_bridge/Actions/QtoActions.cs:1127-1133 | removing repeats from a list without any leaves it unchanged |
| Qto.VisitTwice | revit_bridge/mcp_revit_bridge/mcp_revit_bridge/Actions/QtoActions.cs:1141-1148 | walking a category twice visits its element twice |
| Qto.DuplicateCategoryCountsTwice | revit_bridge/mcp_revit_bridge/mcp_revit_bridge/Actions/QtoActions.cs:1127-1145 | two tokens naming the same category make the as-written walk visit that category's element twice; with repeats removed it is visited once |
| Qto.ParsedTwice | revit_bridge/mcp_revit_bridge/mcp_revit_bridge/Actions/QtoActions.cs:1129-1131 | two tokens parsing to one category put it in the list twice |
| Qto.DedupPair | revit_bridge/mcp_revit_bridge/mcp_revit_bridge/Actions/QtoActions.cs:1127-1133 | a doubled category is kept once |
| Qto.VisitOnceOne | revit_bridge/mcp_revit_bridge/mcp_revit_bridge/Actions/QtoActions.cs:1141-1148 | walking one category visits its element once |
| Qto.Dedup | revit_bridge/mcp_revit_bridge/mcp_revit_bridge/Actions/QtoActions.cs:1127-1133 | the list without repeats holds the same categories, none twice |
| Qto.CountsCategories | revit_bridge/mcp_revit_bridge/mcp_revit_bridge/Actions/QtoActions.cs:1127-1133 | the categories walked (corrected): the same categories as written, none twice |
| Qto.VisitOnce | revit_bridge/mcp_revit_bridge/mcp_revit_bridge/Actions/QtoActions.cs:1141-1148 | with distinct categories the walk visits exactly the elements in one of them, each once |
| Qto.KeepSplit | revit_bridge/mcp_revit_bridge/mcp_revit_bridge/Actions/QtoActions.cs:1141-1148 | the elements in the first category or in the others (which do not repeat it) are those of each |
| Qto.VisitCategories | revit_bridge/mcp_revit_bridge/mcp_revit_bridge/Actions/QtoActions.cs:1141-1148 | the loop over the categories collects each one's elements in category order |
| Qto.QtoCountsMepElectrical | revit_bridge/mcp_revit_bridge/mcp_revit_bridge/Actions/QtoActions.cs:1108-1178 | the visited elements are grouped, the group counts add up to their number, and rows are listed only with includeIds |
| Qto.InsertReal | revit_bridge/mcp_revit_bridge/mcp_revit_bridge/Actions/QtoActions.cs:831 | insertion keeps the bounds as a multiset plus the new one |
| Qto.InsertRealSorted | revit_bridge/mcp_revit_bridge/mcp_revit_bridge/Actions/QtoActions.cs:831 | insertion into ascending bounds keeps them ascending |
| Qto.SortedRealsCons | revit_bridge/mcp_revit_bridge/mcp_revit_bridge/Actions/QtoActions.cs:831 | a head no greater than a sorted tail keeps it sorted |
| Qto.SortReals | revit_bridge/mcp_revit_bridge/mcp_revit_bridge/Actions/QtoActions.cs:831 | the bucket bounds are sorted ascending and are a permutation of those given |
| Qto.BucketName | revit_bridge/mcp_revit_bridge/mcp_revit_bridge/Actions/QtoActions.cs:833-839 | the loop returns the bucket BucketOf: "all" without bounds, the first bound not below the diameter, else above the last bound |
| Qto.BucketIsSmallestBound | revit_bridge/mcp_revit_bridge/mcp_revit_bridge/Actions/QtoActions.cs:831-839 | with ascending bounds, no bounds means "all"; a bound bucket is the smallest bound the diameter does not exceed; the above bucket means every bound is exceeded and names the largest |
| Qto.FirstAtLeastSpec | revit_bridge/mcp_revit_bridge/mcp_revit_bridge/Actions/QtoActions.cs:836-837 | the first bound not below the diameter is the smallest such bound; none means all bounds are below it |
| Qto.PipeItems | revit_bridge/mcp_revit_bridge/mcp_revit_bridge/Actions/QtoActions.cs:852-873 | each pipe gives its keyed item with its metric length |
| Qto.AbsentBucket | revit_bridge/mcp_revit_bridge/mcp_revit_bridge/Actions/QtoActions.cs:875-878 | a group and bucket no pipe falls in has no length |
| Qto.BucketTotals | revit_bridge/mcp_revit_bridge/mcp_revit_bridge/Actions/QtoActions.cs:875-878 | per group exactly the buckets some pipe falls in are present, each with the total length of its pipes |
| Qto.BucketLabelInjective | revit_bridge/mcp_revit_bridge/mcp_revit_bridge/Actions/QtoActions.cs:833-839 | when doubles print distinctly, two buckets have the same label exactly when they are the same bucket, so keying by bucket groups the pipes as keying by label does |
| Qto.BucketStep | revit_bridge/mcp_revit_bridge/mcp_revit_bridge/Actions/QtoActions.cs:875-878 | one more pipe adds its length to its own group and bucket only |
| Qto.QtoMepPipes | revit_bridge/mcp_revit_bridge/mcp_revit_bridge/Actions/QtoActions.cs:828-894 | the pipes are grouped with counts adding up to their number and lengths to the total; per group each occurring bucket holds its pipes' length; rows only with includeIds |
| Qto.SurfaceAreaBounds | revit_bridge/mcp_revit_bridge/mcp_revit_bridge/Actions/QtoActions.cs:931-946 | the surface estimate is never negative and is 0 for a non-round duct without both sides |
| Qto.LookupSnoc | revit_bridge/mcp_revit_bridge/mcp_revit_bridge/Actions/QtoActions.cs:957 | setting "shape" after the other parts leaves their values and adds the shape |
| Qto.DuctShapeKey | revit_bridge/mcp_revit_bridge/mcp_revit_bridge/Actions/QtoActions.cs:957-961 | with roundVsRect, a duct's key is its key without the shape followed by "shape:round" or "shape:rect" |
| Qto.DuctSegments | revit_bridge/mcp_revit_bridge/mcp_revit_bridge/Actions/QtoActions.cs:957-961 | with roundVsRect the key's segments are those without the shape plus the shape segment |
| Qto.ShapeLookup | revit_bridge/mcp_revit_bridge/mcp_revit_bridge/Actions/QtoActions.cs:952-957 | without roundVsRect a duct has no "shape" part |
| Qto.RoundAndRectSeparate | revit_bridge/mcp_revit_bridge/mcp_revit_bridge/Actions/QtoActions.cs:931-961 | with roundVsRect a round and a rectangular duct never share a group |
| Qto.DuctItems | revit_bridge/mcp_revit_bridge/mcp_revit_bridge/Actions/QtoActions.cs:922-961 | each duct gives its keyed item with its length and surface estimate |
| Qto.QtoMepDucts | revit_bridge/mcp_revit_bridge/mcp_revit_bridge/Actions/QtoActions.cs:907-982 | the ducts are grouped with counts adding up to their number and lengths and surface estimates to the totals; rows only with includeIds |
| Qa.UnpinnedZeroIff | revit_bridge/mcp_revit_bridge/mcp_revit_bridge/Actions/QaActions.cs:27-30 | no link is unpinned exactly when every link is pinned, and the unpinned count never exceeds the number of links |
| Qa.FixPinAllLinks | revit_bridge/mcp_revit_bridge/mcp_revit_bridge/Actions/QaActions.cs:18-34 | every link ends pinned and `pinned` counts exactly the links that were not |
| Qa.PinTwice | revit_bridge/mcp_revit_bridge/mcp_revit_bridge/Actions/QaActions.cs:27-30 | once every link is pinned, pinning again pins nothing |
| Qa.FindView | revit_bridge/mcp_revit_bridge/mcp_revit_bridge/Actions/QaActions.cs:88 | a found view has the id asked for; none found means no view has it |
| Qa.ViewIdTargets | revit_bridge/mcp_revit_bridge/mcp_revit_bridge/Actions/QaActions.cs:122-126 | the views named by viewIds that exist and are not templates, in the order given |
| Qa.NonTemplates | revit_bridge/mcp_revit_bridge/mcp_revit_bridge/Actions/QaActions.cs:127-130 | exactly the non-template views of the document |
| Qa.Targets | revit_bridge/mcp_revit_bridge/mcp_revit_bridge/Actions/QaActions.cs:122-130 | the targets are non-template views, and without viewIds every non-template view is one |
| Qa.InsertByName | revit_bridge/mcp_revit_bridge/mcp_revit_bridge/Actions/QaActions.cs:76 | insertion keeps the views as a multiset plus the new one |
| Qa.InsertByNameSorted | revit_bridge/mcp_revit_bridge/mcp_revit_bridge/Actions/QaActions.cs:76 | insertion into name order keeps name order |
| Qa.ByNameCons | revit_bridge/mcp_revit_bridge/mcp_revit_bridge/Actions/QaActions.cs:76 | a view whose name sorts first keeps a name-ordered list ordered |
| Qa.SortByName | revit_bridge/mcp_revit_bridge/mcp_revit_bridge/Actions/QaActions.cs:76 | the result is in name order and a permutation of the input |
| Qa.AllTemplates | revit_bridge/mcp_revit_bridge/mcp_revit_bridge/Actions/QaActions.cs:73-77 | the template list is in name order and holds exactly the document's templates |
| Qa.FirstNamedIgnoreCase | revit_bridge/mcp_revit_bridge/mcp_revit_bridge/Actions/QaActions.cs:94-95 | a template found by name has that name ignoring case; none found means no template is so named |
| Qa.ChooseTemplateCases | revit_bridge/mcp_revit_bridge/mcp_revit_bridge/Actions/QaActions.cs:79-118 | a model without templates fails; a chosen template is a template of the document; a positive templateId picks that view; needTemplate happens only without a name, without autoPickFirst and with several templates |
| Qa.AutoPickIsFirstByName | revit_bridge/mcp_revit_bridge/mcp_revit_bridge/Actions/QaActions.cs:102-106 | an automatic pick is the template whose name sorts first |
| Qa.LessEqRefl | revit_bridge/mcp_revit_bridge/mcp_revit_bridge/Actions/QaActions.cs:76 | the name order is reflexive |
| Qa.ApplyAllEffect | revit_bridge/mcp_revit_bridge/mcp_revit_bridge/Actions/QaActions.cs:136-142 | when the loop completes, non-targets keep their template; each target gets the template unless onlyWithoutTemplate and it already had one; `applied` counts every target, or with onlyWithoutTemplate each view that had none |
| Qa.ApplyAllAccepts | revit_bridge/mcp_revit_bridge/mcp_revit_bridge/Actions/QaActions.cs:136-142 | the loop completes exactly when every target it assigns accepts the template (all targets, or with onlyWithoutTemplate those without one); otherwise it fails with the exception of a target that refused |
| Qa.ApplyAllFailureSticks | revit_bridge/mcp_revit_bridge/mcp_revit_bridge/Actions/QaActions.cs:136-142 | once the loop has failed, the later targets change nothing: the first exception is the outcome |
| Qa.FreshBound | revit_bridge/mcp_revit_bridge/mcp_revit_bridge/Actions/QaActions.cs:136-142 | with onlyWithoutTemplate, applied never exceeds the number of targets |
| Qa.ApplyToTargets | revit_bridge/mcp_revit_bridge/mcp_revit_bridge/Actions/QaActions.cs:132-144 | the apply loop stops at the first exception of the ViewTemplateId setter and otherwise produces exactly ApplyAll's document and count |
| Qa.FixApplyViewTemplates | revit_bridge/mcp_revit_bridge/mcp_revit_bridge/Actions/QaActions.cs:65-162 | an error, a needTemplate answer or a target refusing the template leaves the document unchanged, the refusal's message being the error; otherwise the chosen template is applied to the targets and the reply carries applied, total, the template's name and id, autoPicked and the first 20 templates |
| Qa.NewNameHasPrefix | revit_bridge/mcp_revit_bridge/mcp_revit_bridge/Actions/QaActions.cs:244-248 | with a non-empty prefix the new name starts with it |
| Qa.PrefixRenameIdempotent | revit_bridge/mcp_revit_bridge/mcp_revit_bridge/Actions/QaActions.cs:247-248 | a prefix-only rename applied twice gives the name it gave once |
| Qa.ReplaceBySelf | revit_bridge/mcp_revit_bridge/mcp_revit_bridge/Actions/QaActions.cs:245-246 | replacing a string by itself changes nothing |
| Qa.RenameAllEffect | revit_bridge/mcp_revit_bridge/mcp_revit_bridge/Actions/QaActions.cs:242-254 | only names change, only target views change, and renamed never exceeds the targets |
| Qa.RenameNothing | revit_bridge/mcp_revit_bridge/mcp_revit_bridge/Actions/QaActions.cs:250-253 | when no target's name would change, nothing is renamed or counted |
| Qa.PrefixRenameSettles | revit_bridge/mcp_revit_bridge/mcp_revit_bridge/Actions/QaActions.cs:244-253 | an accepted prefix-only rename leaves every target starting with the prefix |
| Qa.PrefixRenameTwice | revit_bridge/mcp_revit_bridge/mcp_revit_bridge/Actions/QaActions.cs:244-253 | running an accepted prefix-only rename again renames nothing |
| Qa.RenameStep | revit_bridge/mcp_revit_bridge/mcp_revit_bridge/Actions/QaActions.cs:242-254 | one turn renames the target when its name changes and Revit accepts it, and counts it only then |
| Qa.RenameTargets | revit_bridge/mcp_revit_bridge/mcp_revit_bridge/Actions/QaActions.cs:238-256 | the rename loop produces exactly RenameAll's document and count |
| Qa.FixRenameViews | revit_bridge/mcp_revit_bridge/mcp_revit_bridge/Actions/QaActions.cs:228-259 | renamed and the new names are those of the rename over the targets; total is the number of targets |
| Qa.TargetView | revit_bridge/mcp_revit_bridge/mcp_revit_bridge/Actions/QaActions.cs:173-174 | the view of a per-view fix is the given id when it names a view, else the active view; otherwise "Target view not found." |
| Qa.UnhideCategories | revit_bridge/mcp_revit_bridge/mcp_revit_bridge/Actions/QaActions.cs:313-332 | each category that can be hidden and is hidden is shown and counted; all others are untouched |
| Qa.UnhideSettles | revit_bridge/mcp_revit_bridge/mcp_revit_bridge/Actions/QaActions.cs:322-326 | after unhiding no category is left to unhide |
| Qa.DeleteEach | revit_bridge/mcp_revit_bridge/mcp_revit_bridge/Actions/QaActions.cs:390-394 | each id is deleted or counted as failed, in order; the removed ids are exactly those whose deletion succeeds; deleted plus failed is the number of ids |
| Qa.FixDeleteUnusedTypes | revit_bridge/mcp_revit_bridge/mcp_revit_bridge/Actions/QaActions.cs:189-217 | every type that is not a view family type, has a category and is not a title block is attempted once; deleted plus failed is their number |
| Qa.UnusedTemplatesExact | revit_bridge/mcp_revit_bridge/mcp_revit_bridge/Actions/QaActions.cs:364-384 | a view is an unused template exactly when it is a template no non-template view uses |
| Qa.FixDeleteUnusedViewTemplates | revit_bridge/mcp_revit_bridge/mcp_revit_bridge/Actions/QaActions.cs:358-406 | templatesTotal counts all templates, unusedCandidates the unused ones, and deleted plus failed equals unusedCandidates |
| Qa.UsedFilterIdsExact | revit_bridge/mcp_revit_bridge/mcp_revit_bridge/Actions/QaActions.cs:427-439 | a filter id is used exactly when some view's filter list holds it |
| Qa.CollectUsedFilters | revit_bridge/mcp_revit_bridge/mcp_revit_bridge/Actions/QaActions.cs:427-439 | the collecting loop yields exactly the used filter ids |
| Qa.UnusedFiltersExact | revit_bridge/mcp_revit_bridge/mcp_revit_bridge/Actions/QaActions.cs:442-445 | a filter is an unused candidate exactly when no view's filter list holds it |
| Qa.FixDeleteUnusedViewFilters | revit_bridge/mcp_revit_bridge/mcp_revit_bridge/Actions/QaActions.cs:408-467 | filtersTotal counts all filters, unusedCandidates the unused ones, and deleted plus failed equals unusedCandidates |
| Docs.FirstTitleblock | revit_bridge/mcp_revit_bridge/mcp_revit_bridge/Actions/DocActions.cs:73-75 | a found title block matches the token by type name or "Family: Type" label ignoring case; none found means none matches |
| Docs.ResolveTitleblockCases | revit_bridge/mcp_revit_bridge/mcp_revit_bridge/Actions/DocActions.cs:71-92 | with a token, resolution succeeds exactly when some title block matches and then yields a matching one; without one, it succeeds exactly when there is at most one title block and yields none exactly when there are none |
| Docs.SheetById | revit_bridge/mcp_revit_bridge/mcp_revit_bridge/Actions/DocActions.cs:132-149 | a found sheet has the id; none found means no sheet has it |
| Docs.SheetNamed | revit_bridge/mcp_revit_bridge/mcp_revit_bridge/Actions/DocActions.cs:141-146 | a found sheet has the token as name or number ignoring case; none found means none does |
| Docs.FindSheetSpec | revit_bridge/mcp_revit_bridge/mcp_revit_bridge/Actions/DocActions.cs:132-149 | a positive id of an existing sheet finds it; a found sheet has the id or the name or number; with no name and no matching id nothing is found |
| Docs.SheetsCreate | revit_bridge/mcp_revit_bridge/mcp_revit_bridge/Actions/DocActions.cs:54-114 | a title block error is returned and creates nothing; a given number another sheet already holds (ignoring case) fails with Revit's exception and creates nothing; otherwise one sheet is appended with the given number and name (or Revit's defaults when blank) and the reply names the title block used; distinct sheet numbers stay distinct |
| Docs.AppendKeepsDistinct | revit_bridge/mcp_revit_bridge/mcp_revit_bridge/Actions/DocActions.cs:105 | appending a sheet whose number no sheet holds (ignoring case) keeps the sheet numbers distinct |
| Docs.HasNumber | revit_bridge/mcp_revit_bridge/mcp_revit_bridge/Actions/DocActions.cs:228-230 | the number check holds exactly when some sheet has the number ignoring case |
| Docs.BulkCounts | revit_bridge/mcp_revit_bridge/mcp_revit_bridge/Actions/DocActions.cs:217-253 | every item ends in exactly one of created, skipped or failed |
| Docs.BulkKeepsNumbersDistinct | revit_bridge/mcp_revit_bridge/mcp_revit_bridge/Actions/DocActions.cs:217-253 | bulk creation only adds sheets and never creates a second sheet with a number already taken |
| Docs.BlankNumberFails | revit_bridge/mcp_revit_bridge/mcp_revit_bridge/Actions/DocActions.cs:221-225 | an item with a blank number fails with "Missing sheet number" and changes nothing else |
| Docs.TakenNumberSkipped | revit_bridge/mcp_revit_bridge/mcp_revit_bridge/Actions/DocActions.cs:228-235 | an item whose number is taken is skipped with "Already exists" and changes nothing else |
| Docs.BulkAllHead | revit_bridge/mcp_revit_bridge/mcp_revit_bridge/Actions/DocActions.cs:217-253 | the loop handles the items one after another in order |
| Docs.CreateOne | revit_bridge/mcp_revit_bridge/mcp_revit_bridge/Actions/DocActions.cs:219-251 | one turn of the loop produces exactly the bulk step for its item |
| Docs.CreatedSheet | revit_bridge/mcp_revit_bridge/mcp_revit_bridge/Actions/DocActions.cs:237-241 | a created item appends one sheet with the item's number, its name or Revit's default name when the name is blank, and adds one entry to created |
| Docs.SheetsCreateBulk | revit_bridge/mcp_revit_bridge/mcp_revit_bridge/Actions/DocActions.cs:160-262 | a title block error creates nothing; otherwise the sheets and the created, skipped and failed lists with their counts are those of the bulk loop over the items, where a blank item name keeps Revit's default sheet name |
| Docs.SheetTargetsSpec | revit_bridge/mcp_revit_bridge/mcp_revit_bridge/Actions/DocActions.cs:355-373 | every target is an existing sheet, and every name or number that finds a sheet contributes it |
| Docs.SheetByIdFinds | revit_bridge/mcp_revit_bridge/mcp_revit_bridge/Actions/DocActions.cs:359-362 | every sheet is found by its own id |
| Docs.ResolveSheets | revit_bridge/mcp_revit_bridge/mcp_revit_bridge/Actions/DocActions.cs:355-373 | the resolving loops produce exactly the target list |
| Docs.TargetDescriptionSpec | revit_bridge/mcp_revit_bridge/mcp_revit_bridge/Actions/DocActions.cs:324-334 | a description is found exactly when a revisionName or description is given; it is not blank, and a given description wins |
| Docs.RevisionIndex | revit_bridge/mcp_revit_bridge/mcp_revit_bridge/Actions/DocActions.cs:336 | the revision found is the first whose description equals the target ignoring case; none found means none does |
| Docs.RevisionsAfterSpec | revit_bridge/mcp_revit_bridge/mcp_revit_bridge/Actions/DocActions.cs:336-351 | an existing revision is reused and no revision is added; otherwise one new revision with the target description is appended; a given date is set |
| Docs.WithRevisionSpec | revit_bridge/mcp_revit_bridge/mcp_revit_bridge/Actions/DocActions.cs:383-388 | adding a revision to a sheet is idempotent, keeps its earlier revisions, includes the new one and changes nothing else |
| Docs.AssignAll | revit_bridge/mcp_revit_bridge/mcp_revit_bridge/Actions/DocActions.cs:381-390 | assignment keeps the number of sheets |
| Docs.AssignTwice | revit_bridge/mcp_revit_bridge/mcp_revit_bridge/Actions/DocActions.cs:381-390 | assigning the same revision to the same sheets twice changes nothing more |
| Docs.AssignToSheets | revit_bridge/mcp_revit_bridge/mcp_revit_bridge/Actions/DocActions.cs:378-393 | the loop produces AssignAll's sheets and reports every target as assigned |
| Docs.SheetsAssignRevisions | revit_bridge/mcp_revit_bridge/mcp_revit_bridge/Actions/DocActions.cs:320-397 | without a description nothing changes; otherwise the revision is found or created even when no sheet resolves ("No target sheets resolved."), and it is assigned to every target sheet |
| Docs.ViewById | revit_bridge/mcp_revit_bridge/mcp_revit_bridge/Actions/DocActions.cs:297-299 | a found view has the id; none found means no view has it |
| Docs.ViewNamed | revit_bridge/mcp_revit_bridge/mcp_revit_bridge/Actions/DocActions.cs:151-156 | a found view is not a template and has the name ignoring case |
| Docs.PlaceAllSpec | revit_bridge/mcp_revit_bridge/mcp_revit_bridge/Actions/DocActions.cs:297-309 | every target is either added or skipped; added views exist and are targets |
| Docs.PlaceViews | revit_bridge/mcp_revit_bridge/mcp_revit_bridge/Actions/DocActions.cs:293-311 | the placement loop produces exactly PlaceAll's added and skipped lists |
| Docs.SheetsAddViews | revit_bridge/mcp_revit_bridge/mcp_revit_bridge/Actions/DocActions.cs:265-315 | a missing sheet and an empty target list are errors; otherwise added and skipped are those of the placement over the targets |
| Docs.ScopeBoxNamed | revit_bridge/mcp_revit_bridge/mcp_revit_bridge/Actions/DocActions.cs:410-414 | a found scope box has the name ignoring case; none found means none has it |
| Docs.ScopeAll | revit_bridge/mcp_revit_bridge/mcp_revit_bridge/Actions/DocActions.cs:437-497 | the targets get the scope box (and the crop setting when given); other views are unchanged |
| Docs.ViewsSetScopeBox | revit_bridge/mcp_revit_bridge/mcp_revit_bridge/Actions/DocActions.cs:400-500 | a blank name is "scopeBoxName is required."; an unknown box is "Scope box '…' not found."; no targets is "No target views resolved."; otherwise the first target without an editable parameter gives "View … has no editable scope-box parameter."; an error changes nothing; otherwise every target gets the box and is reported |
| Docs.CellSpec | revit_bridge/mcp_revit_bridge/mcp_revit_bridge/Actions/DocActions.cs:551-552 | with positive cols, the cell's column is below cols and index = row*cols + column; different indices have different cells |
| Docs.Attempts | revit_bridge/mcp_revit_bridge/mcp_revit_bridge/Actions/DocActions.cs:547-569 | each schedule is tried, in order, at the grid position of its index |
| Docs.PlacementsSpec | revit_bridge/mcp_revit_bridge/mcp_revit_bridge/Actions/DocActions.cs:549-568 | every attempt is placed or failed, once; each placed id is an instance the placement returned, each failure carries its schedule's id and name and the exception's message, and with every placement succeeding nothing fails |
| Docs.PlacementsAppend | revit_bridge/mcp_revit_bridge/mcp_revit_bridge/Actions/DocActions.cs:549-568 | one more attempt adds its instance id, or its failure, at the end of the reported lists |
| Docs.PlaceSchedules | revit_bridge/mcp_revit_bridge/mcp_revit_bridge/Actions/DocActions.cs:545-571 | the loop returns exactly the new instance ids and the failures (schedule id, name and message) of Placements over the grid attempts |
| Docs.ScheduleById | revit_bridge/mcp_revit_bridge/mcp_revit_bridge/Actions/DocActions.cs:530-531 | a found schedule has the id |
| Docs.ScheduleNamed | revit_bridge/mcp_revit_bridge/mcp_revit_bridge/Actions/DocActions.cs:509-514 | a found schedule has the name ignoring case |
| Docs.SheetsAddSchedules | revit_bridge/mcp_revit_bridge/mcp_revit_bridge/Actions/DocActions.cs:516-574 | it succeeds exactly when the sheet exists and there are schedules to place; a missing sheet is "Sheet <id> not found." (or "Sheet '<name>' not found." without a positive id) and no schedules is "No schedules to place."; a success reports the sheet id, the count and list of new instance ids and the failures of the placement loop |
| Docs.BoolToInteger | revit_bridge/mcp_revit_bridge/mcp_revit_bridge/Actions/DocActions.cs:633-634 | a boolean written to an integer parameter is 1 or 0 |
| Docs.SetOnSheetSpec | revit_bridge/mcp_revit_bridge/mcp_revit_bridge/Actions/DocActions.cs:621-643 | on a sheet without an exception every entry is written or failed, and an entry naming a missing or read-only parameter fails with "Param not found or read-only" |
| Docs.SheetStep | revit_bridge/mcp_revit_bridge/mcp_revit_bridge/Actions/DocActions.cs:617-650 | a sheet is reported updated at most once, and only itself |
| Docs.SetAllSpec | revit_bridge/mcp_revit_bridge/mcp_revit_bridge/Actions/DocActions.cs:614-652 | no more sheets are updated than there are targets, and only targets |
| Docs.SetOnTargets | revit_bridge/mcp_revit_bridge/mcp_revit_bridge/Actions/DocActions.cs:612-653 | the loop produces exactly SetAll's updated sheets and failures |
| Docs.SheetsSetParamsBulk | revit_bridge/mcp_revit_bridge/mcp_revit_bridge/Actions/DocActions.cs:583-656 | no entries and no targets are errors; otherwise the report holds the updated sheets and failures of the loop |
| Graphics.FindView | revit_bridge/mcp_revit_bridge/mcp_revit_bridge/Actions/GraphicsActions.cs:129 | a found view has the id; none found means no view has it |
| Graphics.ResolveView | revit_bridge/mcp_revit_bridge/mcp_revit_bridge/Actions/GraphicsActions.cs:125-131 | without viewId the active view; with one, the view of that id, or an error exactly when none has it |
| Graphics.EnsureTemplateWritableSpec | revit_bridge/mcp_revit_bridge/mcp_revit_bridge/Actions/GraphicsActions.cs:133-141 | it fails exactly when the view has a template and forceDetach is off; otherwise the view ends without a template, and a view without one is untouched |
| Graphics.EnsureTemplateWritableTwice | revit_bridge/mcp_revit_bridge/mcp_revit_bridge/Actions/GraphicsActions.cs:133-141 | detaching twice is the same as once |
| Graphics.ScaleOfSpec | revit_bridge/mcp_revit_bridge/mcp_revit_bridge/Actions/GraphicsActions.cs:190 | the scale set is at least 1, equals the request exactly when the request is at least 1, and is idempotent |
| Graphics.SetScale | revit_bridge/mcp_revit_bridge/mcp_revit_bridge/Actions/GraphicsActions.cs:181-195 | the request succeeds exactly when Revit's View.Scale setter accepts max(1, request) for the view, and fails with the setter's exception otherwise; on success the view's scale is the request when it is at least 1 and 1 otherwise, and nothing else about the view changes |
| Graphics.LookupIff | revit_bridge/mcp_revit_bridge/mcp_revit_bridge/Actions/GraphicsActions.cs:203-209 | in a table with distinct keys, an entry's value is found exactly when the name equals its key ignoring case |
| Graphics.DetailLevelOfSpec | revit_bridge/mcp_revit_bridge/mcp_revit_bridge/Actions/GraphicsActions.cs:203-209 | coarse and fine are chosen exactly by their names ignoring case; no name, and any other name, gives medium |
| Graphics.DisciplineOfSpec | revit_bridge/mcp_revit_bridge/mcp_revit_bridge/Actions/GraphicsActions.cs:227-234 | architectural, structural and mechanical are chosen exactly by their names ignoring case; no name or any other gives coordination |
| Graphics.PhaseNamed | revit_bridge/mcp_revit_bridge/mcp_revit_bridge/Actions/GraphicsActions.cs:258-262 | a found phase has the name ignoring case; none found means none has it |
| Graphics.ChoosePhaseSpec | revit_bridge/mcp_revit_bridge/mcp_revit_bridge/Actions/GraphicsActions.cs:255-269 | with a name, it succeeds exactly when a phase has that name ignoring case; without one, it is the last phase, and fails without phases |
| Graphics.SetPhase | revit_bridge/mcp_revit_bridge/mcp_revit_bridge/Actions/GraphicsActions.cs:246-281 | the phase is set exactly when one is chosen and the parameter is settable, and then the view gets that phase |
| Graphics.DuplicateOptionOfSpec | revit_bridge/mcp_revit_bridge/mcp_revit_bridge/Actions/GraphicsActions.cs:289-292 | "with_detailing" and "as_dependent" in any case choose their options; no mode, or any other, duplicates plainly |
| Graphics.ViewsDuplicate | revit_bridge/mcp_revit_bridge/mcp_revit_bridge/Actions/GraphicsActions.cs:283-309 | the loop gives exactly Duplicates over the given ids with the chosen option: the copies in order, or the first exception of View.Duplicate |
| Graphics.DuplicateCount | revit_bridge/mcp_revit_bridge/mcp_revit_bridge/Actions/GraphicsActions.cs:298-304 | duplication succeeds exactly when every id that names a view duplicates; then there is one copy per such view, in order, no more than ids and none when no id names a view; a failure is the exception of one of those views, and no copies are reported |
| Graphics.DuplicatesFailureSticks | revit_bridge/mcp_revit_bridge/mcp_revit_bridge/Actions/GraphicsActions.cs:298-304 | once a duplication has thrown, the later ids change nothing |
| Graphics.NoSpaces | revit_bridge/mcp_revit_bridge/mcp_revit_bridge/Actions/GraphicsActions.cs:351 | removing spaces leaves no space and never lengthens |
| Graphics.NoSpacesConcat | revit_bridge/mcp_revit_bridge/mcp_revit_bridge/Actions/GraphicsActions.cs:351 | space removal distributes over concatenation |
| Graphics.NoSpacesLower | revit_bridge/mcp_revit_bridge/mcp_revit_bridge/Actions/GraphicsActions.cs:351 | space removal and lower-casing commute |
| Graphics.StyleKeyIgnoresSpaces | revit_bridge/mcp_revit_bridge/mcp_revit_bridge/Actions/GraphicsActions.cs:351 | spaces in the requested style do not change its key |
| Graphics.StyleKeyIgnoresCase | revit_bridge/mcp_revit_bridge/mcp_revit_bridge/Actions/GraphicsActions.cs:351 | letter case in the requested style does not change its key |
| Graphics.NoSpacesKeeps | revit_bridge/mcp_revit_bridge/mcp_revit_bridge/Actions/GraphicsActions.cs:351 | text without spaces is kept as it is |
| Graphics.WantedStyleIsKnown | revit_bridge/mcp_revit_bridge/mcp_revit_bridge/Actions/GraphicsActions.cs:354-369 | the wanted style is always one of the five preference names |
| Graphics.HiddenLineAlias | revit_bridge/mcp_revit_bridge/mcp_revit_bridge/Actions/GraphicsActions.cs:357 | "hiddenline" is an alias of HiddenLine |
| Graphics.WantedStyleDefault | revit_bridge/mcp_revit_bridge/mcp_revit_bridge/Actions/GraphicsActions.cs:333 | with no displayStyle the wanted style is HiddenLine |
| Graphics.FirstEqual | revit_bridge/mcp_revit_bridge/mcp_revit_bridge/Actions/GraphicsActions.cs:375-382 | a found name is available and equals the target ignoring case; none found means none does |
| Graphics.FirstPreferred | revit_bridge/mcp_revit_bridge/mcp_revit_bridge/Actions/GraphicsActions.cs:385-400 | a found name is available and equals some preferred name ignoring case; none found means no available name is preferred |
| Graphics.FinalStyleSpec | revit_bridge/mcp_revit_bridge/mcp_revit_bridge/Actions/GraphicsActions.cs:372-404 | a style is chosen exactly when some is available; it is the wanted one when available, and available[0] when neither it nor a preferred one is |
| Graphics.FindName | revit_bridge/mcp_revit_bridge/mcp_revit_bridge/Actions/GraphicsActions.cs:375-382 | the first loop finds exactly FirstEqual's name |
| Graphics.FindPreferred | revit_bridge/mcp_revit_bridge/mcp_revit_bridge/Actions/GraphicsActions.cs:385-400 | the nested preference loops find exactly FirstPreferred's name |
| Graphics.ChooseStyle | revit_bridge/mcp_revit_bridge/mcp_revit_bridge/Actions/GraphicsActions.cs:372-404 | the three steps choose exactly FinalStyle's name |
| Graphics.SetDisplayStyle | revit_bridge/mcp_revit_bridge/mcp_revit_bridge/Actions/GraphicsActions.cs:331-416 | (the detach moved into the transaction) a template error is returned; otherwise it succeeds exactly when a style is available, detaching the template and setting the final style |
| Graphics.DisplayStyleAsWritten | revit_bridge/mcp_revit_bridge/mcp_revit_bridge/Actions/GraphicsActions.cs:338-412 | as written, the action succeeds only on a view without a template; with forceDetachTemplate on a templated view it fails with Revit's outside-transaction exception; otherwise it succeeds exactly when a style is available |
| Graphics.DetachOutsideTransactionFails | revit_bridge/mcp_revit_bridge/mcp_revit_bridge/Actions/GraphicsActions.cs:338-412 | on a templated view with forceDetachTemplate and an available style, the action as written fails while the template guard and the style choice of SetDisplayStyle both succeed |
| Graphics.AsWrittenAgreesWithoutDetach | revit_bridge/mcp_revit_bridge/mcp_revit_bridge/Actions/GraphicsActions.cs:338-412 | where no template is detached, the action as written gives the template error or the styled view exactly as SetDisplayStyle does |
| Export.Sanitized | revit_bridge/mcp_revit_bridge/mcp_revit_bridge/Actions/ExportActions.cs:179-189 | the safe name has the same length, with '_' exactly where the name had an invalid file-name character and the same character elsewhere |
| Export.SafeFileName | revit_bridge/mcp_revit_bridge/mcp_revit_bridge/Actions/ExportActions.cs:179-189 | the character loop builds exactly the sanitized name |
| Export.SanitizedIsSafe | revit_bridge/mcp_revit_bridge/mcp_revit_bridge/Actions/ExportActions.cs:179-189 | a sanitized name holds no invalid character, and sanitizing is idempotent |
| Export.SanitizedKeepsSafeNames | revit_bridge/mcp_revit_bridge/mcp_revit_bridge/Actions/ExportActions.cs:179-189 | a name without invalid characters is kept as it is |
| Export.FindById | revit_bridge/mcp_revit_bridge/mcp_revit_bridge/Actions/ExportActions.cs:39 | a found view has the id; none found means no view has it |
| Export.NameMatch | revit_bridge/mcp_revit_bridge/mcp_revit_bridge/Actions/ExportActions.cs:52-53 | a found view is a non-template 3D view named so ignoring case; none found means no such view is |
| Export.AppendNewConcat | revit_bridge/mcp_revit_bridge/mcp_revit_bridge/Actions/ExportActions.cs:35-66 | collecting from two sources in turn equals collecting from both together |
| Export.CollectTargets | revit_bridge/mcp_revit_bridge/mcp_revit_bridge/Actions/ExportActions.cs:35-66 | the four collecting steps produce exactly the requested targets |
| Export.IdCandidateExportable | revit_bridge/mcp_revit_bridge/mcp_revit_bridge/Actions/ExportActions.cs:39 | an id proposes itself only when it names a non-template 3D view |
| Export.NameCandidateExportable | revit_bridge/mcp_revit_bridge/mcp_revit_bridge/Actions/ExportActions.cs:52-54 | a name proposes only a non-template 3D view |
| Export.ProposedExportable | revit_bridge/mcp_revit_bridge/mcp_revit_bridge/Actions/ExportActions.cs:35-66 | every proposed view is a non-template 3D view |
| Export.ProposedParts | revit_bridge/mcp_revit_bridge/mcp_revit_bridge/Actions/ExportActions.cs:35-66 | the proposals come from viewId, viewIds, viewName and viewNames in that order |
| Export.RequestedExportable | revit_bridge/mcp_revit_bridge/mcp_revit_bridge/Actions/ExportActions.cs:35-66 | the requested targets are non-template 3D views, none twice, and exactly the proposed ones |
| Export.RequestedViewIdFirst | revit_bridge/mcp_revit_bridge/mcp_revit_bridge/Actions/ExportActions.cs:37-40 | a valid viewId is the first target |
| Export.RequestedHasIds | revit_bridge/mcp_revit_bridge/mcp_revit_bridge/Actions/ExportActions.cs:42-48 | every valid id of viewIds is a target |
| Export.RequestedHasName | revit_bridge/mcp_revit_bridge/mcp_revit_bridge/Actions/ExportActions.cs:50-55 | the view named by viewName is a target |
| Export.RequestedHasNames | revit_bridge/mcp_revit_bridge/mcp_revit_bridge/Actions/ExportActions.cs:57-66 | every view named in viewNames is a target |
| Export.FirstExportable | revit_bridge/mcp_revit_bridge/mcp_revit_bridge/Actions/ExportActions.cs:73-75 | the fallback is a non-template 3D view; none means the document has none |
| Export.NwcTargetsSpec | revit_bridge/mcp_revit_bridge/mcp_revit_bridge/Actions/ExportActions.cs:35-78 | it fails exactly when there is no non-template 3D view; otherwise the targets are non-empty, distinct and exportable; requested targets are used as they are, else the active view when exportable |
| Export.ResolveTargets | revit_bridge/mcp_revit_bridge/mcp_revit_bridge/Actions/ExportActions.cs:35-78 | the collecting code and its fallback produce exactly NwcTargets |
| Export.BaseNameSpec | revit_bridge/mcp_revit_bridge/mcp_revit_bridge/Actions/ExportActions.cs:104-107 | with a filename the base name starts with it and is exactly it for one target; with several targets, views with different safe names get different base names; without a filename it is the safe view name |
| Export.ComputeBaseName | revit_bridge/mcp_revit_bridge/mcp_revit_bridge/Actions/ExportActions.cs:104-107 | computes exactly BaseName |
| Export.EntryOfUnfold | revit_bridge/mcp_revit_bridge/mcp_revit_bridge/Actions/ExportActions.cs:101-171 | a target's entry carries the exporter's outcome and the .nwc path, or ok=false with the error on an exception |
| Export.ExportNwc | revit_bridge/mcp_revit_bridge/mcp_revit_bridge/Actions/ExportActions.cs:18-176 | a target error is returned; otherwise count is the number of targets and there is one entry per target, in order |
| Export.NwcResultsSpec | revit_bridge/mcp_revit_bridge/mcp_revit_bridge/Actions/ExportActions.cs:99-174 | one result per target; an entry has an error exactly when the export threw, and then is not ok and has no path; otherwise its path is folder/base.nwc |
| Export.DwgDefaults | revit_bridge/mcp_revit_bridge/mcp_revit_bridge/Actions/ExportActions.cs:191-215 | name defaults to "export", folder to the desktop, views to the active one; predefined options are used exactly for a named setup that exists; the reply carries Revit's answer, the folder and the name, and an exception of the export is the action's error |
| Export.ExportPdfSpec | revit_bridge/mcp_revit_bridge/mcp_revit_bridge/Actions/ExportActions.cs:217-244 | before Revit 2022 it fails with its message; otherwise it fails exactly when the export throws, with that message, and on success the path ends with ".pdf" and ok is Revit's answer; the ids default to the active view and the name to "set" |
| Export.CombineEnds | revit_bridge/mcp_revit_bridge/mcp_revit_bridge/Actions/ExportActions.cs:227 | a combined path ends with the file name |
| Structure.FindSymbolByNameSpec | revit_bridge/mcp_revit_bridge/mcp_revit_bridge/Actions/StructureActions.cs:28-43 | a found symbol is of the category; none when the category has no symbol; a blank token takes the first; a given token finds a symbol named so or labelled "Family: Name" ignoring case, and none exactly when no symbol of the category is |
| Structure.BlankTokenTakesFirst | revit_bridge/mcp_revit_bridge/mcp_revit_bridge/Actions/StructureActions.cs:37-38 | a missing or empty token takes the first symbol of the category |
| Structure.BuildClosedProfileXY | revit_bridge/mcp_revit_bridge/mcp_revit_bridge/Actions/StructureActions.cs:45-62 | the edge loop builds exactly ClosedProfile |
| Structure.ClosedProfileSpec | revit_bridge/mcp_revit_bridge/mcp_revit_bridge/Actions/StructureActions.cs:45-62 | "Profile requires at least 3 points." exactly for a missing or short profile; a profile of 3 or more fails with NullReferenceException exactly when one of its points is null; a success has at least 3 non-degenerate edges at the given height, each an edge of the closed ring; without coincident neighbours it is the whole ring |
| Structure.TryKeys | revit_bridge/mcp_revit_bridge/mcp_revit_bridge/Actions/StructureActions.cs:90-96 | the inner loop sets the parameter exactly when its name contains a key and the set succeeds |
| Structure.TrySetOffsetByName | revit_bridge/mcp_revit_bridge/mcp_revit_bridge/Actions/StructureActions.cs:64-113 | the parameter written is OffsetTarget, and the result is true exactly when one was written |
| Structure.PreferredPass | revit_bridge/mcp_revit_bridge/mcp_revit_bridge/Actions/StructureActions.cs:84-97 | the first pass writes the first writable double parameter containing a preferred key whose set succeeds |
| Structure.FallbackPass | revit_bridge/mcp_revit_bridge/mcp_revit_bridge/Actions/StructureActions.cs:100-110 | the fallback writes the first writable double parameter named "Offset" whose set succeeds |
| Structure.OffsetTargetSpec | revit_bridge/mcp_revit_bridge/mcp_revit_bridge/Actions/StructureActions.cs:64-113 | nothing for a missing element; a written parameter is writable, has a preferred key, accepts the value, and no earlier parameter would; none written means no parameter would |
| Structure.FallbackAddsNothing | revit_bridge/mcp_revit_bridge/mcp_revit_bridge/Actions/StructureActions.cs:99-110 | the fallback pass can never write a parameter the first pass missed, since "Offset" is itself a preferred key |
| Structure.BeamCreateSpec | revit_bridge/mcp_revit_bridge/mcp_revit_bridge/Actions/StructureActions.cs:128-160 | a beam is planned exactly when the level resolves, a framing symbol is found and both end points are given; it uses that symbol and labels it "Family: Name", along a line at level elevation plus elevation_m (3 m by default); a missing symbol is "No Structural Framing FamilySymbol found."; a missing end point is the null-reference message |
| Structure.ColumnCreateSpec | revit_bridge/mcp_revit_bridge/mcp_revit_bridge/Actions/StructureActions.cs:171-205 | a column is planned exactly when the level resolves, a column symbol is found and the point is given, at level elevation plus elevation_m (0 by default); a missing symbol is "No Structural Column FamilySymbol found."; a missing point is the null-reference message |
| Structure.FoundationIsolatedSpec | revit_bridge/mcp_revit_bridge/mcp_revit_bridge/Actions/StructureActions.cs:292-328 | a footing is planned exactly when the level resolves, a foundation symbol is found and the point is given, at level elevation; a missing point is the null-reference message; a base offset is written only when given; it is pinned only when pinned is true |
| Structure.StructuralFloorSpec | revit_bridge/mcp_revit_bridge/mcp_revit_bridge/Actions/StructureActions.cs:211-246 | an unknown or missing floor type is "FloorType not found."; with the type found, a profile error (a null point giving NullReferenceException) is the action's error; a success uses the profile at level elevation and the first floor type when none is named, else one named so |
| Structure.ColumnsPlaceOnGrid | revit_bridge/mcp_revit_bridge/mcp_revit_bridge/Actions/StructureActions.cs:269-277 | whatever its arguments, it always fails with its fixed message |
| Structure.WallFoundationSpec | revit_bridge/mcp_revit_bridge/mcp_revit_bridge/Actions/StructureActions.cs:340-397 | with types, the type is the one named so ignoring case, else the first; it succeeds exactly when the wall exists, a type exists and the create API is there; an offset is written only when given and only on the first preferred parameter; without a created element the id is 0 |
| Structure.BeamSystemSpec | revit_bridge/mcp_revit_bridge/mcp_revit_bridge/Actions/StructureActions.cs:412-568 | it succeeds exactly when the level and the profile are valid and creation succeeds; a profile error, a null point giving NullReferenceException among them, is the action's error; direction X and Y are chosen exactly by those names ignoring case, otherwise the first edge's direction; the reply direction is the given text or "auto" |
| Structure.RebarCount | revit_bridge/mcp_revit_bridge/mcp_revit_bridge/Actions/StructureActions.cs:638 | the bar count is at least 1, the requested number when that is at least 1, and 1 when none or at most 1 |
| Structure.RebarSpec | revit_bridge/mcp_revit_bridge/mcp_revit_bridge/Actions/StructureActions.cs:583-654 | a plan needs a framing host with a location curve; the bar type is in the model and named so when a name is given; the bars are raised by zOffset; the layout is single exactly when the count is 1, else the fixed number, with spacing exactly when given; no bar type is "No RebarBarType found." |
| Architecture.ResolveFamilySymbolByCategorySpec | revit_bridge/mcp_revit_bridge/mcp_revit_bridge/Actions/ArchitectureActions.cs:23-43 | the chosen symbol belongs to the requested category; with a token it matches the name or "Family: Name" ignoring case and fails exactly when no symbol of the category matches; with no token it is the first symbol of the category and fails exactly when the category has none; every error starts with the caller's not-found message |
| Architecture.ResolveFamilySymbolAnySpec | revit_bridge/mcp_revit_bridge/mcp_revit_bridge/Actions/ArchitectureActions.cs:45-59 | a blank token is the "familySymbol requerido" error; otherwise the result is a symbol matching the token by name or "Family: Name", and it fails exactly when no symbol of any category matches |
| Architecture.ResolveTypeSpec | revit_bridge/mcp_revit_bridge/mcp_revit_bridge/Actions/ArchitectureActions.cs:188-200 | floor, ceiling and roof type lookup: a token picks a matching type and fails exactly when none matches; no token picks the first type and fails exactly when there are none |
| Architecture.PrecedesIrreflexive | revit_bridge/mcp_revit_bridge/mcp_revit_bridge/Actions/ArchitectureActions.cs:98-103 | the "Generic first, then by name" ordering of wall types never puts a type before itself |
| Architecture.PrecedesAsym | revit_bridge/mcp_revit_bridge/mcp_revit_bridge/Actions/ArchitectureActions.cs:98-103 | that ordering is asymmetric |
| Architecture.PrecedesThrough | revit_bridge/mcp_revit_bridge/mcp_revit_bridge/Actions/ArchitectureActions.cs:98-103 | if a precedes b and c does not, then a precedes c (the step the stable first-minimum search needs) |
| Architecture.PrecedesTrans | revit_bridge/mcp_revit_bridge/mcp_revit_bridge/Actions/ArchitectureActions.cs:98-103 | that ordering is transitive |
| Architecture.LastComesFirst | revit_bridge/mcp_revit_bridge/mcp_revit_bridge/Actions/ArchitectureActions.cs:98-103 | when the newest type precedes the current front-runner, it precedes every earlier type and nothing precedes it |
| Architecture.FirstInOrderSpec | revit_bridge/mcp_revit_bridge/mcp_revit_bridge/Actions/ArchitectureActions.cs:98-103 | the selected index is a minimum of the ordering over the prefix, and strictly before every earlier index, i.e. what a stable OrderBy/ThenBy followed by FirstOrDefault picks |
| Architecture.DefaultWallTypeSpec | revit_bridge/mcp_revit_bridge/mcp_revit_bridge/Actions/ArchitectureActions.cs:96-103 | the default wall type is absent exactly when every type is a curtain wall; otherwise it is a non-curtain type, generic if any non-curtain type is generic, and name-least among the non-curtain types of its genericity |
| Architecture.WallCreateSpec | revit_bridge/mcp_revit_bridge/mcp_revit_bridge/Actions/ArchitectureActions.cs:76-135 | wall creation succeeds exactly when the level resolves, the wall type resolves, both end points are given and differ, and the height parameter is writable; a missing end point is the null-reference message; the height is the requested one when positive and 3 m otherwise; the line lies at z = 0; an explicit type matches the token and a default type is non-curtain; the reported type is "Family: Name" |
| Architecture.FloorCreateSpec | revit_bridge/mcp_revit_bridge/mcp_revit_bridge/Actions/ArchitectureActions.cs:179-229 | floor creation succeeds exactly when the level and floor type resolve, the profile has at least 3 points, none null, and Line.CreateBound accepts every edge; the type error is passed through, the edge loop's first failure is the action's error, and with no edge refused a null point fails with NullReferenceException; the loop has one edge per point, edge i running from point i to point i+1 (the last back to point 0) at the level's elevation |
| Architecture.CeilingCreateSpec | revit_bridge/mcp_revit_bridge/mcp_revit_bridge/Actions/ArchitectureActions.cs:233-295 | a profile under 3 points is refused before execution with its own message; otherwise the ceiling is built exactly when the level and ceiling type resolve, no point is null, Line.CreateBound accepts every edge and Revit is 2022 or later; the edge loop's first failure (a null point or a refused edge) comes before the version check, and with no edge refused a null point fails with NullReferenceException; the loop lies at the level elevation plus the base offset (0 when absent), one edge per profile point |
| Architecture.RoofFootprintSpec | revit_bridge/mcp_revit_bridge/mcp_revit_bridge/Actions/ArchitectureActions.cs:723-785 | a short profile or a blank level is refused before execution, the profile check first; otherwise the roof is built exactly when the level and roof type resolve, no point is null and Line.CreateBound accepts every footprint edge; the edge loop's first failure is the action's, and with no edge refused a null point fails with NullReferenceException; the footprint has one edge per point at the level elevation; a slope is applied only when given and positive, and the requested slope is reported as given |
| Architecture.NearestUpToSpec | revit_bridge/mcp_revit_bridge/mcp_revit_bridge/Actions/ArchitectureActions.cs:395-417 | among the walls whose projection falls on the segment, the chosen one has the least distance, ties going to the earliest wall; none is chosen exactly when no wall qualifies |
| Architecture.NearestWall | revit_bridge/mcp_revit_bridge/mcp_revit_bridge/Actions/ArchitectureActions.cs:398-417 | the loop over the walls returns exactly the nearest qualifying wall defined above |
| Architecture.HostWallSpec | revit_bridge/mcp_revit_bridge/mcp_revit_bridge/Actions/ArchitectureActions.cs:377-424 | an explicit host id above 0 must exist (else error); otherwise a single selected wall wins, then the nearest on-segment wall within 2 ft of the hint, then the first wall; with no walls and no explicit id it fails |
| Architecture.Clamp01 | revit_bridge/mcp_revit_bridge/mcp_revit_bridge/Actions/ArchitectureActions.cs:440-452 | the clamp lies in [0,1], keeps values already in range and sends values below or above to the nearer bound |
| Architecture.RatioBounds | revit_bridge/mcp_revit_bridge/mcp_revit_bridge/Actions/ArchitectureActions.cs:446-450 | an offset within the wall length gives a ratio in [0,1] that scales back to the offset; offsets before or past the wall give ratios below 0 or above 1 |
| Architecture.InsertionSpec | revit_bridge/mcp_revit_bridge/mcp_revit_bridge/Actions/ArchitectureActions.cs:426-455 | an explicit point wins and is placed at z = 0 in feet; otherwise a host without a location curve is an error; alongNormalized is clamped to [0,1]; an offset becomes offset/length clamped to [0,1] when the length exceeds 1e-9, else 0.5; with neither the midpoint 0.5 is used |
| Architecture.OpeningPlaceSpec | revit_bridge/mcp_revit_bridge/mcp_revit_bridge/Actions/ArchitectureActions.cs:297-375 | a door or window is placed exactly when the level, the symbol of the door or window category, the host wall and the insertion point all resolve; the host is an explicit id when one is given; a sill offset is set only when it exceeds 1e-9 m in magnitude; the reported host id is the host's |
| Architecture.InsertByElevationCount | revit_bridge/mcp_revit_bridge/mcp_revit_bridge/Actions/ArchitectureActions.cs:468-470 | inserting a level into the elevation order adds exactly that level |
| Architecture.InsertByElevationMembers | revit_bridge/mcp_revit_bridge/mcp_revit_bridge/Actions/ArchitectureActions.cs:468-470 | the inserted list holds the new level and the old ones and nothing else |
| Architecture.InsertByElevationSorted | revit_bridge/mcp_revit_bridge/mcp_revit_bridge/Actions/ArchitectureActions.cs:468-470 | inserting into a list sorted by elevation keeps it sorted |
| Architecture.SortByElevationSpec | revit_bridge/mcp_revit_bridge/mcp_revit_bridge/Actions/ArchitectureActions.cs:468-470 | sorting levels by elevation yields a sorted permutation of the levels |
| Architecture.InsertByElevationTies | revit_bridge/mcp_revit_bridge/mcp_revit_bridge/Actions/ArchitectureActions.cs:468-470 | an inserted level goes ahead of the levels at its own elevation and moves no other level past one |
| Architecture.SortByElevationStable | revit_bridge/mcp_revit_bridge/mcp_revit_bridge/Actions/ArchitectureActions.cs:468-470 | the sort is stable: the levels at any one elevation keep their input order |
| Architecture.TargetLevelsSpec | revit_bridge/mcp_revit_bridge/mcp_revit_bridge/Actions/ArchitectureActions.cs:466-470 | with level names given, the targets are exactly the levels whose name matches one of them ignoring case; otherwise they are all levels sorted by elevation |
| Architecture.RoomsOnLevelSpec | revit_bridge/mcp_revit_bridge/mcp_revit_bridge/Actions/ArchitectureActions.cs:480-522 | with enclosed-only placement and a NewRooms2 call that returns rooms, those rooms are the level's; a failing NewRooms2 is recorded against the level; otherwise one room is placed by NewRoom, and its failure is recorded against the level |
| Architecture.PlacedRoomsConcat | revit_bridge/mcp_revit_bridge/mcp_revit_bridge/Actions/ArchitectureActions.cs:478-524 | the rooms placed over two runs of levels are the rooms of the first run followed by those of the second |
| Architecture.FailedLevelsConcat | revit_bridge/mcp_revit_bridge/mcp_revit_bridge/Actions/ArchitectureActions.cs:478-524 | likewise for the per-level failures |
| Architecture.NoFailures | revit_bridge/mcp_revit_bridge/mcp_revit_bridge/Actions/ArchitectureActions.cs:478-524 | when every Revit call succeeds no level is reported as failed |
| Architecture.FailuresBounded | revit_bridge/mcp_revit_bridge/mcp_revit_bridge/Actions/ArchitectureActions.cs:478-524 | at most one failure is recorded per level, so a failure never aborts the remaining levels |
| Architecture.PlaceRooms | revit_bridge/mcp_revit_bridge/mcp_revit_bridge/Actions/ArchitectureActions.cs:478-526 | the loop over the levels returns exactly the placed rooms and the collected per-level failures |
| Architecture.RoomsCreateSpec | revit_bridge/mcp_revit_bridge/mcp_revit_bridge/Actions/ArchitectureActions.cs:458-530 | the action fails exactly when no target level resolves (with no names given, exactly when the model has no levels); the created count is the number of rooms; there are no more failures than levels, and none when every Revit call succeeds |
| Architecture.FromRoomsAllSpec | revit_bridge/mcp_revit_bridge/mcp_revit_bridge/Actions/ArchitectureActions.cs:571-616 | one outcome per requested room id, in order, each the single-room outcome |
| Architecture.FromRoomSpec | revit_bridge/mcp_revit_bridge/mcp_revit_bridge/Actions/ArchitectureActions.cs:571-616 | a room yields a new element exactly when it exists, is placed, has area above 1e-6, has a level and has boundary loops at the chosen location, and the Revit creation succeeds at the level elevation plus the offset; an error outcome means the creation threw |
| Architecture.FromRoomsLoop | revit_bridge/mcp_revit_bridge/mcp_revit_bridge/Actions/ArchitectureActions.cs:563-618 | the loop's created list is exactly the successful outcomes and its skipped list the others, each in request order |
| Architecture.BatchSpec | revit_bridge/mcp_revit_bridge/mcp_revit_bridge/Actions/ArchitectureActions.cs:563-618 | created plus skipped equals the number of requested rooms; the counts are the list lengths; created items are all successes and skipped items none |
| Architecture.FloorsFromRoomsSpec | revit_bridge/mcp_revit_bridge/mcp_revit_bridge/Actions/ArchitectureActions.cs:533-620 | missing or empty roomIds is the "floors.from_rooms requires roomIds." error; the action succeeds exactly when ids are given and the floor type resolves, and then runs the batch over the finish boundaries at the base offset (0 when absent) |
| Architecture.CeilingsFromRoomsSpec | revit_bridge/mcp_revit_bridge/mcp_revit_bridge/Actions/ArchitectureActions.cs:623-720 | missing room ids are refused before execution; a ceiling type error is passed through; the batch runs exactly when the type resolves on Revit 2022 or later; it covers every requested room and reports the base offset as given |
| Architecture.FamilyLoadSpec | revit_bridge/mcp_revit_bridge/mcp_revit_bridge/Actions/ArchitectureActions.cs:787-806 | a blank path is refused before execution; loading succeeds exactly when Revit loads a family; overwrite defaults to true and the reply echoes the path |
| Architecture.FamilyPlaceSpec | revit_bridge/mcp_revit_bridge/mcp_revit_bridge/Actions/ArchitectureActions.cs:809-853 | a missing point is an error; a blank symbol is the "familySymbol requerido" error; on success the instance stands at the point lifted to the level elevation, with the matched symbol reported as "Family: Name" and the level's name |
| Mep.SameSizeSpec | revit_bridge/mcp_revit_bridge/mcp_revit_bridge/Actions/MepPipeConduitActions.cs:53-64 | two round connectors have the same size exactly when both radii are known and differ by at most 1e-6; otherwise width is compared only when both widths are positive, and height likewise; a connector whose size cannot be read gives "different" |
| Mep.SameSizeEquivalence | revit_bridge/mcp_revit_bridge/mcp_revit_bridge/Actions/MepPipeConduitActions.cs:53-64 | same-size is reflexive and symmetric for readable connectors of compatible shape |
| Mep.ScanRowSpec | revit_bridge/mcp_revit_bridge/mcp_revit_bridge/Actions/MepPipeConduitActions.cs:44-49 | scanning one row of b-connectors keeps the best pair as the closest seen so far, earliest on ties |
| Mep.ScanRowsSpec | revit_bridge/mcp_revit_bridge/mcp_revit_bridge/Actions/MepPipeConduitActions.cs:44-49 | scanning the rows keeps the closest pair over all rows seen so far |
| Mep.ClosestPairSpec | revit_bridge/mcp_revit_bridge/mcp_revit_bridge/Actions/MepPipeConduitActions.cs:40-51 | no pair exactly when either side is empty; otherwise the pair has the minimum squared distance over all pairs and is strictly closer than every pair that comes before it |
| Mep.FindClosestPair | revit_bridge/mcp_revit_bridge/mcp_revit_bridge/Actions/MepPipeConduitActions.cs:40-51 | the nested loop returns exactly the closest pair defined above |
| Mep.UseTransitionSpec | revit_bridge/mcp_revit_bridge/mcp_revit_bridge/Actions/MepPipeConduitActions.cs:381-382 | a "transition" mode (any case) forces a transition fitting; "auto" or no mode uses one exactly when the sizes differ; any other mode gives an elbow; the mode is compared after lower-casing |
| Mep.Require | revit_bridge/mcp_revit_bridge/mcp_revit_bridge/Actions/MepPipeConduitActions.cs:66-70 | an id resolves exactly when the element exists, and then to that element |
| Mep.PipeFittingCompat | revit_bridge/mcp_revit_bridge/mcp_revit_bridge/Actions/MepPipeConduitActions.cs:91-126 | the first overload that exists is invoked and its result returned as is: an instance, null (no fitting), or its exception, which propagates; with neither overload the helper fails with the "no disponible" message |
| Mep.ConnectErrors | revit_bridge/mcp_revit_bridge/mcp_revit_bridge/Actions/MepPipeConduitActions.cs:365-396 | a missing first or second element is reported by id, in that order; no free connector on either side is "No free connectors to connect."; with free connectors on both sides and both fittings created the connection succeeds, and any failure is the fitting helper's own error (a missing API or an exception it propagated) or a null fitting |
| Mep.ConnectJoinsClosest | revit_bridge/mcp_revit_bridge/mcp_revit_bridge/Actions/MepPipeConduitActions.cs:372-379 | the connectors joined are unconnected connectors of the two elements, at the least distance among all free pairs |
| Mep.ConnectModeSpec | revit_bridge/mcp_revit_bridge/mcp_revit_bridge/Actions/MepPipeConduitActions.cs:381-395 | the reported mode is "transition" exactly when a transition was chosen, and then the transition fitting's id is reported; otherwise it is "elbow" with the elbow fitting's id |
| Mep.TypeOrFirst | revit_bridge/mcp_revit_bridge/mcp_revit_bridge/Actions/MepPipeConduitActions.cs:187-199 | the chosen type exists exactly when there are types; a matching token wins; a blank or unmatched token falls back to the first type |
| Mep.PipeCreateSpec | revit_bridge/mcp_revit_bridge/mcp_revit_bridge/Actions/MepPipeConduitActions.cs:168-246 | a level error passes through; a named piping system that does not match, or no system at all, is "No PipingSystemType found."; otherwise no pipe type is "No PipeType found."; an unmatched pipe type falls back to the first type; the run lies at the level elevation plus the elevation (2.5 m by default) |
| Mep.ConduitCreateSpec | revit_bridge/mcp_revit_bridge/mcp_revit_bridge/Actions/MepPipeConduitActions.cs:248-313 | a level error passes through; the conduit is made exactly when conduit types exist, else "No ConduitType found."; a matching token wins; the run lies at the level elevation plus the elevation (2.4 m by default), and a diameter is set exactly when one is requested |
| Mep.CableTrayCreateSpec | revit_bridge/mcp_revit_bridge/mcp_revit_bridge/Actions/MepPipeConduitActions.cs:315-353 | a named tray type must match by name, else "No CableTrayType found."; no token takes the first type; start and end points that coincide at the run height are an error; the run lies at the level elevation plus the elevation (2.7 m by default) |
| Mep.SameShapeSettable | revit_bridge/mcp_revit_bridge/mcp_revit_bridge/Actions/MepPipeConduitActions.cs:482-499 | changing parameter values never changes which parameters can be set |
| Mep.ApplySpec | revit_bridge/mcp_revit_bridge/mcp_revit_bridge/Actions/MepPipeConduitActions.cs:482-499 | applying the requested values keeps the element's shape; the element counts as changed exactly when some requested parameter is settable; an error implies that some parameter was set; nothing else changes |
| Mep.SameShapeTrans | revit_bridge/mcp_revit_bridge/mcp_revit_bridge/Actions/MepPipeConduitActions.cs:482-499 | keeping an element's shape is transitive over several updates |
| Mep.BulkStepDoc | revit_bridge/mcp_revit_bridge/mcp_revit_bridge/Actions/MepPipeConduitActions.cs:482-498 | one bulk step keeps the set of element ids, touches only its own id, and leaves elements of another kind unchanged |
| Mep.BulkDocSpec | revit_bridge/mcp_revit_bridge/mcp_revit_bridge/Actions/MepPipeConduitActions.cs:469-500 | a bulk set keeps the document's ids and each element's shape, and leaves unrequested ids and elements of the wrong kind unchanged |
| Mep.BulkCountSpec | revit_bridge/mcp_revit_bridge/mcp_revit_bridge/Actions/MepPipeConduitActions.cs:482-499 | each requested id of the right kind lands in exactly one of updated or failed; ids of other kinds are ignored |
| Mep.BulkEntriesSpec | revit_bridge/mcp_revit_bridge/mcp_revit_bridge/Actions/MepPipeConduitActions.cs:482-499 | updated ids are requested elements of the right kind with a settable parameter; failed ids are requested elements of the right kind; a "not settable" failure carries the action's reason and means that no requested parameter was settable |
| Mep.OfKindMembers | revit_bridge/mcp_revit_bridge/mcp_revit_bridge/Actions/MepPipeConduitActions.cs:482-487 | the ids considered are exactly the requested ids naming an element of the action's kind |
| Mep.RunBulkSet | revit_bridge/mcp_revit_bridge/mcp_revit_bridge/Actions/MepPipeConduitActions.cs:478-499 | the loop over the ids returns exactly the bulk result: new document, updated ids and failures |
| Mep.SetOneAgain | revit_bridge/mcp_revit_bridge/mcp_revit_bridge/Actions/MepPipeConduitActions.cs:486-493 | setting the same parameter to the same value twice is the same as setting it once |
| Mep.SetOneDoc | revit_bridge/mcp_revit_bridge/mcp_revit_bridge/Actions/MepPipeConduitActions.cs:469-585 | after set-offset or set-diameter every requested element of the right kind holds the new value |
| Mep.SetOneEntries | revit_bridge/mcp_revit_bridge/mcp_revit_bridge/Actions/MepPipeConduitActions.cs:469-585 | a settable parameter whose set succeeds puts the id under updated; an unsettable one gives "not settable" with the reason; a set that throws gives the error under failed |
| Mep.TraySizesSettable | revit_bridge/mcp_revit_bridge/mcp_revit_bridge/Actions/MepPipeConduitActions.cs:620-636 | a cable tray counts as changed exactly when a requested width or a requested height can be set |
| Mep.CableTraySetSizeSpec | revit_bridge/mcp_revit_bridge/mcp_revit_bridge/Actions/MepPipeConduitActions.cs:599-645 | a cable tray is updated only when its width or height was settable and requested; otherwise it is failed with "Width/Height not settable" |
| Mep.FirstWanted | revit_bridge/mcp_revit_bridge/mcp_revit_bridge/Actions/MepPipeConduitActions.cs:72-89 | the index found is the first parameter whose name is wanted, double-valued and writable, and no earlier parameter qualifies |
| Mep.TrySetDoubleParamByNames | revit_bridge/mcp_revit_bridge/mcp_revit_bridge/Actions/MepPipeConduitActions.cs:72-89 | the loop over the parameters returns exactly that first qualifying parameter |
| Mep.CompatCreate | revit_bridge/mcp_revit_bridge/mcp_revit_bridge/Actions/MepPipeConduitActions.cs:129-152 | insulation is created exactly when the overload taking a thickness exists and returns an element, or only the overload without one exists and does; an exception of Create propagates with its message, and the element returned is the one Create made |
| Mep.InsulationType | revit_bridge/mcp_revit_bridge/mcp_revit_bridge/Actions/MepPipeConduitActions.cs:416-423 | the insulation type is an error exactly when the project has none ("No … in project."); a name matching ignoring case wins, otherwise the first type |
| Mep.InsulateSpec | revit_bridge/mcp_revit_bridge/mcp_revit_bridge/Actions/MepPipeConduitActions.cs:431-455 | each requested pipe of the right kind is either insulated or failed; every failure is an exception recorded against a requested pipe |
| Mep.InsulateWithoutCreate | revit_bridge/mcp_revit_bridge/mcp_revit_bridge/Actions/MepPipeConduitActions.cs:151 | when no Create overload exists nothing is created and every failure carries the "firmas soportadas" message |
| Mep.RunInsulate | revit_bridge/mcp_revit_bridge/mcp_revit_bridge/Actions/MepPipeConduitActions.cs:425-455 | the loop over the pipe ids returns exactly the insulated ids and the failures |
| Mep.AddInsulationSpec | revit_bridge/mcp_revit_bridge/mcp_revit_bridge/Actions/MepPipeConduitActions.cs:409-458 | the action fails exactly when there is no insulation type; otherwise created plus failed equals the number of requested pipes, and the reported type is one of the project's types |
| MepDuct.SystemForSpec | revit_bridge/mcp_revit_bridge/mcp_revit_bridge/Actions/MepDuctActions.cs:286-295 | the duct system is absent exactly when the project has no mechanical system type; a token matching a name or classification ignoring case wins; a blank or unmatched token falls back to the first system |
| MepDuct.DuctCreateSpec | revit_bridge/mcp_revit_bridge/mcp_revit_bridge/Actions/MepDuctActions.cs:272-372 | a level error passes through; no system type, then missing start or end, then no duct type are reported in that order; the duct is made exactly when all resolve and the points differ at the run height; a diameter alone is set when given, otherwise the width and height given; the run lies at the level elevation plus the elevation (2.7 m by default) |
| MepDuct.DuctFittingCompat | revit_bridge/mcp_revit_bridge/mcp_revit_bridge/Actions/MepDuctActions.cs:114-180 | the duct fitting helper succeeds exactly when the overload with the document returns an instance, or it is missing or returns null and the other overload returns one; an exception of an invoked overload propagates; otherwise it fails with the "no disponible" message |
| MepDuct.DuctConnectSpec | revit_bridge/mcp_revit_bridge/mcp_revit_bridge/Actions/MepDuctActions.cs:374-405 | with both ducts present and free connectors on each, a failure is a missing fitting API or an exception a fitting overload threw, and the connection succeeds when both factories yield a fitting |
| MepDuct.DuctAddInsulation | revit_bridge/mcp_revit_bridge/mcp_revit_bridge/Actions/MepDuctActions.cs:418-468 | the action fails exactly when there is no duct insulation type, with "No DuctInsulationType in project."; otherwise created plus failed equals the number of requested ducts |
| MepDuct.DuctAddLining | revit_bridge/mcp_revit_bridge/mcp_revit_bridge/Actions/MepDuctActions.cs:480-529 | the same for lining, with "No DuctLiningType in project." |
| MepDuct.DuctSetOffset | revit_bridge/mcp_revit_bridge/mcp_revit_bridge/Actions/MepDuctActions.cs:540-580 | each requested duct lands in exactly one of updated or failed; updated ids are requested ducts; other ids and non-duct elements are left unchanged |
| Revit.LiftAll | revit_bridge/mcp_revit_bridge/mcp_revit_bridge/Actions/ArchitectureActions.cs:208-216 | every profile point is converted from metres to feet and placed at the given height, one point per input point, in order |
| Revit.RingUpToIndex | revit_bridge/mcp_revit_bridge/mcp_revit_bridge/Actions/ArchitectureActions.cs:208-216 | after k iterations the loop holds exactly k edges, edge i running from point i to point (i+1) mod n |
| Revit.NextIndex | revit_bridge/mcp_revit_bridge/mcp_revit_bridge/Actions/ArchitectureActions.cs:211 | the successor index (i+1) mod n is i+1 except for the last point, whose successor is the first |
| Revit.RingSpec | revit_bridge/mcp_revit_bridge/mcp_revit_bridge/Actions/ArchitectureActions.cs:208-216 | a closed ring over n points has n edges; edge i starts at point i; consecutive edges chain; the last edge closes back to the first point |
| Revit.BuildLoop | revit_bridge/mcp_revit_bridge/mcp_revit_bridge/Actions/ArchitectureActions.cs:208-216 | the loop that appends one line per profile point fails exactly when LoopFault finds a failure, with its message, and otherwise every point is given and it returns exactly the closed ring over the lifted profile |
| Revit.LoopFault | revit_bridge/mcp_revit_bridge/mcp_revit_bridge/Actions/ArchitectureActions.cs:208-216 | no failure from iteration k on means every later point is given and Line.CreateBound accepts every later edge |
| Revit.LoopFaultSpec | revit_bridge/mcp_revit_bridge/mcp_revit_bridge/Actions/ArchitectureActions.cs:208-216 | the loop succeeds exactly when no point is null and Line.CreateBound accepts every edge of the closed ring; with every point given the failure is the first refused edge's; with no edge between given points refused, a null point fails with NullReferenceException |
| Revit.ProfileLoopSpec | revit_bridge/mcp_revit_bridge/mcp_revit_bridge/Actions/ArchitectureActions.cs:208-216 | a profile of n points gives n edges, edge i running from point i to point i+1 (the last back to point 0), every edge at the given height |
| Revit.FirstRefusalSpec | revit_bridge/mcp_revit_bridge/mcp_revit_bridge/Actions/ArchitectureActions.cs:208-216 | the loop is built exactly when Line.CreateBound accepts every edge; otherwise the failure is the exception of the first edge it refuses |

## Left out

- Revit API work is not modelled: element collectors, transactions, element creation and deletion, `Parameter.Set`, geometry (projection, curve evaluation, distances, bounding boxes, volumes) and the reflection-based probing of API overloads. These are calls into a foreign library. Their outcomes are function parameters, and elements are plain records.
- Networking, `HttpListener` plumbing, CORS headers, express, `node-fetch`, `AbortController`, `ExternalEvent.Raise` and async/await are I/O and concurrency. The job queue is a sequence drained in one sequential pass, and raising the external event is not modelled.
- The bridge timeout is left out. The gateway's timeout appears only as the "Bridge timeout" outcome a caller can receive.
- `Core.Units` and `UnitUtils` are foreign conversions. The model converts metres to feet at 0.3048 m per foot and takes Revit's internal quantities as given numbers.
- Floating point is not modelled: numbers are Dafny `real`. Rounding, NaN (modelled as an absent number where it matters) and infinities of C# doubles and JavaScript numbers are not reproduced.
- JSON parsing and printing (Newtonsoft, `JSON.parse`, `JSON.stringify`) are left out. `JSON.parse` is a partial-function parameter. The .NET and JavaScript regex engines are modelled only through the fixed GUID, BIP and number-with-unit patterns, which are written out by hand. The wall filter's user regex is a parameter.
- Case-insensitive comparison folds ASCII letters only. Culture-aware comparison and ordering are not modelled (`OrdinalIgnoreCase` on non-ASCII letters, `OrderBy` with the current culture).
- The MCP tool servers other than the parameter server only declare schemas and forward. They are not part of this model.
- Not modelled: `App.cs` start-up, the OpenAPI document, the gateway's literal hint table (`ACTION_HINTS`) and logging. They are static data and wiring. Hints come from a `listed` parameter.
- Qto: the floors, ceilings, railings, structural beams, columns, foundations, cable trays, conduits and structural concrete takeoffs are not modelled one by one. They repeat the walls takeoff's filter-and-accumulate pattern, which the generic `Qto.Accumulate` states. The final ordering of the output rows is not modelled.
- Qa: `FixDeleteImports` and `FixRemoveTextNotes` (one `Delete` call over the collected ids) are not modelled. In `FixUnhideAllInView`, the reflection-based unhiding of elements and the clearing of temporary hide/isolate are not modelled. Only the category unhiding is.
- Docs: the title-block list is taken in the order Revit's culture-aware `OrderBy` produces. In `SheetsSetParamsBulk` the conversions are parameters that either give a value or the message of the exception they throw, and that message is the one reported.
- Docs: in `SheetsCreateBulk`, an exception thrown after `ViewSheet.Create` leaves a sheet with Revit's default number. The model takes the whole outcome of one creation from a parameter.
- Graphics: `ApplyTemplate`, `HideImports`, `LinksHideInView` and `LinksHalftoneInView` are not modelled. Each is a single Revit call, or one call per element, with no decision rule of its own. `SetVisibility`, `ClearOverrides` and `OverrideColor` are not modelled either: each is the template guard followed by one override call per category. They detach a template before their transaction in the same way as `SetDisplayStyle` (see Findings).
- Structure: in `BeamSystemCreate`, the spacing and beam-type assignment are best effort through reflection, and any exception they raise is swallowed. Their outcome is not modelled. The reply echoes the requested spacing and the chosen beam type whether or not they were applied.
- Architecture: `LevelCreate` and `GridCreate` are not modelled. Each is one Revit creation call and an optional rename. `RailingCreate`, `StairCreate` and `RampCreate` are not modelled either: they are stubs that return a fixed "not implemented" reply.
- Mep and MepDuct: `CollectConnectors` is not modelled. An element's connectors are given in the element record, and whether a connector is connected is read from the record (`IsFreeEnd`). A connector whose size cannot be read stands for the `catch` branch of `SameSize`.
- MepDuct: `FindClosestPair`, `SameSize`, `IsFreeEnd`, `Require` and `TrySetDoubleParamByNames` in `MepDuctActions.cs` are the same code as in `MepPipeConduitActions.cs`. The duct actions use the `Mep` definitions.
- EnumParse: models `Enum.TryParse` over member names only. The .NET call also accepts a signed decimal integer, whether or not it names a member, and a comma-separated list of names combined bitwise. Such tokens parse to no category here. So `qto.families.count` applies no category filter for them and `counts.mep_electrical` falls back to its default categories, where the source filters by the category the number denotes.
- EnumParseNone: "names no member" is the only way to fail to parse here. A numeric or comma-list token that .NET parses is counted as not parsing (see EnumParse).
- TryParseBuiltInCategory: inherits the EnumParse gap for numeric and comma-list tokens.
- TryParseIff: the right-hand side speaks of member names only, so it leaves out numeric and comma-list tokens (see EnumParse).
- PrefixIsOptional: stated for tokens naming no member, with the same gap for numeric and comma-list tokens (see EnumParse).
- KeyFromGroupBy: `groupBy` is a sequence of strings, so a null entry cannot occur. In the source, indexing the parts dictionary by a null entry throws and fails the request.
- KeyObjFromGroupBy: the same gap as KeyFromGroupBy for a null `groupBy` entry.
- WallCreateSpec: Line.CreateBound can refuse end points that are not almost equal but closer than Revit's short-curve tolerance. That refusal is not modelled. The floor, ceiling and roof actions do model it, through a `LineMaker` parameter.
- BeamCreateSpec: the same gap as WallCreateSpec for the beam's line.
- ClosedProfileSpec: the same gap as WallCreateSpec for each kept edge of the profile.
- RebarSpec: the same gap as WallCreateSpec for the bar's line.
- PipeCreateSpec: the request always carries `start` and `end`. A request without one makes the source throw a NullReferenceException, and that failure is not modelled.
- ConduitCreateSpec: the same gap as PipeCreateSpec for a missing `start` or `end`.
- CableTrayCreateSpec: the same gap as PipeCreateSpec for a missing `start` or `end`.
- TargetLevelsSpec: level names are strings, so a null entry in `levelNames` cannot occur. In the source, comparing through a null entry throws and fails `rooms.create`.
- CombineEnds: states only that the combined path ends with the file name. `Path.Combine` returns a rooted file name unchanged and throws on invalid path characters, and neither is modelled.
- Mep and MepDuct: the replies of the bulk offset and size actions leave out the echo of the requested `offset_m`, and of `width_mm` and `height_mm`.
- Gateway: the replies to `/health`, `/actions` and `/openapi.json`, and Express's default HTML 404 for unknown routes, are not modelled. For a route that does not forward, `GatewayRoutes.Handle` stops at `NotForwarding` (or `Unauthorized` where the key check applies).

## Findings

| source | as written | input that shows it | evidently intended | confidence | as-written member | corrected member |
|---|---|---|---|---|---|---|
| gateway/server.js:92-106 | `manualAliases[n]` is looked up on a plain object literal, so any name inherited from `Object.prototype` counts as an alias, and the function returns that inherited member instead of a string | the action name "constructor" is normalised to the `Object` constructor function, which is not a string. The route passes it to `coerceArgsForAction` (server.js:639, 655, 671, 688). There `normalizeArgsAliases` calls `action.startsWith("qto.")` (server.js:552), which throws a TypeError. The async handler rejects before replying: the client gets no reply, and nothing is forwarded to the bridge | only the table's own keys are aliases, so "constructor" falls through to the candidate rules and comes back as a string | not executed | GatewayNames.ConstructorIsNotAName | GatewayNames.ActionNameIsAName |
| revit_bridge/mcp_revit_bridge/mcp_revit_bridge/Actions/QtoActions.cs:1127-1148 | every category token that parses is added to `cats`, with no check for duplicates, and the walk then collects elements once per list entry | the tokens "PipeFitting" and "OST_PipeFitting" parse to the same category, so each of its elements is counted twice | each category is walked once, as with the families count's `HashSet` | not executed | Qto.DuplicateCategoryCountsTwice | Qto.CountsCategories |
| revit_bridge/mcp_revit_bridge/mcp_revit_bridge/Actions/GraphicsActions.cs:338-412 | `EnsureTemplateWritable` clears the view template at line 340, before the transaction opens at line 408, and Revit refuses a model change outside a transaction | `view.set_display_style` with `forceDetachTemplate` true on a view that has a template fails with Revit's outside-transaction exception, so the flag never works | the template is detached inside the transaction, so the flag detaches it and the style is set | not executed | Graphics.DetachOutsideTransactionFails | Graphics.SetDisplayStyle |
