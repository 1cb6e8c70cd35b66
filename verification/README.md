# A verified model of a GraphQL execution core

This project models how a Go GraphQL server generator turns a parsed query into a response, and
proves properties of that model. It covers, one or more modules each:

| part | modules |
|---|---|
| queries, and lists up to later duplicates | `Query`, `Duplicates` |
| field collection: the walk as written, its meaning, reachability, the response shape | `Collector`, `FieldCollection`, `Directives`, `Flattening`, `Grouping`, `Reachability`, `ResponseShape` |
| query complexity, rewritings that keep it, and its bound on collection | `Complexity`, `ComplexityLaws`, `CustomComplexity`, `ComplexityRewriting`, `ComplexityBound` |
| execution: what a response holds, null bubbling, errors | `Execution`, `ExecutionLaws` |
| the sequential executor | `Executor`, `Sequential`, `SequentialLaws` |
| the concurrent step machine, `Dispatch` | `Interleaving`, `InterleavingData`, `Debts`, `InterleavingLaws`, `Schedules`, `Dispatch` |
| when errors depend on the schedule | `Races`, `Aliases`, `OwedErrors`, `EqualAliases` |
| the whole way from query to response text | `Height`, `Planning`, `Meaning`, `Response` |
| response paths and error paths | `Paths`, `Contexts` |
| input decoding | `InputDecoding`, `DecodedInput`, `InputDecoder` |
| the serializer, against a JSON parser | `Json`, `JsonRoundTrip`, `Serializer`, `Ids` |
| Go names | `Naming`, `WordWalker`, `NamingLaws`, `NameSplitting`, `NameCases` (word lists: `GoLexicon`) |
| the chat example's protocol | `ChatRoom`, `ChatRoomLaws`, `ChatRoomOrigins`, `ChatRoomProgress` |
| uploads written into variables | `Variables`, `Uploads`, `Numerals` |

Where the source changes state, a class or a loop does the same (`Collector`, `Complexity`,
`Executor`, `Contexts`, `InputDecoder`, `Serializer`, `WordWalker`, `Uploads`), is proved to
compute a function, and the theorems are about that function. Concurrency (`Interleaving`,
`Dispatch`, `ChatRoom`) is a machine whose steps interleave freely, and the theorems are about
every run.

Where a function is used on both sides of a theorem, what it means is said once more as a relation
over its inputs: `Directives`, `CustomComplexity`, `Meaning`, `OwedErrors`, `DecodedInput`,
`NameSplitting`, `NameCases`, `ChatRoomOrigins`, `Numerals`.

`dafny verify dfyconfig.toml` checks everything.

## What the code does that one might not expect

- A group that field collection creates from a fragment's group has the selections of that group
  appended a second time (graphql/executable_schema.go:47-50, 72-75). `Planning.PlansAgree` shows
  that no response can tell.
- "Every null at a non-null position has an error" fails in two ways. An interface value that holds
  a nil pointer becomes null without an error (codegen/interface.gotpl:7-13), and the null bubbles
  up: `ExecutionLaws.ASilentNull`. And the items of a list of scalars share the context of the
  field (codegen/type.gotpl:75-113), so however many of them are null at non-null places there is
  one error, at the path of the list, and none at theirs: `ExecutionLaws.AListHidesItsNulls`.
  `ExecutionLaws.EveryNullHasAnErrorUnlessSilent` says that there is no third way, for nulls the
  marshallers know of: a leaf that itself writes `null`, as `MarshalAny` does for a nil pointer
  (graphql/any.go:8-15), is no null to them.
- The errors of a response can depend on the order in which goroutines run, its data cannot. They do
  if and only if, at some depth, two concurrent fields of one object are such that one complains
  about a null at a path where the other leaves an error, too: `Races.ErrorsAgreeExactlyIfCalm`. That
  takes two concurrent fields of one alias, as when an alias is reached through an interface and
  through a concrete type; and given two such fields, there are resolvers that make them race:
  `Aliases.RunsAgreeExactlyIfUnlike`. `EqualAliases.AQueryRaces` is a query that does.
- A field of an interface that has no implementor costs nothing, whatever is inside it
  (complexity/complexity.go:54-66). `ComplexityLaws.NoImplementorNoCost` is an instance;
  `ComplexityLaws.FieldCostsItsChildren` gives the exact condition.
- The private Go name of a keyword gets a suffix and no longer matches the name it was made from
  (codegen/templates/templates.go:434-442): `NamingLaws.AKeywordDoesNotMatch`, with the exact
  condition in `NamingLaws.ToGoPrivateMatches`.
- IDs are quoted by the rules of Go (graphql/id.go:10-14), so an ID with a control character other
  than backspace, form feed, newline, carriage return and tab, or with a delete character, makes the
  response something that is not JSON: `Ids.IdParsesExactlyIfPlain`.
- In the chat example, a subscription whose context ends before it has been registered stays
  registered for good (example/chat/resolvers.go:137-149): `ChatRoomLaws.AnEarlyCancellation`,
  with the exact condition in `ChatRoomLaws.LeaksExactlyIfCancelledEarly`.
- There, too, a post sends while it holds the one lock. If a subscriber that it has still to send to
  never reads again and its channel is full, it never finishes, and the chat stops:
  `ChatRoomProgress.FinishesExactlyIfSilentChannelsAreEmpty`.

## Model

| member | source | states |
|---|---|---|
| `Collector.GroupedFields.GetOrCreateAndAppendField` | graphql/executable_schema.go:99-110 | finds the first group with the creator's name, alias and object definition, or appends the creator; nothing else changes |
| `Collector.GroupedFields.AppendSelections` | graphql/executable_schema.go:35-39 | updates the found group's selections in place, through the pointer returned |
| `Collector.GroupedFields.AppendChildren` | graphql/executable_schema.go:47-50 | merges a fragment's groups one by one, new ones getting their selections twice |
| `Collector.CollectWith` | graphql/executable_schema.go:26-82 | the recursive walk with one shared visited set ends, even on cyclic fragments, and yields the groups and visited fragments of the specification function |
| `Collector.CollectFieldsOf` | graphql/executable_schema.go:22-24 | the walk from an empty visited set |
| `Collector.CollectAllFields` | graphql/context_operation.go:81-95 | a duplicate-free list of exactly the names of all reachable field occurrences, whatever their type conditions, in order of first collection |
| `Grouping.MergeKey` | graphql/executable_schema.go:47-49 | after merging a child, its group holds, up to later duplicates, what it held and the child's selections once, although a new group gets them twice |
| `Grouping.MergeEffect` | graphql/executable_schema.go:72-75 | after merging, keys are the old ones and the new ones in order; every group has, up to later duplicates, the selections of both sides |
| `Grouping.CollectFieldsGroups` | graphql/executable_schema.go:29-81 | groups have pairwise distinct keys in order of first occurrence in the depth-first flattening, are led by that occurrence, and hold, up to later duplicates, their occurrences' sub-selections in order |
| `Directives.IncludedExactlyIfKept` | graphql/executable_schema.go:112-127 | a node stays iff the condition of its first @skip, if any, is not true and that of its first @include, if any, is |
| `Reachability.FlattenIsReachability` | graphql/executable_schema.go:26-82 | a field occurrence is met iff some chain of included inline fragments and spreads satisfying the filter reaches it, although a fragment is visited only once |
| `Reachability.CollectFieldsIsReachability` | graphql/executable_schema.go:26-82 | a group exists for a key iff a reachable occurrence has it, and holds a sub-selection iff a reachable occurrence with the key does |
| `Reachability.GroupsAreExact` | graphql/executable_schema.go:99-110 | said over the fields: each group is led by a reachable field, no two groups are of one name, alias and object definition, every reachable field has its group, and a group holds the sub-selections of its reachable fields and no others |
| `Reachability.EmptyFilterCollectsMost` | graphql/executable_schema.go:19-24 | an empty filter collects every group, and in it every sub-selection, that any filter collects |
| `ResponseShape.SameSelectionsSameGroups` | graphql/executable_schema.go:47-50 | selection lists equal up to later duplicates give the same keys in the same order and, per key, lists equal up to later duplicates |
| `ResponseShape.SameSelectionsSameShape` | graphql/executable_schema.go:72-75 | hence the same response shape at every depth |
| `ResponseShape.ShapeIsSpecified` | graphql/executable_schema.go:26-82 | the shape at every depth, for any types found there, is that of grouping occurrences and concatenating their sub-selections once |
| `Planning.GroupersAgree` | graphql/executable_schema.go:26-82 | group by group, collection has the leading field of the specified grouping, and its selections up to later duplicates |
| `Planning.PlansAgree` | codegen/object.gotpl:26-82 | object executors that collect as the source does execute the same fields, with the same resolver answers at every depth, as executors that group as specified |
| `Planning.NothingIsCut` | codegen/object.gotpl:26-82 | every acyclic query has a depth beyond which the plan does not change, whatever the resolvers find, so that the results below, stated for plans of any depth, are about whole responses |
| `Planning.ResponseIsSpecified` | integration/generated.go:2067-2124 | for every query, deterministic resolvers and interleaving, the data of the response is that of the specified grouping; and, if no object has two concurrent fields of one alias, its errors are those of executing the specified grouping in turn |
| `Meaning.PlanIsMeant` | codegen/object.gotpl:26-82 | at every depth the plan has one slot for each field that comes first of its name, alias and object definition, in order, called by its alias, with non-nullness, concurrency, reports and outcome of the resolver's reply at that place, and what is found there answers the sub-selections of all fields merged with it |
| `Meaning.ResponseIsMeant` | graphql/fieldset.go:52-63 | for every query, deterministic resolvers and interleaving, the data is the one and only that shows the resolvers' replies: a value under each alias, in order, null for an object with a null at a non-null field |
| `Complexity.SafeAdd` | complexity/complexity.go:87-104 | on 64-bit wrap-around: the sum cut off at maxInt for non-negative operands; a negative operand is ignored, two give 1; never negative |
| `Complexity.SelectionSetComplexityOf` | complexity/complexity.go:23-52 | the accumulator loop computes the complexity function |
| `Complexity.InterfaceFieldComplexityOf` | complexity/complexity.go:54-66 | the maximum loop computes the interface cost function |
| `ComplexityLaws.InterfaceTakesTheWorst` | complexity/complexity.go:54-66 | an interface field costs at least what the field costs on each implementor, and exactly what it costs on some |
| `ComplexityLaws.ComplexityIsSaturatedTotal` | complexity/complexity.go:23-52 | saturating at every addition is the unbounded sum of the costs saturated once |
| `ComplexityRewriting.RewritingIrrelevant` | complexity/complexity.go:23-52 | whatever the custom costs, rearranging selections and replacing spreads by inline fragments with the same body, at any depth of the query and of its fragments, does not change the complexity |
| `ComplexityRewriting.OrderIrrelevant` | complexity/complexity.go:25-50 | in particular any permutation of one selection set |
| `ComplexityRewriting.SpreadIsInline` | complexity/complexity.go:44-48 | in particular one spread replaced by an inline fragment |
| `ComplexityLaws.FieldCostsItsChildren` | complexity/complexity.go:27-42 | a field costs at least its children iff it is not on an interface without implementors, or its children cost nothing |
| `ComplexityLaws.NoImplementorNoCost` | complexity/complexity.go:54-66 | an instance where it does not |
| `ComplexityLaws.NestedCostsAtMost` | complexity/complexity.go:23-74 | whatever the custom costs, the result lies in 0..maxInt and is at least the complexity of every selection set nested at any depth |
| `ComplexityLaws.DefaultComplexityIsExact` | complexity/complexity.go:23-104 | without custom costs the wrapping computation gives min(exact unbounded complexity, maxInt) |
| `CustomComplexity.ComplexityIsWorth` | complexity/complexity.go:23-74 | for any custom costs, the complexity is min(unbounded sum, maxInt), where each field costs what the cost function says given what is inside, if that is no less, and one more than what is inside otherwise, and a field of an interface the highest of this over the implementors |
| `ComplexityBound.CollectedAtMostComplexity` | complexity/complexity.go:23-74 | the number of fields collected over the whole response shape, at all depths and for any types found, is at most the default complexity, up to saturation |
| `Executor.ResponseContext.AddError` | graphql/context_response.go:45-52 | appends an error with its own path or, if it has none, that of the context |
| `Executor.ResponseContext.HasFieldError` | graphql/context_response.go:60-77 | true iff a recorded error has exactly the path of the field context |
| `Executor.ResponseContext.GetFieldErrors` | graphql/context_response.go:80-98 | the recorded errors with exactly that path, in order |
| `Executor.WithPathIsExact` | graphql/context_response.go:80-98 | these are all of them, as often as recorded, and there are some iff `HasFieldError` |
| `Executor.EqualPath` | graphql/context_field.go:82-94 | true iff the paths are equal, element by element |
| `Executor.CallResolver` | integration/generated.go:443-446 | the errors a resolver reports itself are recorded in order at the field's path |
| `Executor.MustNotBeNullAt` | integration/generated.go:2569-2573 | complains about a null, unless the field has an error already |
| `Executor.ExecuteField` | integration/generated.go:427-460 | under a field context of its own: the data of the field, and the whole list of errors after failure, missing value or marshalled answer, whatever the aliases |
| `Executor.Fail` | codegen/field.gotpl:23-30 | a failed field records one error: a resolver's under the path of the field, that of an argument under the path it has, below the field's |
| `Executor.Marshal` | integration/generated.go:2564-2576 | data and list of errors after marshalling any answer |
| `Executor.MarshalScalars` | integration/generated.go:2629-2636 | a list of scalars keeps its null items, all of which are reported under the context of the list |
| `Executor.MarshalItems` | codegen/type.gotpl:75-113 | any other list keeps its null items; each item has a context with its index |
| `Executor.FieldSet.Execute` | codegen/object.gotpl:50-72 | stores one field's value in its slot only, and counts it if it is null and declared non-null |
| `Executor.FieldSet.Turn` | codegen/object.gotpl:36-77 | one turn of the loop executes a field or puts it off |
| `Executor.FieldSet.Dispatch` | graphql/fieldset.go:30-50 | run one after the other, the delayed fields, and no others, get their values, count, and add their errors |
| `Executor.ExecuteObject` | integration/generated.go:2067-2124 | the object's data is a record of all its fields in order, or null if any is invalid; errors come first from the fields that are not concurrent |
| `Executor.ExecuteOperation` | codegen/object.gotpl:26-82 | data and list of errors of a whole operation |
| `SequentialLaws.ScalarsComplainOnce` | codegen/type.gotpl:108-110 | going through a list of scalars, nested lists included, adds one complaint if any item is missing and none has been made, else nothing |
| `Schedules.SequentialIsOne` | integration/generated.go:2067-2124 | for every plan, the data and the list of errors of the sequential executor are those of one of the interleavings |
| `InterleavingData.StepKeepsData` | integration/generated.go:2067-2124 | no step of any goroutine, at any nesting level, changes the data to come, and every object's counter counts its invalid fields that have returned, whatever the aliases |
| `InterleavingData.RunKeepsData` | integration/generated.go:2084-2088 | nor does any run |
| `InterleavingLaws.StepMarks` | graphql/context_response.go:45-52 | whatever the plan, a step adds at most one error, at a path marked for one, and every path marked stays so or has an error: which paths have errors in the end does not depend on the schedule |
| `InterleavingLaws.StepKeeps` | integration/generated.go:2067-2124 | if the execution is calm, no step changes the multiset of errors recorded and owed, and it stays calm |
| `Races.EveryInterleaving` | graphql/context_response.go:45-77 | every interleaving that ends, ends with the data of the sequential run and, if the execution is calm, its multiset of errors; before, the errors are some of those |
| `Races.ErrorsAgreeExactlyIfCalm` | graphql/context_response.go:60-77 | for every plan: all runs that end record the same errors iff it is calm, that is, iff at no depth one of two concurrent fields of an object complains, given the errors sure to come before, at a path where the other leaves an error |
| `Aliases.OrderedRunsAgree` | graphql/fieldset.go:30-50 | if no object has two concurrent fields of one alias, every run that ends records the errors of the sequential one, whatever the resolvers do |
| `Aliases.RunsAgreeExactlyIfUnlike` | graphql/executable_schema.go:101 | for the collected fields of an object: its runs agree on the errors, whatever the resolvers find, iff no two concurrent fields have one alias |
| `Aliases.DistinctAliasesRecord` | graphql/context_response.go:45-77 | with distinct aliases, every run that ends, and the sequential one, records the errors each position owes by itself |
| `EqualAliases.TwinsRace` | graphql/executable_schema.go:101 | two runs of one execution that record one error and two |
| `EqualAliases.TwinsFromAQuery` | graphql/executable_schema.go:99-110 | that execution is planned from a query that has one alias on an interface and on a type implementing it |
| `EqualAliases.AQueryRaces` | graphql/executable_schema.go:101 | so the errors of that query depend on the schedule |
| `InterleavingData.NeverStuck` | graphql/fieldset.go:30-50 | until a task is done, some goroutine can take a step |
| `InterleavingData.EveryRunEnds` | graphql/fieldset.go:30-50 | no run takes more steps than there is work, and a run that cannot go on is done |
| `Dispatch.CallerInvariant` | graphql/fieldset.go:30-50 | every step of the calling goroutine keeps the invariant that ties the wait group, the tasks and the slots together |
| `Dispatch.TaskInvariant` | graphql/fieldset.go:41-44 | every step of a spawned task keeps it |
| `Dispatch.DispatchWritesEverySlotOnce` | graphql/fieldset.go:26-50 | the wait group counts the tasks announced and unfinished; when `Dispatch` has returned, every delayed slot was written exactly once, with its own task's result, and no other slot changed; for any number of tasks |
| `Dispatch.DispatchNeverStuck` | graphql/fieldset.go:30-50 | until `Dispatch` has returned, somebody can move |
| `Dispatch.DispatchReturns` | graphql/fieldset.go:30-50 | with n tasks no run takes more than 4n - 1 moves (n if n is 0 or 1), and it has returned iff it has taken just that many |
| `ExecutionLaws.NoNullAtNonNull` | integration/generated.go:2084-2088 | at any depth, an object is null or holds one value per field, in order, with no null at a non-null field; a list holds its items one by one, scalars as their texts |
| `ExecutionLaws.NullExactlyIfMissing` | integration/generated.go:2119-2123 | data is null iff a value is missing where only non-null fields lead up from it |
| `ExecutionLaws.EveryNullHasAnErrorUnlessSilent` | integration/generated.go:443-456 | with distinct aliases, every null at a non-null field or list item has an error at or under its path, iff no unreported interface value holding a nil pointer is at a non-null position and no item of a list of scalars is missing; the former alone, if such items go by the path of their list |
| `ExecutionLaws.ASilentNull` | codegen/interface.gotpl:7-13 | an instance of a null without any error |
| `ExecutionLaws.AListHidesItsNulls` | codegen/testserver/generated.go:13592-13606 | two null items of a list of non-null scalars: one error, at the path of the list, none at or under theirs |
| `ExecutionLaws.NoDuplicateErrors` | integration/generated.go:2569-2573 | with distinct aliases, no error is recorded twice |
| `Aliases.RecordedCount` | integration/generated.go:443-456 | with distinct aliases, every run that ends records as many errors as there are resolver reports, failures and values missing at non-null positions not reported by their resolver, where a list of scalars counts once |
| `OwedErrors.JustWhatIsOwed` | integration/generated.go:443-456 | with distinct aliases, every interleaving that ends records each error called for by a report, a failure, or a missing value at a non-null position not reported, once, at its path, and no other |
| `Response.ResponsesAgree` | graphql/fieldset.go:52-63 | any two interleavings write the same text, which parses to a tree that has the data's texts, items, and members under their aliases in order; if no object has two concurrent fields of one alias, they record the same errors |
| `Contexts.Flip` | graphql/context_field.go:57-60 | the in-place flip from the middle outwards reverses the array |
| `Contexts.ReversedAt` | graphql/context_field.go:57-60 | what reversing means, position by position |
| `Contexts.FieldContext.FlippedWalk` | graphql/context_field.go:46-63 | walking up and flipping is reading from root to leaf |
| `Contexts.FieldContext.Path` | graphql/context_field.go:46-63 | the path is the parent's path and one's own element, if any |
| `Contexts.WithFieldContext` | graphql/context_field.go:77-80 | a child's path is the current path followed by its own element; the current path stays |
| `Contexts.PathContext.FlippedWalk` | graphql/context_path.go:18-32 | the same for input paths |
| `Contexts.PathContext.Path` | graphql/context_path.go:18-41 | the field's path followed by the input path |
| `Contexts.WithPathContext` | graphql/context_path.go:51-60 | the path of the new context is the old one's with the new element appended; the old one stays |
| `Contexts.GetPath` | graphql/context_path.go:69-77 | the path under a context, whether of an input, a field or nothing |
| `Contexts.ErrorOnPath` | graphql/error.go:16-28 | an error without a path gets the context's, one with a path keeps it |
| `Contexts.ErrorOnPaths` | graphql/error.go:16-28 | of any number of wrappers the innermost fixes the path |
| `InputDecoding.UnmarshalExact` | codegen/testserver/generated.go:10074-10112 | decoding succeeds iff every leaf of the list-coerced input is accepted, and otherwise fails with a path that leads to a rejected leaf |
| `InputDecoding.ErrorPathIsExact` | codegen/testserver/generated.go:14269-14323 | decoding fails with path p + q iff q leads through fields and indices to a rejected leaf with everything before it on the way accepted |
| `InputDecoding.RejectedOnce` | codegen/testserver/generated.go:14426-14456 | there is at most one such q |
| `DecodedInput.UnmarshalDecodes` | codegen/testserver/generated.go:14269-14323 | input is decoded to x iff x is what it stands for: nil where that is allowed, what the leaf decoder makes of a leaf, one item for each item given and a single one for anything else but nil, and the known entries in order |
| `InputDecoder.WrapError` | graphql/error.go:16-25 | sets the error's path in place to that of the context, if it has none |
| `InputDecoder.UnmarshalInput` | codegen/testserver/generated.go:14317-14323 | under any context: value or error object of the decoder function at the path of the context |
| `InputDecoder.UnmarshalList` | codegen/testserver/generated.go:14269-14291 | nil is no item, a list its items, anything else a single item |
| `InputDecoder.UnmarshalSlice` | codegen/type.gotpl:16-25 | the loop stops at the first item that fails and returns its error unchanged |
| `InputDecoder.UnmarshalObject` | codegen/testserver/generated.go:10074-10112 | the loop over the map decodes known fields, each under a context with its name, and stops at the first that fails |
| `InputDecoder.UnmarshalItem` | codegen/type.gotpl:19-20 | an item is decoded under a context with its index |
| `InputDecoder.UnmarshalArgument` | codegen/args.gotpl:7-29 | an argument is decoded to the value it stands for and fails iff some leaf is rejected, with the path of the field, the name of the argument and the way to the first such leaf |
| `JsonRoundTrip.QuoteRoundTrip` | graphql/string.go:17-47 | a string quoted and escaped reads back, by the rules of section 7 of RFC 8259, as that string, whatever follows it |
| `JsonRoundTrip.NumberRoundTrip` | graphql/fieldset.go:52-63 | a written integer reads back as that integer |
| `JsonRoundTrip.RoundTrip` | graphql/fieldset.go:52-63 | every nested tree, written and parsed, is consumed whole and comes back the same, aliases in order |
| `Ids.IdParsesExactlyIfPlain` | graphql/id.go:10-14 | for every ASCII ID, the text written parses to it iff it has none of certain control characters, and is not JSON otherwise |
| `Serializer.WriteQuotedString` | graphql/string.go:17-47 | flushing runs of plain characters writes the per-character escaping |
| `Serializer.MarshalArray` | graphql/jsonw.go:37-46 | the loop writes the items between brackets, separated by commas |
| `Serializer.MarshalFieldSet` | graphql/fieldset.go:52-63 | the loop writes aliases and values between braces, in order |
| `Serializer.MarshalGQL` | graphql/jsonw.go:48-52 | each kind of value appends its text to the sink |
| `Serializer.Serialize` | graphql/fieldset.go:52-63 | the text written parses back to the tree |
| `WordWalker.ShiftDown` | codegen/templates/templates.go:368-369 | the overlapping copy closes the gap in place |
| `WordWalker.DropDelimiters` | codegen/templates/templates.go:355-369 | drops the run of delimiters after a rune, or all but its last one between two digits, and keeps the rest |
| `WordWalker.Turn` | codegen/templates/templates.go:350-402 | one turn of the loop keeps the words handed out and those to come |
| `WordWalker.Walk` | codegen/templates/templates.go:346-403 | the in-place splitter stays in bounds, ends, and hands out the words of the trimmed text with their initialism flags |
| `WordWalker.ToGoName` | codegen/templates/templates.go:285-306 | the loop builds the public name |
| `WordWalker.ToGoPrivateName` | codegen/templates/templates.go:308-336 | the loop builds the private name |
| `WordWalker.Sanitized` | codegen/templates/templates.go:435-442 | a keyword, and only a keyword, gets the suffix |
| `Naming.WordsMakeUpTheText` | codegen/templates/templates.go:346-403 | the words are non-empty and concatenate to the text with each delimiter run deleted, or cut to its last delimiter between digits |
| `NameSplitting.WordsAreCut` | codegen/templates/templates.go:346-403 | each word ends at the first place where it may: at the end, before a delimiter, between a lower-case letter and another character, after an initialism no lower-case letter follows; the next begins after the delimiters, or at the last of them between digits |
| `NameCases.ToGoCases` | codegen/templates/templates.go:285-306 | a public name is made of its words, initialisms in capitals, words of one case that hold none capitalized, others unchanged; and begins with no lower-case letter if no initialism does |
| `NameCases.ToGoPrivateCases` | codegen/templates/templates.go:308-336 | the same for a private name, which begins with no upper-case letter |
| `NamingLaws.ToGoKeepsLetters` | codegen/templates/templates.go:285-306 | the Go name has the name's characters other than delimiters, in order, up to case |
| `NamingLaws.ToGoMatches` | codegen/util.go:43-47 | the Go name of every name without spaces and dashes matches it, whatever the lists of initialisms and keywords |
| `NamingLaws.ToGoPrivateMatches` | codegen/templates/templates.go:308-336 | the private name matches iff it is no keyword before the suffix is added |
| `NamingLaws.AKeywordDoesNotMatch` | codegen/templates/templates.go:405-442 | an instance where it does not, with the source's own lists |
| `ChatRoomLaws.StepInv` | example/chat/resolvers.go:64-152 | every step keeps the invariant over rooms, lock, observers and channels, and every room object |
| `ChatRoomLaws.RoomsAreNeverReplaced` | example/chat/resolvers.go:65-77 | in every interleaving, the room object of a name is never replaced and never shared |
| `ChatRoomLaws.ObserversGetWhatIsDue` | example/chat/resolvers.go:87-93 | in every interleaving, an observer has been sent exactly the matching messages broadcast while it was registered, in lock order, but for the one being sent |
| `ChatRoomOrigins.WhatIsAskedForHappens` | example/chat/resolvers.go:64-152 | in every interleaving, each message was broadcast in the room it was asked to be posted in, and each observer registered in the room and by the name it asked for; an observer is sent, in order, just the messages broadcast while it was registered without a name or by the name of their author, but for the one being sent |
| `ChatRoomLaws.DueOnce` | example/chat/resolvers.go:87-93 | distinct messages are due at most once, and only if broadcast |
| `ChatRoomLaws.LeaksExactlyIfCancelledEarly` | example/chat/resolvers.go:134-149 | in every run, an observer outlives its removal iff the removal came before its registration |
| `ChatRoomLaws.AnEarlyCancellation` | example/chat/resolvers.go:137-149 | a run in which it does |
| `ChatRoomProgress.FinishesExactlyIfSilentChannelsAreEmpty` | example/chat/resolvers.go:87-93 | in every run, with any set of observers that never receive again, a post that is sending can finish iff the channels of those it has still to send to are empty |
| `Uploads.WriteThrough` | graphql/handler.go:107-119 | on tree-shaped variables, one write in place at the end of the path is the functional write into the nested value, and the variables stay a tree |
| `Uploads.SplitJoined` | graphql/handler.go:99 | the parts of a path have no dots, and make it up again |
| `Uploads.SplitPrefix` | graphql/handler.go:94-102 | with the prefix, the first part is "variables" and the others are the parts of the rest |
| `Numerals.PartIsExact` | graphql/handler.go:107 | a part is the index i iff it is a decimal numeral, with or without a sign, for i, within 64 bits; and the key it reads otherwise |
| `Uploads.RawParams.WriteAt` | graphql/handler.go:98-122 | the loop over the parts refuses a path through nil, changing nothing, and otherwise writes the upload at its end |
| `Uploads.RawParams.AddUpload` | graphql/handler.go:93-123 | refuses exactly the paths without the prefix, and those through nil, changing nothing, and otherwise writes the upload at the path |
| `Variables.PutGet` | graphql/handler.go:93-123 | reading the written path gives the upload |
| `Variables.PutKeeps` | graphql/handler.go:93-123 | every path apart from it reads as before |
| `Variables.PutAbove` | graphql/handler.go:107-119 | reading above it gives the old value with the upload written into it |
| `Variables.PutsCommute` | graphql/handler.go:93-123 | uploads at paths apart can be added in either order |
| `Variables.PutFailsOnNil` | graphql/handler.go:104-106 | the write fails iff a proper prefix of the path leads to nil |

## Left out

- Panics: a missing fragment, an `if` argument that does not resolve, an unknown field name and an input object that is not a map are taken as excluded by validation (`Query.Valid`, `InputDecoding.Typed`); where a total function needs a value there, it is arbitrary.
- Panic recovery: a resolver that panics is a resolver that fails; a panic inside a list's goroutine is not modelled.
- Parser nodes are compared by value, each carrying its position in the document; the source compares pointers.
- Uniqueness of response keys alone: the grouping key also has the object definition (graphql/executable_schema.go:101), so distinct aliases per object are a hypothesis (`Execution.Proper`) where errors are accounted for position by position.
- Nulling of a list because of a null item: the list functions keep the item; section 6.4.4 of the GraphQL specification is not claimed for list items.
- In the step machine a list of scalars takes a step for each missing item; marshalling the others touches nothing shared.
- Errors that resolvers give a path of their own, error presenters other than the default one, error texts and extensions.
- Executor.FieldSet.Dispatch: runs the delayed fields in turn; their concurrency is the subject of `Interleaving` and `Dispatch`.
- Executor.MarshalItems: marshals the items in turn, for the same reason.
- The counter of invalid fields is unbounded; the source's is 32 bits wide and would wrap.
- The generated functions: one generic executor and one generic decoder stand for all of them; subscriptions' streams and field directives are not modelled.
- Resolvers are functions of the object's place and the field node.
- Arguments of fields: resolved elsewhere; the complexity functions and resolvers get them as they are.
- Acyclicity of fragments, for complexity, is given by a ranking of the fragments, as is the tree shape of variables for uploads.
- `UnmarshalString` and the other scalar decoders are a parameter, as are custom complexities.
- Defaults and directives of input fields, and leaf decoders that return an error with a path of their own.
- The order in which Go ranges over a map is that of the list of entries, which is arbitrary.
- Strings are sequences of characters: bytes, invalid UTF-8 and non-ASCII case changes are not modelled; the naming methods are for ASCII names.
- The JSON parser reads what the serializer may write: no fractions, exponents or surrogate pairs.
- Leaves that write `null` themselves are leaves, not nulls, of the model.
- Response.ResponsesAgree: leaves are texts written like strings; IDs and times, which are quoted by the rules of Go, and other scalars are not among them.
- Floats and uploads as streams; integers are unbounded in the serializer.
- Uploads.RawParams.AddUpload: for variables whose shape fits the path; the source panics on an index out of range or on a key where there is a slice. Maps and slices are cells of a store, by address.
- The message log of a chat room, which is appended to outside the lock, and collisions of random ids.
- HTTP and websocket transports, configuration, binding to Go types, template rendering, introspection.
