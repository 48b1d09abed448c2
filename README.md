# yaclt grading core in Dafny

This project models the part of yaclt that runs a learner's program and
grades it.

**The evaluation web worker** (`src/workers/Engine262.ts`) has these parts:

- **The tail-expression rewrite `addJsonWrapper`.** It turns the last
  statement of a script into `JSON.stringify(...)`.
- **The node-evaluation hook.** It counts interpreter steps in `tickCounter`
  and aborts a script once `thresholdChecker` runs out.
- **The `prompt` builtin.** Through it the script reads its inputs.
- **`evaluate`.**
- **The two-phase `onmessage` reply.** Phase 1 measures steps on the
  script as written. Phase 2 extracts the value from the rewritten script.

**The exercise registry** (`src/types.tsx`) has these parts:

- the identifier registry `UniqueID`;
- labels, with `getByName`, `getSortNumber` and `isUnlocked`;
- assignments, each with:
  - constructor checks and registration in the flat list and the
    label-grouped store;
  - read-only and editable segments;
  - a one-time hash key;
  - `getAssignment`;
  - `flat`;
  - `validate`, which grades every test case and folds the outcomes into a
    `no` / `partial` / `yes` verdict.

**Modules:**

- `Wrappers`: the `Option` and `Result` types.
- `JsValues`: the JavaScript values assignment validation handles, with `typeof` and
  truthiness.
- `Text`: JavaScript `trim`, `trimEnd`, `split`, `join` and the
  `//`-comment removal of the rewrite, each with its defining properties.
- `Engine262`: the worker. The rewrite and the execution are specification
  functions with lemmas. `Worker` is a class holding the module's two
  counters. `OnNodeEvaluation`, `Execute`, `Evaluate` and `OnMessage` change
  those counters and an `InputQueue`, and each is proved equal to the
  specification.
- `Types`: `UniqueID`, `Label` and `Assignment` as classes. The module-level
  lists of `src/types.tsx` are the fields of one `Catalog` object: the
  identifier list, the label list, the flat assignment list and the store.

**The guest program.** The interpreter is foreign, so a script is modelled
only by what the worker sees of it, given by the parameter
`interp: string -> Guest`. A `Guest` is two things:

- the sequence of hook calls (`Tick`) and `prompt()` calls (`Prompt`) it
  makes;
- its completion, as a function of the values its prompts returned.

`JSON.parse`, `JSON.stringify` and `Evaluator.evaluate` are parameters.
`validate` launches its cases concurrently. That becomes a parameter `order`:
the order in which the cases complete, any permutation of the case indices.

**A `prompt()` on an empty queue.** The builtin returns
`Value(inputs.shift()!)` (`src/workers/Engine262.ts:37`). On an empty queue
this hands `undefined` to the engine's `Value` wrapper, and what that wrapper
does is not visible in the worker's code. So it is a parameter,
`x: Engine262.Exhausted`:

- `Yields(v)`: the script is handed `v` and goes on;
- `Faults(e)`: a host exception `e` leaves the realm, and `evaluate`'s
  `catch` turns it into the reported error.

Every lemma about runs, phases and replies is stated for any `x`, except where a lemma's requires names one case.

**Points of the code worth knowing:**

- **The step budget.** In `src/workers/Engine262.ts:11-13`, the checker is
  compared before it is decremented. So `threshold + 1` hook calls still
  complete, and the run aborts on call `threshold + 2`.
- **Label names the store inherits.** The store is a plain object
  (`src/types.tsx:72-74`). For a label named after an `Object.prototype`
  member, such as `constructor` or `__proto__`, the lookup at line 216 finds
  a truthy inherited member, so no group is created, and the `push` at line
  219 throws a `TypeError`. By then the identifier (line 191) and the flat
  entry (line 214) are registered. `Types.Catalog.NewAssignment` models
  this path.
- **Line joining in the rewrite.** The rewrite joins the earlier lines
  directly onto the remaining statements of the last line, with no newline
  in between (`src/workers/Engine262.ts:24`). So `"a\nb; c"` becomes
  `"ab\nJSON.stringify( c)"`. It is modelled as written and exhibited by
  `Engine262.AddJsonWrapperJoinsLines`.

## Model

| member | source | states |
|---|---|---|
| Text.TrimEnd | src/workers/Engine262.ts:23 | the model of `trimEnd`; its contract is `Text.TrimEndPrefix` |
| Text.Trim | src/workers/Engine262.ts:20 | the model of `trim`; its contract is `Text.TrimSlice`, `Text.TrimDropsOnlyWhitespace` and `Text.TrimOfTrimmed` |
| Text.TrimEndPrefix | src/workers/Engine262.ts:23 | `trimEnd` keeps a prefix, drops only whitespace and line terminators, and leaves no trailing whitespace |
| Text.TrimStartSuffix | src/workers/Engine262.ts:20 | the leading half of `trim`: keeps a suffix, drops only whitespace, and leaves no leading whitespace |
| Text.TrimSlice | src/workers/Engine262.ts:20 | `trim` keeps a contiguous slice of the text with no whitespace at either end |
| Text.TrimDropsOnlyWhitespace | src/workers/Engine262.ts:20 | everything `trim` drops, before and after that slice, is whitespace |
| Text.TrimOfTrimmed | src/workers/Engine262.ts:20 | `trim` is the identity on text with no whitespace at either end |
| Text.Join | src/workers/Engine262.ts:24 | the model of `Array.prototype.join` on strings; its contract is `Text.JoinSnoc`, `Text.SplitJoinsBack` and `Text.SplitJoin` |
| Text.JoinSnoc | src/workers/Engine262.ts:24 | `join` of pieces plus one more is the old join, the separator and the new piece |
| Text.Split | src/workers/Engine262.ts:20-22 | `split` never returns an empty list, so the `pop`s always find a last piece |
| Text.SplitJoinsBack | src/workers/Engine262.ts:20-22 | joining the pieces of `split(sep)` with the separator gives back the text |
| Text.SplitPiecesFree | src/workers/Engine262.ts:20-22 | no piece of `split(sep)` holds the separator |
| Text.SplitJoin | src/workers/Engine262.ts:20-22 | `split` inverts `join` on separator-free pieces |
| Text.SkipToLineEndSuffix | src/workers/Engine262.ts:23 | a `.*` match consumes exactly the characters before the next line terminator |
| Text.StripLineComments | src/workers/Engine262.ts:23 | the model of `replace(/\/\/.*/g, '')`; its contract is `Text.StripLineCommentsFacts`, `Text.StripLineCommentsKeepsPrefix` and `Text.StripLineCommentsSingleLine` |
| Text.StripLineCommentsFacts | src/workers/Engine262.ts:23 | `replace(/\/\/.*/g, '')` leaves no `//`, never lengthens the text, keeps the first character of text that does not start a comment, and removes a comment up to its line terminator |
| Text.StripLineCommentsKeepsPrefix | src/workers/Engine262.ts:23 | the text before the first `//` begins the result, line terminators included |
| Text.StripLineCommentsSingleLine | src/workers/Engine262.ts:23 | on one line, comment removal cuts the text at its first `//` and keeps everything before it |
| Engine262.CutLastGlues | src/workers/Engine262.ts:20-23 | the `pop`s after the two `split`s cut the text into earlier lines, other statements and a tail; glued back with the same separators they give the text, and no piece holds its separator |
| Engine262.CutOfGlue | src/workers/Engine262.ts:20-23 | cutting a glued separator-free cut gives that cut back |
| Engine262.SplitTailGlues | src/workers/Engine262.ts:20-22 | the cut the rewrite makes glues back to the trimmed script, with no separator inside a piece |
| Engine262.SplitTailUnique | src/workers/Engine262.ts:20-22 | that cut is the only separator-free cut of the trimmed script |
| Engine262.CleanExpressionFacts | src/workers/Engine262.ts:23 | the value expression holds no `//` and has no trailing whitespace |
| Engine262.AddJsonWrapper | src/workers/Engine262.ts:19-26 | the model of `addJsonWrapper`; its contract is `Engine262.AddJsonWrapperEndsWithCall`, `Engine262.AddJsonWrapperOfCut` with `Engine262.SplitTailUnique`, and the example lemmas below |
| Engine262.AddJsonWrapperEndsWithCall | src/workers/Engine262.ts:19-26 | every rewrite ends with a new line serialising the value expression |
| Engine262.AddJsonWrapperOfCut | src/workers/Engine262.ts:19-26 | for any separator-free cut of the trimmed script: the rewrite is the earlier lines joined by newlines, then the other statements joined by `;`, then the serialising statement |
| Engine262.AddJsonWrapperSingleStatement | src/workers/Engine262.ts:19-26 | a last line holding one expression is replaced by its serialisation, and the earlier lines are untouched |
| Engine262.TrailingSemicolonEmptyTail | src/workers/Engine262.ts:22-23 | a script whose trimmed text ends in `;` serialises an empty expression |
| Engine262.AddJsonWrapperJoinsLines | src/workers/Engine262.ts:24-25 | `"a\nb; c"` is rewritten to `"ab"` followed by the serialising call for ` c`: the earlier lines run into the last line |
| Engine262.Apply | src/workers/Engine262.ts:10-15 | the model of one hook call or one `prompt()` call (lines 36-38); its contract is `Engine262.RunClosedForm` |
| Engine262.Run | src/workers/Engine262.ts:10-15 | the model of a guest run under the hook, stopping at the first host exception; its contract is `Engine262.RunClosedForm`, `Engine262.RunHaltedStays` and `Engine262.RunKeepsSum` |
| Engine262.RunHaltedStays | src/workers/Engine262.ts:12-13 | once the hook has thrown, the rest of the program changes nothing |
| Engine262.RunKeepsSum | src/workers/Engine262.ts:11-12 | `tickCounter + thresholdChecker` never changes during a run: the checker has spent exactly the ticks counted |
| Engine262.RunClosedForm | src/workers/Engine262.ts:10-15 | from a checker c ≥ 0, a run completes iff it makes at most c + 1 hook calls and every `prompt()` returns. Then it has counted every call and its prompts returned the queue in order, then the empty-queue value. A stop with every prompt returning is "Threshold exceeded" after exactly c + 2 counted calls; a stop within c + 1 calls is the empty-queue fault |
| Engine262.HookAbortsOnCall | src/workers/Engine262.ts:10-15 | after a reset to threshold t, n hook calls complete iff n ≤ t + 1; an aborted run reports t + 2 ticks |
| Engine262.PromptsReadInOrder | src/workers/Engine262.ts:36-38 | k `prompt()` calls return the inputs first-in first-out, then the empty-queue value, and leave the inputs they did not take; on a faulting engine, asking past the end stops the run with the fault |
| Engine262.Evaluation | src/workers/Engine262.ts:52-78 | measuring never yields a result; a result comes only with no error; ticks lie between 0 and threshold + 2 |
| Engine262.Conclude | src/workers/Engine262.ts:64-77 | ticks are the counter at the end; a host exception becomes the error with no result; a result exists only for an extraction that completed normally and whose value `JSON.parse` turned into that result; a failing parse becomes the error with no result |
| Engine262.EvaluationBudget | src/workers/Engine262.ts:56-77 | within the budget and with every prompt returning, the ticks are the program's hook calls and the report is its throw, nothing when measuring, the parse failure, or the parsed value; past the budget the report is no result, threshold + 2 ticks and "Threshold exceeded"; an empty-queue fault within the budget is reported as the error |
| Engine262.Respond | src/workers/Engine262.ts:80-89 | the model of `onmessage`'s reply; its contract is `Engine262.RespondOverBudget`, `Engine262.RespondExhausted`, `Engine262.RespondExtracts`, and `Engine262.Worker.OnMessage` |
| Engine262.RespondOverBudget | src/workers/Engine262.ts:80-86 | a script over the default budget gets no value; with every prompt returning it gets the hook's error and the rewrite is never run |
| Engine262.RespondExhausted | src/workers/Engine262.ts:80-86 | a script asking for more inputs than given, within the budget, on an engine whose empty-queue `prompt()` throws, gets that error and no value |
| Engine262.RespondExtracts | src/workers/Engine262.ts:80-89 | when both phases complete normally and the value parses, the reply has that value, phase 1's tick count and no error; each phase reads the inputs from the start |
| Engine262.InputQueue.constructor | src/workers/Engine262.ts:82 | each phase gets its own copy of the inputs |
| Engine262.InputQueue.Shift | src/workers/Engine262.ts:37 | `shift` removes and returns the head, or returns nothing from an empty queue |
| Engine262.Worker.constructor | src/workers/Engine262.ts:49-50 | both counters start at 0 |
| Engine262.Worker.OnNodeEvaluation | src/workers/Engine262.ts:10-15 | the hook counts one tick, decrements the checker, and throws "Threshold exceeded" iff the checker was negative before the decrement |
| Engine262.Worker.Execute | src/workers/Engine262.ts:28-47 | the loop over the guest's work leaves the counters and the queue as the specification run does, and returns its completion or the host exception that stopped it: the hook's, or an empty-queue fault |
| Engine262.Worker.Evaluate | src/workers/Engine262.ts:52-78 | a non-positive threshold is refused with nothing changed; otherwise the report is the specification `Evaluation`, independent of earlier calls, the checker ends at threshold minus the reported ticks, and the queue is what the run left |
| Engine262.Worker.OnMessage | src/workers/Engine262.ts:80-89 | the posted reply is the specification `Respond` |
| Types.UuidGroups | src/types.tsx:178-184 | an accepted identifier is five hex groups of 8, 4, 4, 4 and 12 digits joined by dashes |
| Types.UuidOfGroups | src/types.tsx:178-184 | every such five-group identifier is accepted |
| Types.Rejection | src/types.tsx:178-191 | the constructor rejects, in this order, a malformed identifier, fewer than two segments, unequal input and answer counts, and an identifier already registered |
| Types.FindIndex | src/types.tsx:62-64 | `findIndex` returns the first matching index, or -1 iff nothing matches |
| Types.ReadOnlySegmentsKept | src/types.tsx:198-213 | no series of segment `set` calls changes an even-index segment |
| Types.LatestSegmentWins | src/types.tsx:198-213 | after a `set` at an odd index, that segment holds the value until the next `set` there |
| Types.CasePasses | src/types.tsx:131-137 | the model of one case's pass test; its contract is `Types.CasePassesMeaning`, `JsValues.IsObjectTypeOf` and `Types.NoCoercion` |
| Types.CasePassesMeaning | src/types.tsx:131-137 | an undefined result fails; equal values pass; two objects pass iff their serialisations match; otherwise a pass means strict equality |
| JsValues.IsObjectTypeOf | src/types.tsx:133 | the both-objects test is exactly `typeof` being `'object'`, which includes `null` and arrays |
| Types.NoCoercion | src/types.tsx:133-137 | `1` does not match `"1"`, an object does not match a number, and equal objects match |
| Types.Verdict | src/types.tsx:149 | the model of the verdict fold; its contract is `Types.VerdictMeaning` and `Types.VerdictIgnoresOrder` |
| Types.VerdictMeaning | src/types.tsx:149 | `yes` iff no case failed (also with no cases); `partial` iff some passed and some failed; `no` iff there are cases and none passed |
| Types.VerdictIgnoresOrder | src/types.tsx:126-149 | the verdict is the same whatever order the cases complete in |
| Types.FoldError | src/types.tsx:142-144 | the model of the `if (!error)` fold; its contract is `Types.FoldErrorFirstTruthy` and `Types.FoldErrorNoneTruthy` |
| Types.FoldErrorFirstTruthy | src/types.tsx:142-144 | the reported error is the first truthy error, in completion order |
| Types.FoldErrorNoneTruthy | src/types.tsx:142-144 | with no truthy error, the last error seen is reported, or `undefined` with no cases |
| Types.UniqueID.constructor | src/types.tsx:29-35 | the object carries its identifier |
| Types.Label.constructor | src/types.tsx:65-69 | the label carries its name and prerequisites |
| Types.Assignment.constructor | src/types.tsx:167-197 | an assignment starts with no hash key and verdict `no`, holding the given segments, inputs and answers |
| Types.Assignment.GetHashKey | src/types.tsx:89-94 | reading an unset hash key fails with "Hash key not set"; otherwise it returns the key |
| Types.Assignment.SetHashKey | src/types.tsx:95-101 | the key can be set once. A second set fails and changes nothing. The first set stores the key and sets the verdict to `yes` iff storage has an entry under the prefixed key; the constructor's invariant is kept |
| Types.Assignment.SetSegment | src/types.tsx:205-210 | a set at an even index fails and changes nothing; a set at an odd index changes only that segment; the constructor's invariant is kept |
| Types.Assignment.RunCases | src/types.tsx:126-148 | over the cases in completion order it records each case's pass, case 0's result and ticks, and the first truthy error |
| Types.Assignment.Validate | src/types.tsx:120-151 | the stored and returned verdict is the verdict of the cases in case order; result and ticks come from case 0; the error is the first truthy one |
| Types.Catalog.constructor | src/types.tsx:72-75 | empty registries, and an empty group map for the one language |
| Types.Catalog.NewLabel | src/types.tsx:65-69 | a new label is appended to the label list |
| Types.Catalog.NewUniqueID | src/types.tsx:29-35 | a registered identifier is refused with nothing changed; otherwise it is appended to the registry; it is the first step of `NewAssignment`, the only place the source builds a `UniqueID` |
| Types.Catalog.NewAssignment | src/types.tsx:167-222 | succeeds iff no check fails and the label name is not one the store's group map inherits. A failed check reports the first failing check's message and changes nothing. An inherited label name (`constructor`, `__proto__`, ...) fails with the `push` TypeError after the identifier and the flat entry are registered, with the store unchanged. Success registers the identifier and appends the assignment to the flat list and to its label's group, created when absent; no other group changes; the registry invariant is kept in every case |
| Types.Catalog.GetAssignment | src/types.tsx:156-162 | finds a registered assignment with the key iff one exists; otherwise "Assignment not found: " followed by the key |
| Types.Catalog.GetAssignmentUnique | src/types.tsx:156-162 | the key finds exactly the assignment registered under it |
| Types.Catalog.Flat | src/types.tsx:163-165 | the flat list has one assignment per registered identifier, in registration order |
| Types.Catalog.GetSortNumber | src/types.tsx:62-64 | the index of the first label with the name, or -1 iff there is none |
| Types.Catalog.GetByName | src/types.tsx:59-61 | the first label with the name, found iff `GetSortNumber` is not -1 |
| Types.Catalog.IsUnlocked | src/types.tsx:55-58 | the model of `isUnlocked` as written; its contract is `Types.Catalog.IsUnlockedAlwaysTrue` |
| Types.Catalog.IsUnlockedAlwaysTrue | src/types.tsx:55-58 | as written, `isUnlocked` holds for every label |
| Types.Catalog.IsUnlockedIntended | src/types.tsx:55-58 | corrected: a label is unlocked iff every registered assignment in a prerequisite label has verdict `yes` |

## Left out

- The engine262 interpreter: how it parses and evaluates the guest. A script is given by the `interp` parameter. The model sees only its hook calls, its `prompt()` calls and its completion.
- What the engine's `Value` wrapper does with the `undefined` of an empty-queue `prompt()`: the engine is not part of this model, so it is the `Exhausted` parameter. A fault is modelled as a host exception that leaves the realm; a fault the guest could catch as a JavaScript exception is not modelled.
- `JSON.parse` and `JSON.stringify` are parameters. So is `Evaluator.evaluate`: `src/Evaluator.ts` is not part of this model.
- The worker transport is not modelled: `postMessage`, message events and `structuredClone`. Each phase is given a fresh `InputQueue` instead.
- Telemetry is not modelled: the `USER_ID` fetch, `crypto.randomUUID` and writes to browser storage. Reads from browser storage are the `isStored` parameter of `SetHashKey`.
- `PASSED_ASSIGNMENTS_BEFORE_CURRENT_SESSION` is not modelled: it is never written in this file.
- The reactivity of solid-js signals and stores: segments are a sequence field and the store is a map field, so change notification is not modelled.
- The plain getters of `UniqueID`, `Label` and `Assignment` and `UniqueID.toString` are not separate members: they are field reads in the model.
- The concurrency of `validate`: cases complete in the order given by the `order` parameter, which must visit every case once. Interleaving inside a case is not modelled.
- Numbers are integers: no floating point, NaN or -0. Strict equality on primitives is therefore structural equality.
- The identifier regular expression is written out position by position, not run as a regular expression.
- Only the one language, `JavaScript / TypeScript`, exists.
- The inherited names of the store's group map are the standard `Object.prototype` members, listed in `Types.IsInheritedName`; properties added to `Object.prototype` at run time are not modelled, and the `TypeError` text is the one V8 gives.
- Engine262.Evaluation: the tick count is bounded by threshold + 2 but, for a run stopped by the hook, not pinned to it in this contract; `Engine262.EvaluationBudget` pins it.
- Engine262.RespondOverBudget: when an empty-queue fault with a falsy thrown value stops the script before the hook does, phase 1 reports no truthy error and phase 2 runs; the lemma says nothing about that reply beyond what `Engine262.Respond` computes.

## Findings

| source | as written | input that shows it | evidently intended | confidence | as-written member | corrected member |
|---|---|---|---|---|---|---|
| src/types.tsx:55-58 | a label counts as locked only by an assignment whose `passed` string is falsy, but `passed` is always `'no'`, `'partial'` or `'yes'`, all truthy | any label with a prerequisite whose assignments all have `passed === 'no'`: `isUnlocked` is `true` | unlocked only when every assignment in a prerequisite label has passed (`passed === 'yes'`) | high; not executed | Types.Catalog.IsUnlockedAlwaysTrue | Types.Catalog.IsUnlockedIntended |
