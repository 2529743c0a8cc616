# Verified model of the P2P hub's stateful core

A Dafny 4.11 model of the parts of the P2P hub whose behaviour is more than plumbing, with
proofs of what they promise. `dafny verify dfyconfig.toml` checks everything.

**Spreadsheet formulas** (`Text`, `Coords`, `Formula*`, `FunctionLaws`, `Recalc*`, `StructuralEdit`,
`EditMeaning`, `DeleteMeaning`, `Sheet*`). The lexer, the recursive-descent parser with its depth and
token limits, the printer, the evaluator, reference rewriting and the memoised recalculation with its
cycle marker. Lexemes, precedence and the value of every operator and function are stated
independently of the code (`FormulaLexemes`, `FormulaGrouping`, `FormulaLaws`, `FunctionLaws`).
Printing a parsed formula and parsing it again gives the formula back exactly under a stated condition;
recalculation gives every cell whose plain recursion ends the value of that recursion, and marks
rings; inserting rows or columns preserves meaning, cell by cell, and every written value for the
whole sheet, cyclic cells included; inserting and deleting again restores the sheet.

**Remote events** (`EventTopics`, `EventHub`, `HubObject`, `EventAdapter`, `EventDelivery`,
`EventProgress`, `EventRuns`). A hub and a subscriber over a network that loses, duplicates and
reorders frames, as steps between awaits: caps, lifetimes, exposure, fan-out loops that skip nobody,
numbering, and what the handlers see.

**Storage** (`StorageLock`, `StorageVerdicts`, `StorageHistory`, `AtomicWrite`). Tasks with program
counters in the promise chains of any number of processes, over one file and one lock file, with what
each key holds after any run; and the flushed-temporary-file replacement under crashes at any point.

**Limiters and broker** (`CompoundKeys`, `RateHistory`, `SlidingWindow`, `FixedWindow`,
`StreamHistory`, `Telemetry*`, `PeerAccess`, `TaskBroker`). Each limiter returns what a limiter with the full
history returns; the broker's calls interleave at their awaits.

**Serialisation and guards** (`Canonical*`, `ManifestSigning`, `JsonText`, `DepthScanner`,
`DepthAgreement`, `Ipc*`). Canonical JSON, against the grammar of JSON text and the order of UTF-16
code units, and manifest signatures, the nesting guards before and after parsing, and length-prefixed
framing.

**Object graphs** (`PbxGraph`, `PbxWalk`, `PbxResolve`). The explicit-stack walk and the proxy
resolver.

The imperative code is modelled by methods and classes with loops, each proved against a function
of its inputs or of the old state; what is promised is then proved of those functions. Code between
two awaits is one method or one step of a state machine.

What the run time supplies is a parameter: number formatting and reading, powers, roots, rounding,
text comparison and case mapping (`NumFormat`, `Host`, `Numerals`), the parser of an IPC payload and
the reaction of its handler (`Protocol`), the signature scheme (`Scheme`), contact and pass lookups
(`Context`), verdicts of awaited guards, and clocks. Laws that are assumed of them are predicates
named in the `requires` clauses (`NumeralLaw`, `SchemeLaw`, `NumbersRead`).

Where the code and its own documentation differ, the code is modelled, and a lemma shows the
difference with a concrete input:

- `DepthAgreement.RepeatedKeyDisagrees`: the scanner is documented never to reject valid JSON within
  the limit, but a text that repeats a key can nest deeper than the value it parses to.
- `StorageVerdicts.LiveLockIsStolen`: a live lock is documented never to be stolen, but the code reads
  the clock after it has waited for the lock's modification time, and removes the lock after another
  wait: a lock that gets its payload between these steps is removed from under its living owner.
  Mutual exclusion and what rests on it is proved of the runs in which every verdict "stale" falls on
  a lock that was left behind and that nobody else is about to remove (`StorageLock.Careful`);
  `HarmlessIff` shows that no weaker condition on a verdict will do, and `PromptIsCareful` that it is
  met when verdicts come within the stale time after the creation of the lock that was read.
- `PeerAccess.OrderMatters`: the access modes are documented as an "or", but a public mode listed
  first denies a blocked contact that a later mode would admit. `OrOfModes` says exactly when the
  order matters.
- `TelemetryGate.SweptPinchIsForgotten`: a pinch is documented to last its cooldown, but the sweep
  of idle buckets removes it. `OneErrorPerPinch` says when errors are that far apart.
- `PbxWalk.SharedIdHidesAnObject`, `StructuralEdit.LeadingZerosCollide`,
  `CompoundKeys.NulSharesBudget`, `EventRuns.EpochsInterleave`, `EventRuns.EmissionsOvertake`,
  `EventRuns.OneEmissionTwice`, `EditMeaning.PinnedReferenceChanges`: two objects under one id, two
  keys of one cell, a NUL inside a peer id, two lifetimes of one subscription, overlapping
  emissions, a subscriber that comes back during an await, and an absolute reference are where the
  corresponding guarantees stop; the lemmas beside them give the exact conditions.
- `IpcFraming.SplitIff`: fragmentation does not matter unless a handler closes the channel from
  within; then the rest of a chunk is still delivered but a later chunk is not.
- `IpcTransport.IPCSocketTransport.WrittenOnceIff`: frames are written once only as long as the
  stream never answers that it is full.

## Model

| member | source | states |
|---|---|---|
| Coords.LabelParses | plugins/calc/src/formula.ts:93-114 | the label of any in-bounds coordinate parses back to it and is canonical |
| Coords.CanonicalLabelParses | plugins/calc/src/formula.ts:93-114 | every canonical label (upper-case letters, no leading zero) is the label of the in-bounds coordinate it parses to |
| Coords.LabelFixpoint | plugins/calc/src/formula.ts:93-114 | parse-then-print reproduces a label exactly when it is canonical |
| Coords.LabelInjective | plugins/calc/src/formula.ts:105-114 | different in-bounds coordinates have different labels |
| Coords.ColumnLetters | plugins/calc/src/formula.ts:105-114 | the base-26 loop ends and builds the label whose parse is the coordinate |
| Coords.ParseLabel | plugins/calc/src/formula.ts:93-103 | the letter loop computes the bijective base-26 value; text that is not letters then digits gives nothing |
| Coords.ExpandRange | plugins/calc/src/formula.ts:121-151 | expands corners in any order to the row-major labels of their rectangle, and to nothing when malformed or over the limit |
| Coords.RangeMeans | plugins/calc/src/formula.ts:129-151 | a range is the rectangle between its corners, whichever way round they are given, and nothing when that has over a million cells |
| Coords.RangeAt | plugins/calc/src/formula.ts:129-151 | and its cells come row by row from the top left, as labels |
| Coords.GridAt | plugins/calc/src/formula.ts:129-151 | cell (c, r) of a rectangle is at index (r - r0) * width + (c - c0) of its expansion |
| Coords.GridSize | plugins/calc/src/formula.ts:129-151 | a rectangle expands to height times width cells |
| FormulaLexer.Tokenize | plugins/calc/src/formula.ts:254-359 | the scanning loop yields exactly the tokens of the recursive specification, ending with the end mark, or fails with it |
| FormulaLexemes.LongestAre | plugins/calc/src/formula.ts:286-300 | the lexer takes the longest numeral and the longest reference at the front, as a grammar spells them: digits, fraction, exponent; letters and digits behind dollar signs, and a second reference behind a colon |
| FormulaLexemes.ScansQuoted | plugins/calc/src/formula.ts:271-284 | a quoted text reaches to the first quote of its own kind and has no escapes; without one it fails |
| FormulaLexemes.ScansNumeral | plugins/calc/src/formula.ts:286-300 | the longest numeral comes before the longest reference, and that before words and symbols; a reference loses its spaces |
| FormulaLexemes.ScansWord | plugins/calc/src/formula.ts:302-321 | a word is a truth value in any case, a function in upper case when a parenthesis follows after spaces, else a name |
| FormulaLexemes.ScansSymbol | plugins/calc/src/formula.ts:323-355 | each symbol is its own token, the two-character operators first; any other character fails |
| FormulaParser.Parser.Parse | plugins/calc/src/formula.ts:365-545 | the cursor-and-depth parser returns exactly the expression of the grammar functions, which group as `LeanReparse` says, and rejects left-over tokens |
| FormulaParser.Parser.ParseBinary | plugins/calc/src/formula.ts:408-456 | left-associative binary levels, whose grouping `LeanReparse` and `TwoOperators` state; the nesting depth is restored on return |
| FormulaParser.Parser.ParsePowerLevel | plugins/calc/src/formula.ts:458-466 | right-associative power, one nesting level for its right side |
| FormulaParser.Parser.ParseFunction | plugins/calc/src/formula.ts:489-534 | a function call with its argument list, one nesting level per argument |
| FormulaParser.ParseFormula | plugins/calc/src/formula.ts:574-580 | no formula, syntax error or expression, as trimming, the equals sign, the lexer and the parser decide |
| FormulaGrouping.LeanReparse | plugins/calc/src/formula.ts:402-487 | an expression written with only the parentheses that precedence and associativity ask for (comparison, `&`, `+ -`, `* /`, `^` to the right, sign, percent) parses back to it exactly when it nests within 100 levels |
| FormulaGrouping.TwoOperators | plugins/calc/src/formula.ts:429-466 | of two operators between three operands the second takes the middle operand exactly when it binds tighter in that table or both are `^` |
| FormulaReparse.TokensReparse | plugins/calc/src/formula.ts:365-545 | the tokens of a printed expression parse back to it exactly when its printed nesting cost is within the limit |
| FormulaRelex.PrintLexes | plugins/calc/src/formula.ts:254-359 | the printed text of an escape-free expression is lexed into exactly its tokens, whatever delimited text follows |
| FormulaSound.ParsedIsShaped | plugins/calc/src/formula.ts:365-580 | everything the parser returns is in the printer's domain: coordinate text, upper-case names, plus or minus as unary operators |
| FormulaSound.ParsedStrings | plugins/calc/src/formula.ts:365-545 | the strings of a parsed expression are a prefix of the string tokens, in order |
| FormulaRoundTrip.QuotedIsMisread | plugins/calc/src/formula.ts:271-284 | a string that needs an escape is never lexed back as itself |
| FormulaRoundTrip.RoundTrip | plugins/calc/src/formula.ts:899-934 | parsing "=" and the printed form gives the expression back if and only if no string needs an escape and the printed form is within 100 levels and 1000 tokens |
| FormulaRoundTrip.ParsedRoundTrip | plugins/calc/src/formula.ts:574-580 | the same for every expression the parser produces from finite numerals |
| FormulaLaws.Arithmetic | plugins/calc/src/formula.ts:732-754 | of operands that count as numbers (blanks as zero, truth values as one and zero, texts as the number they spell) each operator gives its sum, difference, product, quotient or power, and division by zero `#DIV/0!` |
| FormulaLaws.ErrorsSpread | plugins/calc/src/formula.ts:830-842 | an error of the left operand comes before one of the right, a text that is no number is `#VALUE!` |
| FormulaLaws.NumberComparisons | plugins/calc/src/formula.ts:756-778 | comparisons of what counts as numbers are of the numbers |
| FormulaLaws.TextComparisons | plugins/calc/src/formula.ts:779-795 | all other comparisons are of the texts, by the order of the host |
| FormulaLaws.SumLaws | plugins/calc/src/formula.ts:830-842 | subtraction takes back addition, zero adds nothing, the order of summands does not matter |
| FormulaLaws.ProductLaws | plugins/calc/src/formula.ts:830-842 | one multiplies by nothing and products distribute over sums |
| FormulaLaws.QuotientLaws | plugins/calc/src/formula.ts:830-842 | a quotient times its divisor is the dividend, and zero divides nothing |
| FormulaLaws.OrderLaws | plugins/calc/src/formula.ts:756-778 | exactly one of `<`, `=`, `>` is TRUE and the other three are their negations; `<` is irreflexive and stays under adding |
| FormulaLaws.SignLaws | plugins/calc/src/formula.ts:820-829 | a number and its negative add up to zero; a hundred times a percentage is the number |
| FunctionLaws.Conditional | plugins/calc/src/formula.ts:635-640 | IF evaluates to its second argument on a true condition and to its third, or nothing, on a false one |
| FunctionLaws.Remainder | plugins/calc/src/formula.ts:664-671 | MOD differs from the dividend by a whole multiple of the divisor and lies between zero and it; nothing is left over by zero |
| FunctionLaws.WrongArguments | plugins/calc/src/formula.ts:627-701 | a wrong number of arguments is `#VALUE!`, an unknown name `#NAME?` |
| FunctionLaws.RangeIsItsCells | plugins/calc/src/formula.ts:590-620 | a range among the arguments of an aggregate or a concatenation stands for its cells, row by row |
| FunctionLaws.FirstErrorWins | plugins/calc/src/formula.ts:601-606 | an aggregate of values with errors is the first of them |
| FunctionLaws.SumSplit | plugins/calc/src/formula.ts:717-718 | the sum of a list that is split is the sum of the sums |
| FunctionLaws.Counting | plugins/calc/src/formula.ts:707-712 | COUNT is the number of numbers, COUNTA that of values neither blank nor empty |
| FunctionLaws.Average | plugins/calc/src/formula.ts:719-722 | the average times the count is the sum; there is none of no numbers |
| FunctionLaws.Extremes | plugins/calc/src/formula.ts:723-726 | MIN and MAX are among the numbers and bound them all; of no numbers they are zero |
| FunctionLaws.JoinLaws | plugins/calc/src/formula.ts:672-675 | joining a list that is split is joining the parts, and joining one value its text |
| Recalc.EvalExtends | plugins/calc/src/formula.ts:799-858 | evaluation does not depend on references it does not consult: a resolver that agrees where the other is defined gives the same value |
| Recalc.MeaningStable | plugins/calc/src/index.ts:233-270 | once the plain recursion of a cell ends at some depth, its value is the same at every greater depth |
| RecalcSound.ResolveOk | plugins/calc/src/index.ts:233-270 | resolving under any memo and any cells being visited returns the plain recursive value when that recursion ends, and keeps the memo truthful |
| RecalcSound.EvaluateOk | plugins/calc/src/formula.ts:806-858 | memo-threaded evaluation of an expression equals its plain evaluation when that ends |
| RecalcSound.RevisitedNeverEnds | plugins/calc/src/index.ts:236-236 | a cell met again while it is being visited has no recursive value, so the marker never replaces one |
| RecalcSound.RecalculatedIsMeaning | plugins/calc/src/index.ts:229-293 | whatever the order of keys, every listed formula cell whose recursion ends is written exactly the value of that recursion |
| RecalcSound.ReferenceMeans | plugins/calc/src/index.ts:233-270 | a reference stands for nothing where there is no cell, for the stored value where there is no formula, for the value of the formula where it parses and is no AI call, and for nothing otherwise |
| RecalcSound.RecalculatedCells | plugins/calc/src/index.ts:272-292 | recalculation changes no formula and no cell but listed ones with a formula; AI calls stay, a formula that does not parse becomes `#SYNTAX!` |
| RecalcSound.RecalculateTwice | plugins/calc/src/index.ts:229-293 | recalculating again in the same order changes nothing, cyclic cells included |
| RecalcCycles.AcyclicIsMeaning | plugins/calc/src/index.ts:229-293 | every listed formula cell without a cycle among its dependencies is written the value of the plain recursion, which ends at the depth of the cell |
| RecalcCycles.RingIsMarked | plugins/calc/src/index.ts:233-270 | a reference into a ring of formulas that pass on each other's errors, through references, ranges, operators or aggregates, comes back as the cycle marker, whatever was evaluated before |
| RecalcCycles.RingIsWritten | plugins/calc/src/index.ts:272-292 | every listed cell of such a ring is written the cycle marker, in any order of keys |
| SheetObject.Sheet.RecalcSheet | plugins/calc/src/index.ts:229-293 | the loop over the keys leaves exactly the recalculated sheet, for every sheet, and ends |
| SheetObject.Sheet.EvaluateCell | plugins/calc/src/index.ts:272-292 | what one turn of the loop writes: a value, the syntax marker, or nothing for plain, pending and absent cells |
| SheetObject.Sheet.StructuralEdit | plugins/calc/src/index.ts:406-450 | cells, key order and sizes after an edit: moved cells, rewritten formulas, recalculated; an insertion adds its count to the stored or default size (1000 rows, 100 columns) of its own axis, a deletion takes it off |
| StructuralEdit.ShiftInjective | plugins/calc/src/formula.ts:985-1012 | shifting never maps two surviving coordinates to one |
| StructuralEdit.SurvivorsCollide | plugins/calc/src/formula.ts:944-955 | two surviving keys get one label exactly when they named one coordinate |
| StructuralEdit.LeadingZerosCollide | plugins/calc/src/formula.ts:944-955 | A1 and A01 name one cell and collide |
| StructuralEdit.SurvivesIff | plugins/calc/src/formula.ts:944-955 | at any position and for any count, a deletion removes exactly its band, and an insertion nothing but what a negative count moves in front of the sheet |
| StructuralEdit.MutateKeeps | plugins/calc/src/formula.ts:962-980 | a rewritten reference is the canonical label of the shifted target with its markers kept, or the error when the target is removed |
| StructuralEdit.ExpressionRestored | plugins/calc/src/formula.ts:861-893 | inserting and deleting the same band restores an expression, absolute references included, exactly when its references are canonical and in bounds |
| EditMeaning.RectGrows | plugins/calc/src/formula.ts:129-151 | the rectangle between two shifted corners is the shifted rectangle plus cells of the inserted band, in row-major order |
| EditMeaning.ListCallIgnoresBlanks | plugins/calc/src/formula.ts:703-730 | every aggregate has the same result with blank values left out |
| EditMeaning.RewriteKeepsMeaning | plugins/calc/src/formula.ts:861-893 | a formula rewritten for an insertion and evaluated against the shifted cells has the value the original had, ranges across the insertion included |
| EditMeaning.ReferencePreservedIff | plugins/calc/src/formula.ts:962-980 | a canonical reference keeps its meaning on every sheet if and only if it is not pinned at or behind the insertion |
| EditMeaning.RangePreservedIff | plugins/calc/src/formula.ts:129-151 | a range whose corners are followed keeps its meaning on every sheet if and only if it does not outgrow the expansion limit |
| EditMeaning.PinnedReferenceChanges | plugins/calc/src/formula.ts:962-980 | `$A$5` changes its meaning when a row is inserted above it |
| DeleteMeaning.DeletionKeepsMeaning | plugins/calc/src/formula.ts:861-893 | a formula whose references and range corners a deletion leaves alone, and whose ranges lose blank cells only, has its value when rewritten |
| DeleteMeaning.ReferenceSurvivesIff | plugins/calc/src/formula.ts:962-980 | a canonical reference keeps its meaning on every sheet under a deletion if and only if its cell is not deleted and it is not pinned behind the band |
| DeleteMeaning.RangeSurvivesIff | plugins/calc/src/formula.ts:129-151 | a range whose corners stay keeps its meaning on every sheet with blank cells in the band if and only if it does not shrink from unexpanded to expanded |
| DeleteMeaning.RangeValuesIff | plugins/calc/src/formula.ts:129-151 | on any one sheet, an expanded range whose corners stay has the same values up to blanks if and only if the deleted cells in it were blank |
| SheetEdit.CellsConserved | plugins/calc/src/index.ts:416-438 | the edited sheet is exactly the surviving cells, in order, each at its own shifted label with its own rewritten formula |
| SheetEdit.InsertKeepsAll | plugins/calc/src/index.ts:416-438 | an insertion keeps all cells |
| SheetEdit.StoredFormula | plugins/calc/src/index.ts:423-432 | the text a structural edit stores parses to the rewritten expression exactly when that expression reads back |
| SheetEdit.MeaningFollows | plugins/calc/src/index.ts:406-450 | after an insertion every cell means at its new label what it meant at the old one, at every depth of recursion |
| RecalcFollows.ValuesFollow | plugins/calc/src/index.ts:406-450 | after an insertion and its recalculation every cell has, at its new label, the value a recalculation gives it at the old one: cyclic, constant and pending cells included |
| RecalcFollows.EvaluateFollows | plugins/calc/src/formula.ts:799-858 | evaluating a rewritten expression against the moved sheet goes in step with the original, memo by memo, under any cells being visited |
| SheetEdit.SheetRestored | plugins/calc/src/index.ts:406-450 | deleting the inserted band gives back all keys in order with their own cells, formulas as the printer writes them |
| EventTopics.WildcardMatchesSegments | core/src/events/types.ts:91-108 | a wildcard topic matches itself and exactly the topics whose colon-separated segments properly extend its own |
| EventTopics.ExactMatchesItself | core/src/events/types.ts:100-108 | a topic without wildcard matches itself only |
| EventTopics.TopicWildcardIsLast | core/src/events/types.ts:87-93 | the wildcard is the last segment |
| EventTopics.TopicGrammar | core/src/events/types.ts:75-88 | a topic is one to four names joined by colons, each of letters, digits and underscores with dots and hyphens after the first character, possibly ending in the wildcard |
| EventHub.DropKeeps | core/src/events/subscription-hub.ts:478-523 | sweeping, unsubscribing and closing keep caps and numbering |
| EventHub.RegisterKeeps | core/src/events/subscription-hub.ts:411-475 | registration keeps the per-peer and per-topic caps and grants a lifetime in range |
| EventHub.SendKeeps | core/src/events/subscription-hub.ts:333-340 | numbering a frame keeps the numbers of a subscription's lifetime consecutive from 1, even when the subscription was dropped during the await |
| EventHub.NumbersFollowOrder | core/src/events/subscription-hub.ts:333-340 | within one lifetime of a subscription, frames are sent in the order of their numbers |
| HubObject.SubscriptionHub.SetExposedEvents | core/src/events/subscription-hub.ts:190-198 | the exposed set is replaced by the well-formed topics given |
| HubObject.SubscriptionHub.IsExposed | core/src/events/subscription-hub.ts:368-378 | true exactly for topics listed themselves or matched by an exposed wildcard |
| HubObject.SubscriptionHub.SweepAt | core/src/events/subscription-hub.ts:515-523 | removes exactly the expired subscriptions with their sequences |
| EventHub.ExposureShowsIff | core/src/events/subscription-hub.ts:411-437 | what is exposed shows in the answer to a subscription request exactly to other peers the gate has granted, and only for exact topics |
| HubObject.SubscriptionHub.FinishSubscribe | core/src/events/subscription-hub.ts:447-475 | caps, addressability and registration in this order, with the invariant kept |
| HubObject.SubscriptionHub.HandleUnsubscribe | core/src/events/subscription-hub.ts:478-493 | removes exactly the subscription and its sequence, or reports that there is none |
| HubObject.SubscriptionHub.BeginEmit | core/src/events/subscription-hub.ts:281-301 | nothing starts for a topic that is not exposed; otherwise the emission carries it |
| HubObject.SubscriptionHub.NextTurn | core/src/events/subscription-hub.ts:302-308 | the loop goes on with the first matching live subscription in insertion order that it has not passed |
| HubObject.SubscriptionHub.Dispatch | core/src/events/subscription-hub.ts:309-341 | one frame, numbered next, for a matching live subscription, and none when the guard or the gate refuses |
| EventAdapter.RemoteEventAdapter.HandleInboundEvent | core/src/events/remote-event-adapter.ts:180-227 | the handler runs exactly for frames of the subscribed peer, matching topic and increasing number that the gate admits |
| EventAdapter.InboundKeeps | core/src/events/remote-event-adapter.ts:180-227 | delivered events of one subscription have strictly increasing numbers, one peer and a matching topic |
| EventDelivery.CapsHold | core/src/events/subscription-hub.ts:447-475 | in every run no peer has more than 64 subscriptions, no topic more than 128, and every lifetime is within [1, 300000] ms |
| EventDelivery.OnlyExposedTopicsLeave | core/src/events/subscription-hub.ts:281-342 | in every run every frame carries an emission whose topic was exposed when it was called, for a subscription it matches |
| EventDelivery.TurnsAreLive | core/src/events/subscription-hub.ts:302-308 | in every run a turn of a fan-out loop begins for a live subscription whose topic matches the emission |
| EventDelivery.DeliveredInOrder | core/src/events/remote-event-adapter.ts:180-227 | over a network that loses, duplicates and reorders, two events of one subscription carry topic and payload of their frames, and come in sending order if and only if they come in the order of the subscription's lifetimes |
| EventDelivery.DeliveredOnce | core/src/events/subscription-hub.ts:302-341 | no emission is delivered twice, but for turns of its loop that began in two lifetimes of the subscription |
| EventDelivery.DeliveredWasEmitted | core/src/events/remote-event-adapter.ts:180-227 | every event a handler sees for the hub came with a frame of the hub for this subscription, and carries topic and payload of an emission exposed at its call |
| EventDelivery.EmissionOrderIff | core/src/events/subscription-hub.ts:302-341 | within one lifetime two events come in the order of their emissions if and only if, when the later one's frame was sent, the loop of the earlier one no longer had the subscription's turn waiting or ahead |
| EventDelivery.DeliveredInEmissionOrder | core/src/events/subscription-hub.ts:281-342 | within one lifetime events come in the order of their emissions, unless the earlier emission was still being fanned out when the later one began |
| EventProgress.NobodyIsSkipped | core/src/events/subscription-hub.ts:302-308 | in every run a subscription that is there, in date and matching from before a fan-out has come to it until it is over has had its turn, whatever subscriptions come and go meanwhile |
| EventProgress.FreshIsHandled | core/src/events/remote-event-adapter.ts:180-227 | in every run a matching frame of the hub that arrives before any of a greater number is handled with its topic, number and payload, and moves its own subscription on and no other |
| EventRuns.EpochsInterleave | core/src/events/subscription-hub.ts:478-493 | across two lifetimes the numbers start over and the order can be broken |
| EventRuns.EmissionsOvertake | core/src/events/subscription-hub.ts:302-341 | two overlapping emissions can be delivered in the opposite order |
| EventRuns.OneEmissionTwice | core/src/events/subscription-hub.ts:302-341 | a subscriber that leaves and comes back while its guards are awaited gets one emission twice in one lifetime |
| StorageLock.RunKeeps | core/src/storage/file-lock.ts:121-280 | every run, of any number of processes and tasks, in which only left-behind locks are found stale, and by one task at a time, keeps queue order, knowledge and ownership of the lock, ages and data |
| StorageLock.MutualExclusion | core/src/storage/file-lock.ts:121-158 | in such a run at most one task of all processes is between creating the lock and having removed it |
| StorageLock.NeverReentrant | core/src/storage/file-lock.ts:127-131 | no queued task enters by the reentrant path, since the promise chain keeps two tasks of a process from meeting inside the lock, and no write inside the lock waits for it |
| StorageLock.WritesUnderOwnLock | core/src/storage/atomic-write.ts:68-76 | the inner acquisition of a write finds its process holding the lock that the same task took; it neither waits nor takes nor gives back anything up to the rename |
| StorageLock.OneAtATime | core/src/storage/queue.ts:29-44 | when a task has begun, the earlier tasks of its process have settled and the later ones cannot begin |
| StorageLock.NoLostUpdates | core/src/storage/scoped-storage.ts:56-70 | at every moment the stored object is the fold of all committed operations in commit order |
| StorageHistory.StoredIsLast | core/src/storage/scoped-storage.ts:56-70 | at every moment of such a run each key holds what the last committed operation on it says, a value or none, and what it held at the start if no committed operation names it |
| StorageHistory.RenameIsLocal | core/src/storage/scoped-storage.ts:56-70 | a rename shows the operation on its own key, every other key keeps presence and value, and no other step changes the file |
| StorageHistory.LockIsGivenBack | core/src/storage/file-lock.ts:121-280 | in such a run the lock file is created by a task that finds none, stamped by that task, and removed only with its release, after its failed stamp, or as stale; a promise resolves only when the release has removed the file |
| StorageHistory.WriteSucceeds | core/src/storage/file-lock.ts:121-158 | in every state of such a run a task whose turn it is and that finds no lock can go through all its steps, and then its promise has resolved, the file shows its operation and the lock is gone |
| StorageHistory.FailureIsClean | core/src/storage/file-lock.ts:139-158 | a failure inside the section, at any point up to the rename, gives the lock back, rejects the promise and leaves the file as it was |
| StorageLock.CommitsAreFifo | core/src/storage/queue.ts:29-44 | one process commits operations in the order it enqueued them, none twice, each after the earlier task settled |
| StorageLock.ResolvedIsCommitted | core/src/storage/scoped-storage.ts:56-70 | a set or delete whose promise resolved is among the commits, exactly once |
| StorageLock.DamagedStays | core/src/storage/scoped-storage.ts:32-48 | a file that is no JSON object is never overwritten |
| StorageVerdicts.PromptIsCareful | core/src/storage/file-lock.ts:292-299 | when every verdict on a lock read without payload comes within the stale time after that lock's creation, no live lock is ever found stale, whichever lock's age was looked up |
| StorageVerdicts.HarmlessIff | core/src/storage/file-lock.ts:211-221 | after a verdict "stale", two tasks can come to be past the creation of the lock without another wrong verdict, unless and only unless the lock was left behind and no other task was about to remove it |
| StorageVerdicts.LiveLockIsStolen | core/src/storage/file-lock.ts:292-299 | a full run in which every payload is written and every age looked up in time, and a live holder loses its lock |
| AtomicWrite.FileSystem.AtomicWriteFileWith | core/src/storage/atomic-write.ts:83-105 | success means the new content, failure the old, and a crash between any two operations leaves one of them whole |
| AtomicWrite.CrashSafeIff | core/src/storage/atomic-write.ts:94-101 | a crash leaves the old or the new content if and only if the path is flushed with one of them, or missing as it was |
| RateHistory.WindowBound | core/src/task-broker/peer-rate-limiter.ts:96-118 | any window (t - w, t] of a run holds at most the maximum of allowed calls per key |
| RateHistory.KeysAreIndependent | core/src/task-broker/peer-rate-limiter.ts:96-118 | what a key is allowed depends on its own requests only |
| RateHistory.DroppedCount | core/src/task-broker/peer-rate-limiter.ts:100-108 | what is left after dropping old times is what the full history counts |
| SlidingWindow.RateLimiter.Allow | core/src/task-broker/peer-rate-limiter.ts:96-118 | the verdict is that of a limiter keeping the full history |
| SlidingWindow.RateLimiter.MaybeSweep | core/src/task-broker/peer-rate-limiter.ts:128-139 | sweeping forgets nothing a later verdict needs |
| CompoundKeys.PeersShareBudgetIff | core/src/task-broker/telemetry-rate-limiter.ts:80-84 | two peers can share a budget if and only if the id of one is that of the other followed by a NUL and more |
| CompoundKeys.KeyForInjective | core/src/task-broker/telemetry-rate-limiter.ts:80-84 | peer and skill have their own budget as long as peer ids hold no NUL |
| CompoundKeys.NulSharesBudget | core/src/task-broker/telemetry-rate-limiter.ts:80-84 | a NUL inside a peer id makes two pairs share one budget |
| FixedWindow.FixedWindowLimiter.Compact | apps/core-server/src/fixed-window.ts:19-27 | in-place compaction keeps exactly the calls still in the window, in order |
| FixedWindow.FixedWindowLimiter.Allow | apps/core-server/src/fixed-window.ts:17-33 | the verdict of the full history, a call exactly one window old still counting |
| FixedWindow.FixedWindowLimiter.WouldAllow | apps/core-server/src/fixed-window.ts:36-54 | predicts the verdict without recording anything |
| StreamHistory.WindowWithinCap | core/src/security/telemetry-gate.ts:228-242 | any window of a run is within the cap, in frames and in bytes |
| TelemetryBucket.ConsumeMeans | core/src/security/telemetry-gate.ts:202-262 | one check gives the verdict of the window's totals, the pinch and the denials in a row, and drops nothing that still counts |
| TelemetryBucket.Consume | core/src/security/telemetry-gate.ts:202-262 | the loop over the entries, the sum and the caps in their order have that effect |
| TelemetryGate.TelemetryGate.CheckAndConsume | core/src/security/telemetry-gate.ts:172-195 | the new buckets; and for channels never registered or closed whose checks are never more than a window apart exactly the verdict of the full history: pinched within two windows of the last error, else let through when it fits, else an error after more than twice the cap of denials, else the cap that is exceeded |
| TelemetryGate.OneErrorPerPinch | core/src/security/telemetry-gate.ts:248-262 | two errors of such a channel are at least two windows apart, unless it was silent for longer than a window in between |
| TelemetryTrace.ErrorsAreRare | core/src/security/telemetry-gate.ts:248-262 | the same of any run in which no error comes while a remembered pinch lasts |
| TelemetryGate.SweptPinchIsForgotten | core/src/security/telemetry-gate.ts:264-275 | after a silence of a little more than a window a sweep has removed the pinch, and the next error comes before two windows are over |
| TelemetryGate.TelemetryGate.MaybeSweep | core/src/security/telemetry-gate.ts:264-275 | exactly the idle buckets are removed, and no default-budget channel loses anything of its window |
| TelemetryGate.TelemetryGate.RegisterStream | core/src/security/telemetry-gate.ts:144-158 | a registered channel starts over with an empty bucket under its own budget; invalid budgets are refused and change nothing |
| TelemetryGate.WindowsAreCapped | core/src/security/telemetry-gate.ts:172-262 | in every reachable state any window of such a channel is within both caps |
| PeerAccess.CheckPeerAccess | core/src/security/peer-access-gate.ts:126-195 | access is granted exactly to ourselves where allowed, or when the lookups prove the peer by some mode (verified contact; a valid pass by the inspection where there is one; public and not a blocked contact) and no public mode precedes it, with the reason of the first proof; otherwise the first denial about the peer is reported, or the policy denial when a public mode was tried or nothing could be said |
| PeerAccess.SolePass | core/src/security/peer-access-gate.ts:197-220 | where an inspected pass is the only mode, exactly a valid one is let in, a lapsed one is refused as expired and any other answer as invalid |
| PeerAccess.OrOfModes | core/src/security/peer-access-gate.ts:153-193 | the ordered evaluation is the "or" of the modes if and only if it is not a blocked contact with a public mode before a proof |
| PeerAccess.OrderMatters | core/src/security/peer-access-gate.ts:153-193 | for a verified contact that is blocked the order of two modes decides |
| TaskBroker.TaskBroker.RegisterSkill | core/src/task-broker/task-broker.ts:237-275 | contradictory or malformed registrations are refused and change nothing; otherwise the record is the one asked for, local and not on the bridge unless said otherwise, and bridge-only skills are local and on the bridge |
| TaskBroker.TaskBroker.Begin | core/src/task-broker/task-broker.ts:357-380 | unknown skills and network calls to local skills end here |
| TaskBroker.TaskBroker.Narrow | core/src/task-broker/task-broker.ts:394-418 | an installed permission matrix can only end a call, and a failing lookup does |
| TaskBroker.TaskBroker.Prove | core/src/task-broker/task-broker.ts:546-571 | a call goes on exactly when its policy's gates prove the peer, the public path being closed to agents, and agents are not refused outright |
| TaskBroker.GatesGrantedIff | core/src/task-broker/task-broker.ts:546-571 | the gates of a policy pass exactly the callers with a peer id that the lookups prove by some gate before which none is open to everybody, the open gate being closed to agents |
| TaskBroker.TaskBroker.Approve | core/src/task-broker/task-broker.ts:572-583 | agent calls that need approval go on only with it |
| TaskBroker.TaskBroker.CountTelemetry | core/src/task-broker/task-broker.ts:594-608 | telemetry skills take from the budget of peer and skill |
| TaskBroker.TaskBroker.Admit | core/src/task-broker/task-broker.ts:459-489 | peer budget, bridge exposure and capacity in this order; a dispatched network call has passed exposure, matrix, gates and agent level, and running calls are counted exactly and within the cap |
| TaskBroker.TaskBroker.Finish | core/src/task-broker/task-broker.ts:519-521 | a settled call gives its place back |
| TaskBroker.TaskBroker.Execute | core/src/task-broker/task-broker.ts:357-522 | a call that nothing interrupts ends with the first refusal of matrix, policy, budgets, bridge and capacity, or is dispatched, and takes from each budget exactly when it has come to it and was within it |
| TaskBroker.MatrixOnlyDenies | core/src/task-broker/task-broker.ts:394-418 | of two brokers in one situation, the one with the matrix dispatches a call if and only if the one without does and the matrix does not refuse it; a refused call leaves budgets and load as they were, any other has the same effect on both |
| TaskBroker.MatrixLeavesOut | core/src/task-broker/task-broker.ts:394-418 | a whole run with the matrix dispatches the same calls and ends with the same budgets and load as the run without it of all but the calls the matrix refuses |
| TaskBroker.DispatchesWithinBudget | core/src/task-broker/task-broker.ts:459-474 | any window holds at most the peer's budget of dispatched network calls |
| TaskBroker.BudgetSharedIff | core/src/task-broker/task-broker.ts:459-461 | two callers take from one budget exactly when they have one id or neither has an id of its own |
| CanonicalOrder.SortedUnique | sdk/src/manifest-signing.ts:106-113 | sorted members that mean the same are the same keys in the same order |
| CanonicalOrder.SortMeansTheSame | sdk/src/manifest-signing.ts:106-113 | sorting by UTF-16 code units does not change the value |
| CanonicalText.PrecedesIff | sdk/src/manifest-signing.ts:106-108 | the order of keys is the lexicographic order of their UTF-16 code units, with surrogate pairs from U+10000 on |
| CanonicalText.CanonIsDocument | sdk/src/manifest-signing.ts:91-115 | the canonical text is the JSON text, without spacing and with the shortest escapes, of a document that writes the value with the members of every object in ascending order of their keys' code units |
| CanonicalReadable.StringReadable | sdk/src/manifest-signing.ts:96-98 | a quoted string is read back uniquely, whatever follows |
| CanonicalReadable.Readable | sdk/src/manifest-signing.ts:91-115 | canonical text is uniquely readable in front of any delimiter |
| CanonicalReadable.CanonIff | sdk/src/manifest-signing.ts:91-115 | two values have one canonical text exactly when they are the same JSON value up to the order of members |
| ManifestSigning.PayloadIff | sdk/src/manifest-signing.ts:119-153 | two manifests are signed over one text exactly when they are the same value apart from their signatures |
| ManifestSigning.VerificationIsOfTheValue | sdk/src/manifest-signing.ts:161-216 | verification gives the same result for any order of members at any depth |
| ManifestSigning.SignedVerifies | sdk/src/manifest-signing.ts:140-216 | a signed manifest verifies under the signer's key, in any member order and whatever signature it carried before |
| ManifestSigning.VerifiedWasSigned | sdk/src/manifest-signing.ts:161-216 | if a key accepts only the texts of certain manifests, a manifest that verifies under it is one of them |
| ManifestSigning.VerifyMeans | sdk/src/manifest-signing.ts:161-216 | verification answers with the first thing wrong: no object, no signature object, another algorithm, a key not of 64 or a value not of 128 hexadecimal digits, a text the key does not accept |
| ManifestSigning.SignedBlockIs | sdk/src/manifest-signing.ts:140-153 | the signature block names the algorithm and holds the public key of the signing key and its signature of the canonical text of all other members |
| DepthScanner.ValidateJsonNestingDepth | sdk/src/boundary-guard.ts:140-170 | the loop raises its error exactly when the scanning automaton does |
| DepthScanner.ScanString | sdk/src/boundary-guard.ts:149-159 | a string, escapes included, leaves the scan where it was |
| JsonText.EscapesMean | sdk/src/manifest-signing.ts:96-98 | which characters can be escaped by a letter and what each escape stands for; four hexadecimal digits of either case stand for their number |
| JsonText.PlainMeans | sdk/src/manifest-signing.ts:96-98 | which characters stand for themselves in a string, and as which UTF-16 code units |
| DepthScanner.ScanDoc | sdk/src/boundary-guard.ts:140-170 | the scan of any JSON text rejects exactly when the text nests deeper than the limit |
| DepthAgreement.WalkMeasures | sdk/src/boundary-guard.ts:90-115 | the walk rejects exactly when the value nests deeper than the limit |
| DepthAgreement.ParsedFields | sdk/src/boundary-guard.ts:111-113 | a parsed object holds exactly the fields no later field of the same key replaces |
| DepthAgreement.GuardsAgree | sdk/src/boundary-guard.ts:90-170 | scan and walk agree if and only if it is not just replaced fields that nest too deep; the walk never rejects what the scan accepts |
| DepthAgreement.GuardsAgreeWithoutRepeats | sdk/src/boundary-guard.ts:90-170 | without repeated keys the two guards agree at every limit |
| DepthAgreement.RepeatedKeyDisagrees | sdk/src/boundary-guard.ts:133-138 | a text with a repeated key is rejected although its value is within the limit |
| IpcFraming.HeaderRoundTrip | core/src/sandbox/ipc-transport.ts:125-127 | the four header bytes carry any length below 2^32 |
| IpcFraming.SplitIff | core/src/sandbox/ipc-transport.ts:150-168 | two chunks have the effect of their concatenation if and only if it is not the case that the handler closed the channel during the first and the bytes left complete another message |
| IpcFraming.ChunkingIrrelevant | core/src/sandbox/ipc-transport.ts:150-168 | with a handler that does not close the channel any fragmentation is decoded alike |
| IpcFraming.OpenBufferIsSmall | core/src/sandbox/ipc-transport.ts:176-196 | between calls an open channel holds less than 4 + maxFrameBytes bytes |
| IpcStreams.OnDataMeans | core/src/sandbox/ipc-transport.ts:150-196 | the bytes held and the chunk are some payloads, each behind its big-endian length, and a tail; the messages of the payloads are delivered in order, and the channel fails exactly at a length over the limit, a payload that does not parse or a handler that throws |
| IpcFraming.SentIsDelivered | core/src/sandbox/ipc-transport.ts:111-168 | however sent frames are cut, the messages arrive in order, the channel stays open and the buffer is empty |
| IpcTransport.IPCSocketTransport.OnData | core/src/sandbox/ipc-transport.ts:150-168 | the decoding loop has the effect of the specification, also when it fails half-way |
| IpcTransport.IPCSocketTransport.Send | core/src/sandbox/ipc-transport.ts:111-130 | refuses on a closed channel or an oversized frame, else queues exactly one frame |
| IpcTransport.IPCSocketTransport.FlushWrites | core/src/sandbox/ipc-transport.ts:239-262 | frames are written in order; one is written again only while it heads the queue |
| IpcTransport.IPCSocketTransport.WrittenOnceIff | core/src/sandbox/ipc-transport.ts:239-262 | each frame is written exactly once if and only if the stream never refused a write |
| PbxGraph.WalkPBXObjects | sdk/src/pbx.ts:417-455 | the explicit stack visits in the order, at the depths and with the reports of recursive depth-first search, and always ends |
| PbxWalk.WalkIsSound | sdk/src/pbx.ts:417-455 | every visit is of a reachable object at the length of a path within the limit, every report is a dangling reference of one, and the depth error means a path longer than the limit |
| PbxWalk.WalkVisitsOnce | sdk/src/pbx.ts:436-443 | no id is visited twice |
| PbxWalk.WalkIsComplete | sdk/src/pbx.ts:417-455 | a completed walk visits reachable objects only, and all of them if and only if no two reachable objects share an id |
| PbxWalk.ShallowCompletes | sdk/src/pbx.ts:436-440 | a document whose paths are within the limit is walked to the end |
| PbxWalk.SharedIdHidesAnObject | sdk/src/pbx.ts:440-443 | two objects under one id: the second is reachable and never visited |
| PbxResolve.ResolveClassified | sdk/src/pbx.ts:296-331 | on any document the outcome is the one way the chain of proxies ends: an object, nowhere, an id met again, or past the limit, with a dangling hop decided before a cycle and a cycle before the limit |
| PbxResolve.CycleIsOfObjects | sdk/src/pbx.ts:308-313 | the cycle error is about an object that recurs exactly when the one earlier hop with its id is that object, as on documents whose keys are the ids |
| PbxResolve.LookupsCounted | sdk/src/pbx.ts:350-364 | one lookup for each hop of the chain up to its end, and never more than maxDepth + 2, on any document |

## Left out

- Floating point: numbers are exact reals; NaN, infinities, signed zero and rounding are not modelled, and `ParsedRoundTrip` and `StoredFormula` ask that the numbers of the formula print as numerals that read back.
- Host text functions (case mapping, comparison, trimming of inner spaces), `parseInt` beyond exact integers, and number text in other forms are parameters.
- Upper-casing of coordinates and names outside the letters A to Z: the lexer only takes ASCII letters there.
- The per-operator precedence methods of the parser that differ only in their operators are one method with a level.
- `FormulaEval`: the legacy single-call formula parser and its `evaluateMath`, and the value of exceptions such as a stack overflow during evaluation (`#ERROR!`).
- `=AI(...)` calls, cell updates, embedding, storage and events of the calc plugin; the `coord` property of a cell, which repeats its key; cells shared between keys by reference.
- EditMeaning.RewriteKeepsMeaning: for insertions with a non-negative count and formulas all of whose references can be followed; `ReferencePreservedIff` and `RangePreservedIff` say which can.
- RecalcFollows.ValuesFollow: for sheets whose keys are distinct canonical labels and whose formulas can be followed and, rewritten, read back.
- DeleteMeaning.DeletionKeepsMeaning: for formulas all of whose references and ranges are left alone; `ReferenceSurvivesIff`, `RangeSurvivesIff` and `RangeValuesIff` say which are. A recalculation of the whole sheet after a deletion is not compared with one before.
- RecalcCycles.RingIsMarked: formulas that swallow or replace an error, such as a sign, a concatenation, a count or an unused branch, are not rings; their values in a cycle depend on the order of evaluation.
- Lone surrogates in JSON strings, and the UTF-8 encoding of signed text, which is injective on the strings modelled.
- Cryptography: the signature scheme is a parameter with the law that it accepts what it made; hashing and checking of plugin files.
- The grammar of JSON numbers beyond the characters they are made of, and `validateKeyCount`.
- Handlers that send or close re-entrantly while a frame is being sent, error handlers, and teardown of streams.
- Frames of 2^32 bytes or more are refused by `Send`; the code would raise a range error from the header write.
- PBX property values that are not references, custom reporters that throw, and documents that change during a walk.
- StorageLock.RunKeeps: processes neither end nor share lock files with other hosts, and verdicts are as in `Careful`; stealing from dead owners, Windows retries and writers that bypass the queue are not modelled. Waiting may end in a timeout at any time; an inner acquisition that would wait is a phase of its own, which is proved never to be reached.
- AtomicWrite.FileSystem.AtomicWriteFileWith: the rename is atomic and either lost or kept by a crash; retries are not modelled.
- TelemetryGate.TelemetryGate.CheckAndConsume: of channels that were registered or closed explicitly, whose configuration and pinches an idle sweep drops, only the effect on the buckets is stated; of channels that were silent for longer than a window, bounds of the verdict.
- SlidingWindow.RateLimiter.Allow: for clocks that do not run backwards.
- The per-IP connection, task and request limiter of the network plugin: counters that would only add easy members.
- EventDelivery.DeliveredInOrder: for subscription ids that are never drawn twice; refresh timers and acknowledgements are left to any schedule. Hub keys are pairs; `CompoundKeys` says when joined keys differ.
- The evaluation of subscription guards and the outbound and inbound telemetry gates inside the event protocol are verdicts of the environment; the gate itself is `TelemetryGate`.
- Between two turns of a fan-out loop, and before its first, other steps may come in although the code has no await there when a guard refuses.
- TaskBroker.TaskBroker.Admit: handlers, payload limits, error texts and the invocation context are not modelled; approval and lookups are answers of the environment.
- Sockets, TLS, discovery, HTTP and WebSocket routing, the desktop shell, sandbox life cycles, sanitisation and the command line.
