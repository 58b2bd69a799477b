# Verification of Dvala

Dvala is an expression language with a pretty printer, a language service that runs in a worker, a bridge between host
values and language values, and a playground that stores files and snapshots. This project models the parts of it that
are hardest to get right and proves what they promise. Where the code does not keep a promise, there is a lemma with an
input for which it fails, and the exact condition under which the promise holds.

**Printer and parser.** `Syntax`, `Printer` and `Docs` model the pretty printer: every node kind, as ropes of tokens and
blanks, with the questions about width left to an arbitrary `Layout`. `Spelling` is the grammar of the printed text
without any layout, `LayoutIndependence` and `EmptyChains` compare the two. `Names` is what the tokenizer takes for a
name. `Grammar`, `Parser`, `ParserProofs` and `Reading` are the precedence-climbing parser with its concrete syntax
trees and the names that are words where an expression starts; `Signs` is what the tokenizer does to minus signs;
`PrintedTrees`, `RoundTrip` and `Brackets` put the printer in front of the tokenizer and the parser, and `Grouping` says
how operators group without a table of precedences. `Constructs` is the parser of everything that words and brackets
open, on top of that; `ConstructReads`, `Readable` and `ConstructProofs` put the printer in front of it.
`StringLiterals` and `PipeChains` are string escaping and the taking apart of pipes.

**Language service.** `LsMirror` is the worker with its documents, `LsDesk` and `LsSystem` are the client as a step
system, `LsRuns`, `LsEdits` and `LsReplies` are about whole runs of it, `LsEffects` is what each step settles, posts and
keeps, and `LsClient` is the client as a class whose methods refine the steps. `BackendDiagnostics` is the editor
extension's client.

**Values.** `HostValues` and `HostConversion` are the check of host values as graphs, and deep conversion in both
directions; `HashTrie` and `HashTrieMaps` are the persistent map; `Equality` is approximate and structural equality.

**Workspace.** `Paths`, `CleanPaths`, `FileStore`, `SnapshotStore` and `SnapshotRuns` are the file list, its normal form
and the snapshots in it; `ImportPaths` is import labels and their resolution; `FileTree` and `TreeBuilder` are the file
tree, as values and as nested arrays.

**The rest.** `StateHistory` is the undo history, `MaybePromise` the loops over callbacks that may answer with a
promise, `TextFormatter` the in-place colouring of text. `Options` is shared.

## What does not hold of the code

- A logical chain without operands prints as nothing if the empty text fits on its line, and as `undefined` if not; the
  layout of every other node leaves its tokens alone (`EmptyChains.SameTokensExactly`).
- `(a ^ b) ^ c` is printed without its parentheses and read as `a ^ (b ^ c)`; `0 - x` is printed `-x`, which is read
  otherwise when `x` is a number or an operator expression; operands that are pipes or named infix calls never get
  parentheses. The printer's own comment on associativity (prettyPrint.ts:408-409) claims the first case.
- Logical chains are operands without parentheses: `a && (b || c)` is printed and read as `(a && b) || c`, and
  `(a && b) + c` as `a && (b + c)`. A chain of three operands, which the prefix form makes, is read as two chains.
- A function whose body is one block of several statements is printed like one whose body is the statements.
  `get(a + b, "k")` is printed `a + b?.k`, like `a + get(b, "k")`. The function that resumes, as an element of an array,
  is read as a name.
- The name `resume` is read as the function that resumes wherever an expression starts with it in front of an operator,
  a bracket that opens, a reserved word, or the end: `(resume) + 1` is printed `resume + 1` and does not come back,
  while `f(resume)` does. `(type) Foo x` is printed as the start of a type declaration. The names `if` and `macro`,
  which are names only in quotes, come back only behind a minus sign, and `macro` also between operands.
- A name written in quotes is printed without them, and is read back only if the tokenizer takes it for one symbol: not
  `a b`, nor a name that starts with `xor`, nor one of the properties that every object has, such as `toString`
  (tokenizers.ts:405-409 looks reserved words up in a plain object).
- Behind the name of an infix function a number has no sign of its own: `a f -5` is read as `a f (0 - 5)`.
- A call without arguments that does not fit on its line is printed with a comma between its brackets and cannot be
  read.
- A pipe with one step is printed as an ordinary call. Some parentheses are redundant: around a sign, around an operator
  in prefix form, and around a power on the right of a power.
- Object keys that are no identifiers, and import names, are put between quotes unescaped.
- Registering a model in place of one with a later version leaves the worker with the old text, and a promise can wait
  for good (`LsReplies.StuckAfterReplacement`).
- `normalizeFilePath` and `normalizeFiles` are not idempotent (`SpaceAppears`, `BareSuffixTwice`).
- An entry under `__proto__` does not survive `toJS`.
- A key with the value `undefined` passes for a missing one in `deepEqual`, which is therefore not symmetric.
- A serialized undo history taken over by one with a smaller cap puts the cursor on another entry.
- The header of snapshotStorage.ts speaks of `<id>.json`; the code names the files by the time they were saved. The
  model follows the code.

## Model

| member | source | states |
|---|---|---|
| EmptyChains.SameTokens | packages/dvala-core-tooling/src/prettyPrint.ts:226-956 | for any two layouts, indents and root flags the printed texts of a node in which no logical chain is empty are the same tokens, up to a comma before a closing bracket and a semicolon before `end` |
| EmptyChains.SameTokensExactly | packages/dvala-core-tooling/src/prettyPrint.ts:226-956 | the tokens of a node are the same under all layouts if and only if no logical chain printed in it is empty |
| EmptyChains.EmptyChainBreaks | packages/dvala-core-tooling/src/prettyPrint.ts:730-743 | an empty chain is printed as nothing exactly if the empty text is on one line and fits at the indent, and as `undefined` otherwise |
| EmptyChains.EmptyChainOnPage | packages/dvala-core-tooling/src/prettyPrint.ts:127-129 | on the page of the program, 80 columns and two per level, an empty chain reads as nothing up to level 40 and as `undefined` beyond it |
| LayoutIndependence.Reads | packages/dvala-core-tooling/src/prettyPrint.ts:226-1103 | under every layout, at every indent, a printed node reads as its spelling in the layout-free grammar, apart from absent operands |
| Docs.LexErased | packages/dvala-core-tooling/src/tokenizer/tokenizers.ts:172-190 | leaving out optional separators before or after signs are settled gives the same tokens |
| PipeChains.ExtractPipeChain | packages/dvala-core-tooling/src/prettyPrint.ts:1007-1027 | the loop that collects callees from the outside in and turns them around computes the chain that the printer prints |
| PipeChains.RefoldChain | packages/dvala-core-tooling/src/prettyPrint.ts:1007-1027 | folding an extracted chain gives the nested call back, its steps marked as pipes and as nothing else |
| StringLiterals.FindClosingQuote | packages/dvala-core-tooling/src/tokenizer/tokenizers.ts:51-76 | the scan with its escape flag finds the first quote that no backslash protects, or that there is none |
| StringLiterals.LiteralRoundTrip | packages/dvala-core-tooling/src/prettyPrint.ts:234-241 | the text printed for any string, whatever follows it, is tokenized up to its closing quote and denotes that string |
| StringLiterals.EscapesAre | packages/dvala-core-tooling/src/prettyPrint.ts:234-241 | which letter stands behind the backslash for each of the five characters that are escaped, and that no other is |
| StringLiterals.BareRoundTrip | packages/dvala-core-tooling/src/prettyPrint.ts:711-728 | text put between quotes unescaped is read as itself if and only if it has no quote, and no backslash that is not before a line break |
| Names.NameRoundTrip | packages/dvala-core-tooling/src/tokenizer/tokenizers.ts:353-429 | a name printed as it is, in front of anything that the printer puts behind it, is read back if and only if it is an identifier that is not reserved, does not start with `xor`, and is not known to the language |
| Names.SpacedName | packages/dvala-core-tooling/src/parser/helpers.ts:85-98 | the name `a b`, which is written in quotes, is printed without them and read as `a` |
| ParserProofs.Complete | packages/dvala-core-tooling/src/parser/subParsers/parseExpression.ts:59-214 | the tokens of every tree of the grammar in which no name stands where it is a word parse, at every precedence at which the tree may be read, to its meaning and what follows |
| ParserProofs.SoundExpr | packages/dvala-core-tooling/src/parser/subParsers/parseExpression.ts:59-214 | a plain expression that the parser returns is the meaning of some tree of the grammar with exactly the tokens consumed, and no name in it stands where it is a word |
| Reading.SameTree | packages/dvala-core-tooling/src/parser/subParsers/parseOperand.ts:62-252 | two concrete trees with the same tokens and the same meaning are the same tree |
| Reading.ReadsBack | packages/dvala-core-tooling/src/parser/subParsers/parseExpression.ts:59-214 | the tokens of any concrete tree parse to its meaning if and only if the grammar generates it, with operators called by their arities, and no name in it stands where it is a word |
| Signs.LexClear | packages/dvala-core-tooling/src/tokenizer/tokenizers.ts:172-190 | if no minus sign is joined, taken off or made an arrow, the tokenizer gives the tokens of the tree from its text |
| Signs.TextReadsBack | packages/dvala-core-tooling/src/tokenizer/tokenizers.ts:172-190 | the text of any concrete tree is read back as its meaning if and only if the grammar generates it, every minus sign is read as what it was written for, and no name stands where it is a word |
| PrintedTrees.PrintsTree | packages/dvala-core-tooling/src/prettyPrint.ts:348-490 | the tokens written for an operator expression, commas included, are the text of its printed tree, under every layout |
| RoundTrip.PrintedParsesBack | packages/dvala-core-tooling/src/prettyPrint.ts:348-490 | the text printed for an operator expression, calls and logical chains included, under any layout at any indent, parses back to it if and only if it is faithful and no call without arguments is broken over lines |
| RoundTrip.TablesAgree | packages/dvala-core-tooling/src/prettyPrint.ts:92-116 | the printer's own table of precedences and the parser's give each operator the same number |
| Grouping.TighterIsHigher | packages/dvala-core-tooling/src/parser/getPrecedence.ts:6-62 | which operator binds tighter, by an explicit list of classes from the loosest to the tightest, is what the table of the parser says |
| Grouping.Groups | packages/dvala-core-tooling/src/parser/subParsers/parseExpression.ts:156-209 | in `a o b p c`, for any two operators, signs, names of functions, logical operators and pipes, the name in the middle goes with the second if that binds tighter or both are powers, and with the first otherwise |
| Grouping.LeftPrinted | packages/dvala-core-tooling/src/prettyPrint.ts:389-419 | `(a o b) p c` is printed with its brackets if and only if `p` binds tighter than `o`; the tokens are given either way |
| Grouping.RightPrinted | packages/dvala-core-tooling/src/prettyPrint.ts:389-419 | `a o (b p c)` is printed with its brackets if and only if `p` does not bind tighter than `o` |
| Grouping.ChainPrinted | packages/dvala-core-tooling/src/prettyPrint.ts:289-294 | however it is broken, a logical chain is printed with `&&`, `||` or `??` between its operands, according to its kind |
| Grouping.ChainOnTheRight | packages/dvala-core-tooling/src/prettyPrint.ts:730-743 | a logical chain on the right of another is printed without brackets and read as standing on the left |
| Grouping.ChainInSum | packages/dvala-core-tooling/src/prettyPrint.ts:389-419 | a logical chain on the left of an operator is printed without brackets, and its last operand is read as the operand of the operator |
| Grouping.ChainOfThree | packages/dvala-core-tooling/src/prettyPrint.ts:730-743 | a chain of three operands is read as a chain of two in a chain |
| RoundTrip.PowerOnTheLeft | packages/dvala-core-tooling/src/prettyPrint.ts:389-419 | a power on the left of a power is printed bare and read as standing on its right |
| RoundTrip.MinusBeforeProduct | packages/dvala-core-tooling/src/prettyPrint.ts:354-360 | zero minus a product is read as a product whose first factor is negated |
| RoundTrip.MinusBeforeNumber | packages/dvala-core-tooling/src/prettyPrint.ts:354-360 | zero minus a number is read as the negative number |
| RoundTrip.NamedInfixInProduct | packages/dvala-core-tooling/src/prettyPrint.ts:422-453 | a named infix call as a factor is printed without parentheses and swallows the other factor |
| RoundTrip.SignBehindName | packages/dvala-core-tooling/src/tokenizer/tokenizers.ts:176-190 | a negative number behind the name of an infix function is read as zero minus the number |
| RoundTrip.ResumeBeforeOperator | packages/dvala-core-tooling/src/parser/subParsers/parseExpression.ts:126-132 | the name `resume` as the left operand of any operator is read as the function that resumes |
| RoundTrip.ResumeAsArgument | packages/dvala-core-tooling/src/parser/subParsers/parseExpression.ts:282-294 | the name `resume` as the argument of a call comes back |
| RoundTrip.TypeBeforeName | packages/dvala-core-tooling/src/parser/subParsers/parseExpression.ts:140-146 | the name `type` in front of an infix function with a capital letter is not read as a name |
| RoundTrip.EmptyCall | packages/dvala-core-tooling/src/prettyPrint.ts:455-489 | what a call of any user-defined name without arguments is read as: itself if it fits on its line, a resumption if the name is `resume`, and nothing if it is broken or the name opens a construct |
| Brackets.ParensNeeded | packages/dvala-core-tooling/src/prettyPrint.ts:389-419 | for every printed expression that comes back, leaving out a pair of parentheses anywhere in it leaves the reading unchanged if and only if the pair is around a sign, an operator in prefix form, or a power on the right of a power in which the last name is no word in front of what follows the pair |
| ConstructProofs.PrintedComesBack | packages/dvala-core-tooling/src/prettyPrint.ts:226-956 | what is printed, under any layout at any indent, for conditionals, matches, loops, `let`, blocks, functions, macros and their calls, handlers, effects, arrays, objects, imports, parallel evaluation, binding targets and patterns, nested in each other to any depth, is read as that node with its parts in their places, if names and operator expressions in it come back |
| ConstructProofs.BlockBodyMerges | packages/dvala-core-tooling/src/prettyPrint.ts:562-612 | a function whose body is one block of several statements is printed like one whose body is these statements |
| ConstructProofs.AccessOfSum | packages/dvala-core-tooling/src/prettyPrint.ts:362-368 | an access to a sum is printed like a sum with an access |
| ConstructProofs.ResumeInList | packages/dvala-core-tooling/src/parser/subParsers/parseExpression.ts:282-294 | the function that resumes, as the element of an array, is read as a name |
| ConstructReads.IfComes | packages/dvala-core-tooling/src/parser/subParsers/parseIf.ts:11-89 | if its branches are read as they were written, so is a conditional, chained ones included |
| ConstructReads.MatchComes | packages/dvala-core-tooling/src/parser/subParsers/parseMatch.ts:9-49 | if the subject and the cases are, so is a match |
| ConstructReads.ForComes | packages/dvala-core-tooling/src/parser/subParsers/parseForOrDoseq.ts:28-164 | if the levels, with different names, and the body are, so is a comprehension |
| ConstructReads.FunctionComes | packages/dvala-core-tooling/src/parser/subParsers/parseFunction.ts:54-142 | if parameters and body are, and the bracket that closes the parameters is found by counting, so is a function |
| ConstructReads.HandlerComes | packages/dvala-core-tooling/src/parser/subParsers/parseHandler.ts:55-187 | if the clauses, for different effects, and the transformation are, so is a handler |
| ConstructReads.ObjectComes | packages/dvala-core-tooling/src/parser/subParsers/parseObject.ts:22-95 | if the entries are, so is an object, keys of all forms included |
| LsMirror.LsWorker.OnMessage | apps/playground-www/src/lsWorker.ts:130-470 | a worker's answer and new state for each message are those of the mirror: a delta or request about another version gets a resync and changes nothing |
| LsMirror.AcceptedIsAnswered | apps/playground-www/src/lsWorker.ts:174-460 | a worker that handles its queue in order answers a request under its own identifier if it has the version asked about, and with a resync otherwise; later cancellations do not matter |
| LsMirror.SyncedFiles | apps/playground-www/src/lsWorkerClient.ts:375-397 | removals and then changed files bring any receiver's files to exactly the workspace's, and leave its documents alone |
| LsRuns.NextKeeps | apps/playground-www/src/lsWorkerClient.ts:206-632 | every call and every message from the worker, late, repeated or foreign, keeps promises, requests, retries and the live worker's queue consistent |
| LsRuns.RunKept | apps/playground-www/src/lsWorkerClient.ts:206-1205 | so does every run: each promise handed out is settled or waits for one request on the live worker's queue, identifiers are fresh, and the worker will have open exactly the registered paths |
| LsRuns.RegisterAgrees | apps/playground-www/src/lsWorkerClient.ts:1142-1147 | registering a model brings the worker to its text if and only if the worker holds no later version of the path |
| LsRuns.DeltaAgrees | apps/playground-www/src/lsWorkerClient.ts:1179-1205 | an edit of a path in step is accepted, and the worker follows if and only if the version does not go back |
| LsRuns.DeltaRejected | apps/playground-www/src/lsWorkerClient.ts:1179-1205 | an edit of a path whose version the worker does not hold is answered with a resync and changes nothing |
| LsRuns.NextInStep | apps/playground-www/src/lsWorkerClient.ts:353-368 | in a client in step, a call or message leaves the worker in step on every registered path if and only if it takes no version back |
| LsRuns.RunInStep | apps/playground-www/src/lsWorkerClient.ts:353-427 | through every run in which no version goes back, failures and restarts included, the worker will hold for each registered path what was last sent |
| LsEdits.NextTaken | apps/playground-www/src/lsWorkerClient.ts:1179-1205 | in step, no call and no message queues an edit that the worker refuses although it has the path open |
| LsEdits.RunTaken | apps/playground-www/src/lsWorkerClient.ts:1142-1205 | in every run in which no version goes back, the worker takes every queued edit of a path that it has open when it comes to it |
| LsReplies.ReplySettles | apps/playground-www/src/lsWorkerClient.ts:211-351 | a reply under another identifier changes nothing; the reply to the pending request settles exactly the promises of its slot, with nothing if it is stale |
| LsReplies.LateReplyIgnored | apps/playground-www/src/lsWorkerClient.ts:230-242 | no reply to an earlier request can answer one started later |
| LsReplies.FailureSettlesAll | apps/playground-www/src/lsWorkerClient.ts:399-427 | a worker failure settles with nothing every promise that waits and no other, so that none is left waiting, and the next worker is in step from its creation |
| LsReplies.ResyncServes | apps/playground-www/src/lsWorkerClient.ts:602-620 | after a resync every request in flight for the path's model will be answered if and only if the worker holds no later version |
| LsReplies.ResyncOnce | apps/playground-www/src/lsWorkerClient.ts:340-351 | a resync starts each pending request of the path once more, settles and forgets no promise, and the same resync again does nothing |
| LsReplies.StuckAfterReplacement | apps/playground-www/src/lsWorkerClient.ts:1142-1147 | after a model was replaced by one of an earlier version, a resync does not help and is then taken for a duplicate, so that a promise waits without an answer on its way |
| LsReplies.ReplacedModelIsLost | apps/playground-www/src/lsWorkerClient.ts:1142-1147 | registering a model of version 1 over one of version 5 leaves the worker with the old text |
| LsReplies.RunOnward | apps/playground-www/src/lsWorkerClient.ts:211-632 | in every run a settled promise keeps its value, and identifiers only grow |
| LsEffects.UnregisterGivesUp | apps/playground-www/src/lsWorkerClient.ts:1152-1173 | when a model is unregistered, every promise that waited for its path is settled with nothing, its requests, retries and timer are gone, and those of other paths are as before |
| LsEffects.UnregisterPosts | apps/playground-www/src/lsWorkerClient.ts:1152-1173 | a live worker gets the document closed and then one cancellation for each request in flight for the path, and nothing else |
| LsEffects.FeatureAsks | apps/playground-www/src/lsWorkerClient.ts:784-876 | a request for a feature cancels the one it replaces, whose promises get nothing, and asks about the model's current version under a new identifier with a new promise |
| LsEffects.HoverJoins | apps/playground-www/src/lsWorkerClient.ts:902-947 | a hover just like the one in flight posts nothing, and its promise waits with the others |
| LsEffects.HoverAsks | apps/playground-www/src/lsWorkerClient.ts:902-947 | any other hover asks, in place of the one in flight |
| LsEffects.EditTimes | apps/playground-www/src/lsWorkerClient.ts:1179-1205 | an edit leaves a timer for its version, and is what was sent last |
| LsEffects.TimerAsks | apps/playground-www/src/lsWorkerClient.ts:1280-1293 | when the timer fires, diagnostics are asked for at the version of the edit |
| LsEffects.ErrorSettles | apps/playground-www/src/lsWorkerClient.ts:525-530 | an error for the pending request settles its promises with nothing, an error for another one does nothing |
| LsEffects.DiagnosticsSettle | apps/playground-www/src/lsWorkerClient.ts:471-509 | diagnostics are done with if and only if they answer the pending request of a registered path and are up to date; failed ones whenever they answer it |
| LsEffects.ResyncAsksAgain | apps/playground-www/src/lsWorkerClient.ts:602-620 | after a resync every request in flight for the path stands on the queue with its old question and the model's current version |
| LsEffects.ResyncActsAgain | apps/playground-www/src/lsWorkerClient.ts:340-351 | a resync is no duplicate once anything has been asked about the path since the last one |
| LsClient.LsWorkerClient.CreateWorker | apps/playground-www/src/lsWorkerClient.ts:624-632 | a new worker's queue holds no requests and no edits and leaves it with the workspace's files and the registered models |
| LsClient.LsWorkerClient.HandleWorkerError | apps/playground-www/src/lsWorkerClient.ts:399-427 | the whole new state is the step for a failure: all waiting promises settled, requests kept for diagnostics only |
| LsClient.LsWorkerClient.HandleResult | apps/playground-www/src/lsWorkerClient.ts:511-600 | the whole new state is the step for a reply |
| LsClient.LsWorkerClient.HandleResultError | apps/playground-www/src/lsWorkerClient.ts:525-530 | the whole new state is the step for a failed request, whose promises get nothing |
| LsClient.LsWorkerClient.HandleResyncDocument | apps/playground-www/src/lsWorkerClient.ts:602-620 | the whole new state is the step for a resync, retries in the code's order |
| LsClient.LsWorkerClient.RegisterModel | apps/playground-www/src/lsWorkerClient.ts:1142-1147 | the whole new state is the step for registering |
| LsClient.LsWorkerClient.UnregisterModel | apps/playground-www/src/lsWorkerClient.ts:1152-1173 | the whole new state is the step for unregistering, a worker created for the cancellations included |
| LsClient.LsWorkerClient.UpdateDocument | apps/playground-www/src/lsWorkerClient.ts:1179-1205 | the whole new state is the step for an edit |
| LsClient.LsWorkerClient.TimerFires | apps/playground-www/src/lsWorkerClient.ts:1280-1293 | the whole new state, the request's place on the queue included, is the step for asking for diagnostics |
| LsClient.LsWorkerClient.RequestFeature | apps/playground-www/src/lsWorkerClient.ts:784-876 | the whole new state is the step that gives up what is in flight for the slot and hands out a promise with a request that will settle it |
| LsClient.LsWorkerClient.RequestHover | apps/playground-www/src/lsWorkerClient.ts:902-947 | the whole new state is the step in which a hover just like the one in flight joins it and any other replaces it |
| LsClient.LsWorkerClient.SyncWorkspaceSnapshotToWorker | apps/playground-www/src/lsWorkerClient.ts:375-397 | removals first, then exactly the new and changed files, nothing twice, and what was synced is remembered |
| LsClient.LsWorkerClient.WorkspaceFilesChanged | apps/playground-www/src/lsWorkerClient.ts:381-397 | the whole new state after the workspace has changed: with a live worker the differences are sent, without one nothing is |
| LsClient.LsWorkerClient.HandleDiagnosticsResult | apps/playground-www/src/lsWorkerClient.ts:471-499 | the whole new state is the step for diagnostics, which stay asked for when they are stale |
| LsClient.LsWorkerClient.HandleDiagnosticsResultError | apps/playground-www/src/lsWorkerClient.ts:502-509 | the whole new state is the step for failed diagnostics, which are no longer asked for |
| BackendDiagnostics.BackendDiagnosticsClient.SyncDocument | vscode-dvala/src/backendDiagnosticsClient.ts:55-71 | the backend follows if and only if the version does not go back; other paths stay in agreement |
| BackendDiagnostics.BackendDiagnosticsClient.SyncWorkspaceSnapshot | vscode-dvala/src/backendDiagnosticsClient.ts:78-94 | the backend's files become the given ones by sending each difference once and nothing else |
| BackendDiagnostics.BackendDiagnosticsClient.RequestDiagnostics | vscode-dvala/src/backendDiagnosticsClient.ts:96-116 | there is an answer if and only if the backend has the version, or the client has it and the backend has no later one |
| HostValues.HostValidator.AssertValidHostValue | packages/dvala-engine/src/interop.ts:32-114 | the descent with its one set of objects computes the check, and leaves the set as it was when it accepts |
| HostValues.CheckExact | packages/dvala-engine/src/interop.ts:32-114 | a value is accepted if and only if no walk from it reaches a forbidden value, an instance or a cycle; shared objects are accepted |
| HostValues.RejectedOffends | packages/dvala-engine/src/interop.ts:32-114 | the error names the indices of items and the keys of entries that lead through the heap to the first offending value in depth-first order, and what is wrong with it |
| HostConversion.ConvertsExactly | packages/dvala-engine/src/interop.ts:150-168 | conversion comes to an end if and only if no cycle is in reach; going as deep as there are objects is enough |
| HostConversion.ConvertUnfolds | packages/dvala-engine/src/interop.ts:150-168 | what comes in stands for the tree that the host value unfolds into |
| HostConversion.HostRoundTrip | packages/dvala-engine/src/interop.ts:122-168 | for an accepted host value, converting in and out gives the tree it unfolds into if and only if nothing in reach of it, neither an object nor a map of the language, has an entry under `__proto__` |
| HostConversion.ProtoEntryIsLost | packages/dvala-engine/src/interop.ts:128-147 | an object whose one entry is under `__proto__` passes the check and comes back empty |
| HostConversion.LanguageRoundTrip | packages/dvala-engine/src/interop.ts:128-168 | any host value with the tree that a language value was turned into comes in as that value if and only if no map in it has an entry under `__proto__` |
| HostConversion.ProtoIsLost | packages/dvala-engine/src/interop.ts:128-168 | a map whose one entry is under `__proto__` goes out and comes back in as the empty map |
| HashTrieMaps.AssocView | packages/dvala-types/src/persistent/PersistentMap.ts:106-175 | inserting in the trie is inserting in the map it stands for, and keeps it well-formed with the right size, also where hashes collide |
| HashTrieMaps.DissocView | packages/dvala-types/src/persistent/PersistentMap.ts:177-228 | removing from the trie is removing from the map, and keeps it well-formed with the right size |
| HashTrieMaps.ViewLookup | packages/dvala-types/src/persistent/PersistentMap.ts:83-100 | looking a key up along its hash finds what the map has for it |
| HashTrieMaps.FromView | packages/dvala-types/src/persistent/PersistentMap.ts:328-333 | a map made of any list of entries stands for the last value of every key, and its size is right |
| HashTrie.HashesTellApart | packages/dvala-types/src/persistent/PersistentMap.ts:28-42 | keys with different 32-bit hashes part ways at some level of the trie |
| Equality.ApproxMeans | packages/dvala-engine/src/utils.ts:124-140 | two numbers are approximately equal if and only if they are equal, nearer than epsilon, or neither zero and nearer than epsilon times the sum of their sizes |
| Equality.NumbersEqual | packages/dvala-engine/src/utils.ts:122-140 | two numbers are deeply equal if and only if they are equal or less than 1e-10 apart, or, unless one is zero, less than 1e-10 of their sizes together |
| Equality.ApproxConvex | packages/dvala-engine/src/utils.ts:124-140 | a number between two positive ones that are approximately equal is so to both |
| Equality.ApproxTransitive | packages/dvala-engine/src/utils.ts:124-140 | approximate equality is transitive if and only if epsilon is not positive |
| Equality.CompareValues | packages/dvala-engine/src/utils.ts:48-101 | the loops over items and keys compute deep equality |
| Equality.DeepEqualMeans | packages/dvala-engine/src/utils.ts:48-101 | a value has no undefined field if and only if it is deeply equal to exactly the values of the same shape with equal leaves at the same places |
| Equality.DeepSymmetric | packages/dvala-engine/src/utils.ts:48-101 | a value has no undefined field if and only if every value that it is deeply equal to is deeply equal to it |
| Equality.UndefinedPasses | packages/dvala-engine/src/utils.ts:86-101 | an object with one undefined field equals an object with another field, but not the other way round |
| CleanPaths.UniqueFilePath | apps/playground-www/src/fileStorage.ts:93-105 | counting comes to an end, at the first number whose candidate is free |
| CleanPaths.FreePathIs | apps/playground-www/src/fileStorage.ts:93-105 | a free path stays; otherwise the first number from two that makes it free stands, between a space with a bracket and a bracket, in front of the last dot of the name |
| CleanPaths.NormalizeOrdinary | apps/playground-www/src/filePath.ts:92-103 | a path of ordinary segments keeps its folders, and its name ends in `.dvala`, whether it had the suffix before, in any case, or not |
| CleanPaths.NormalizeRefuses | apps/playground-www/src/filePath.ts:92-103 | refused are exactly the paths without a segment and those with two dots for one |
| CleanPaths.NormalizeTwice | apps/playground-www/src/filePath.ts:92-103 | cleaning a cleaned path changes nothing if and only if the path has one segment or its first segment does not start with space |
| CleanPaths.SpaceAppears | apps/playground-www/src/filePath.ts:92-103 | such a path, cleaned twice |
| FileStore.NormalizeFiles | apps/playground-www/src/fileStorage.ts:47-90 | the loop computes the normal form, and reports a change if and only if the list is not as it was |
| FileStore.NormalizeDistinct | apps/playground-www/src/fileStorage.ts:47-90 | no two files of the normal form share an identifier or a path |
| FileStore.NormalizeKeeps | apps/playground-www/src/fileStorage.ts:47-90 | the entries with a valid path stay, in order, with everything but identifier and path |
| FileStore.NormalizeAgain | apps/playground-www/src/fileStorage.ts:47-105 | normalizing again changes nothing if and only if every entry's cleaned path is steady and no two entries have the same one where a number in it would not be |
| FileStore.BareSuffixTwice | apps/playground-www/src/fileStorage.ts:47-105 | two files named `.dvala`: the second is called ` (2).dvala`, and renamed the next time |
| SnapshotStore.Workspace.WriteKindedEntries | apps/playground-www/src/snapshotStorage.ts:141-224 | the loops hand over what stays and what is written, which is then normalized |
| SnapshotStore.Workspace.ClearAll | apps/playground-www/src/snapshotStorage.ts:247-249 | the files outside the snapshots folder are handed over, to be normalized |
| SnapshotStore.NewestSorts | apps/playground-www/src/snapshotStorage.ts:109-125 | reading orders newest first, loses nothing, and keeps the order of entries of the same time |
| SnapshotStore.NewestStays | apps/playground-www/src/snapshotStorage.ts:109-125 | a list reads back in the order in which it was written if and only if it is newest first |
| SnapshotStore.PathForIs | apps/playground-www/src/snapshotStorage.ts:226-240 | a snapshot file is named by the time it was saved, in the snapshots folder, with a number behind it if that name is taken |
| SnapshotRuns.WriteKeeps | apps/playground-www/src/snapshotStorage.ts:141-240 | writing leaves a well-formed store if and only if the identifiers fit, and then normalizing renames nothing |
| SnapshotRuns.WriteReads | apps/playground-www/src/snapshotStorage.ts:78-224 | what was written is what is read, of the other kind only what came in is gone, and other files are untouched |
| SnapshotRuns.WrittenNamed | apps/playground-www/src/snapshotStorage.ts:141-224 | the file of each entry written is named by the time at which that entry was saved, and has the time of the write |
| SnapshotRuns.RunKept | apps/playground-www/src/snapshotStorage.ts:133-240 | after every run of writes the store is well-formed, the other files are as they were, and the snapshot files stand for the two lists that the writes leave |
| SnapshotRuns.LastReads | apps/playground-www/src/snapshotStorage.ts:109-139 | right after a run the last kind reads back as it was written, newest first |
| SnapshotRuns.ClearLeaves | apps/playground-www/src/snapshotStorage.ts:247-249 | clearing leaves exactly the files outside the snapshots folder, unchanged |
| ImportPaths.ResolvePlaygroundPath | apps/playground-www/src/playgroundFileResolver.ts:17-33 | the loop over the segments computes the resolution, or that the path climbs past the root |
| ImportPaths.ResolveConcat | apps/playground-www/src/playgroundFileResolver.ts:17-33 | resolving `p/q` is resolving `q` from where `p` leads |
| ImportPaths.ResolvePlain | apps/playground-www/src/playgroundFileResolver.ts:17-33 | from a folder without dots, or from the root, a resolution has no empty segment and no dots |
| ImportPaths.RelativeImportPath | apps/playground-www/src/lsCompletions.ts:91-112 | the loop past the shared folders computes the label |
| ImportPaths.LabelResolves | apps/playground-www/src/lsCompletions.ts:91-112 | a label resolves, from the folder it was made for, to the target without its suffix if and only if the bare name is neither empty nor dots |
| ImportPaths.LabelIsRelative | apps/playground-www/src/lsCompletions.ts:91-112 | a label starts with a dot, and climbs out of exactly those folders of the current file that the target is not in |
| ImportPaths.DotLeadsAstray | apps/playground-www/src/lsCompletions.ts:91-112 | the label of a file named `..dvala` leads to its folder |
| ImportPaths.FolderLabelResolves | apps/playground-www/src/lsCompletions.ts:114-117 | a folder's label, with and without a slash behind it, resolves to the folder |
| ImportPaths.LabelFindsFile | apps/playground-www/src/playgroundFileResolver.ts:57-76 | the label offered for a file, also in a file of the playground folder, from which imports start at the root, finds what is stored under the name without the suffix, failing that the file itself, and nothing in the playground folder |
| ImportPaths.NeverPlayground | apps/playground-www/src/playgroundFileResolver.ts:57-76 | what is found never lies in the playground folder, not even by way of the suffix |
| FileTree.TreePlaces | apps/playground-www/src/fileTree.ts:34-59 | the leaves are exactly the files outside the playground folder, each once and under precisely the folders of its path |
| FileTree.ShownExactly | apps/playground-www/src/fileTree.ts:34-43 | a file is shown, under the folders of its path, if and only if the first of these is not `.dvala-playground` |
| FileTree.TreeSound | apps/playground-www/src/fileTree.ts:44-59 | every folder has the path of its place, none is empty, and siblings have different paths |
| FileTree.TreeOrdered | apps/playground-www/src/fileTree.ts:61-71 | at every depth no file stands in front of a folder, and folders go by their names and files by the last segments of their paths |
| FileTree.TreeFolders | apps/playground-www/src/fileTree.ts:34-59 | there is a folder if and only if some visible file lies in it |
| TreeBuilder.BuildTree | apps/playground-www/src/fileTree.ts:34-71 | inserting into and sorting nested arrays in place builds that tree |
| StateHistory.History.Push | apps/playground-www/src/StateHistory.ts:44-61 | a new text discards what could be redone and drops only the oldest entries, the same text moves the selection; neighbours that differ stay different |
| StateHistory.History.Undo | apps/playground-www/src/StateHistory.ts:63-68 | the cursor goes back by one entry, or nothing happens when there is none, which is if and only if the status said so |
| StateHistory.History.Redo | apps/playground-www/src/StateHistory.ts:70-75 | the cursor goes on by one entry, or nothing happens when undo has left none, which is if and only if the status said so |
| StateHistory.History.Hydrate | apps/playground-www/src/StateHistory.ts:96-106 | the newest entries are taken over, with the cursor where it was from the oldest; neighbours differ if and only if they do among the entries kept |
| StateHistory.UndoThenRedo | apps/playground-www/src/StateHistory.ts:63-75 | redo takes undo back, and undo forgets nothing |
| StateHistory.RedoThenUndo | apps/playground-www/src/StateHistory.ts:63-75 | undo takes redo back, and redo forgets nothing |
| StateHistory.UndoPush | apps/playground-www/src/StateHistory.ts:44-68 | undo after a push brings the former entry back if and only if the cap is not one |
| StateHistory.DistinctKept | apps/playground-www/src/StateHistory.ts:44-61 | a push leaves no two equal texts side by side |
| StateHistory.HydrateSerialized | apps/playground-www/src/StateHistory.ts:96-121 | a serialized history comes back as it was if and only if the receiver has room for it |
| StateHistory.HydrateCursor | apps/playground-www/src/StateHistory.ts:96-106 | a cursor within the entries taken over stays, one below them goes to the first and one beyond them to the last |
| StateHistory.CursorSlips | apps/playground-www/src/StateHistory.ts:96-121 | three entries with the cursor on the second, taken over by a history with room for two: the cursor is on the third |
| MaybePromise.Sequential | packages/dvala-engine/src/maybePromise.ts:27-260 | the loop makes the plain loop's calls in their order and ends with its outcome, and the result is bare if and only if no call made answered with a promise |
| MaybePromise.SomeMeans | packages/dvala-engine/src/maybePromise.ts:140-165 | true if and only if the last call made is the first to be truthy; otherwise every element was tried |
| MaybePromise.EveryMeans | packages/dvala-engine/src/maybePromise.ts:171-196 | false if and only if the last call made is the first to be falsy; otherwise every element was tried |
| MaybePromise.FindIndexMeans | packages/dvala-engine/src/maybePromise.ts:235-260 | the number of the first element with a truthy call, after which no more are made, or -1 |
| MaybePromise.MapMeans | packages/dvala-engine/src/maybePromise.ts:27-54 | every element is tried, and the results are what the calls came back with, in order |
| MaybePromise.ReduceMeans | packages/dvala-engine/src/maybePromise.ts:60-87 | each call builds on the one before, and the last gives the result |
| MaybePromise.FilterMeans | packages/dvala-engine/src/maybePromise.ts:202-229 | the elements whose call is truthy are kept, in order |
| MaybePromise.TryCatchPlain | packages/dvala-engine/src/maybePromise.ts:121-134 | catching gives what plain catching gives, and is bare if and only if whatever ran was |
| TextFormatter.Format | packages/dvala-cli/src/createFormatter.ts:8-23 | the loop that rewrites the text it walks over comes to an end, as one pass from left to right |
| TextFormatter.FormatTags | packages/dvala-cli/src/createFormatter.ts:8-23 | if every rule only puts its own tags around what it matches, the output is the input with pieces of it between the tags of one rule each, whatever the text |
| TextFormatter.ApplyRule | packages/dvala-cli/src/cliFormatterRules.ts:238-282 | the scan for the end pattern, character by character, gives what the rule is specified to answer, an error without an end included |
| TextFormatter.InlineCodeTags | packages/dvala-cli/src/cliFormatterRules.ts:42-153 | for the inline-code rules, patterns within tags and the number rule among them, the output is the input with pieces between tags that belong together, also where the input has escape sequences of its own |
| TextFormatter.NumberColours | packages/dvala-cli/src/cliFormatterRules.ts:42-59 | the number rule only puts its start tag in front of the digits it matches and its end tag behind them |
| TextFormatter.NumberExactly | packages/dvala-cli/src/cliFormatterRules.ts:42-59 | digits are coloured, as a whole, if and only if no character next to them touches them |
| TextFormatter.NumberBehindTag | packages/dvala-cli/src/cliFormatterRules.ts:42-59 | after every match the loop goes on as if there were no number rule, since the tag in front ends in a letter: a number directly behind something coloured is not coloured |

## Left out

- PrintedParsesBack: operands are numbers, user-defined names, the placeholder, calls and logical chains; strings, accessors, and constructs as operands of an operator are covered by the layout theorems only.
- PrintedComesBack: says which nodes come back, not that all others do not; those of which that is known have lemmas of their own. Template strings, quotes, functions in short form, accessors, and calls and operators with a construct for an operand are not read.
- PrintedComesBack: separators that may be left out are not looked at, defaults of the parameters of a function are operator expressions, number literals in patterns are not negative, and the marks `shallow` and `linear` of a handler and type annotations, none of which the printer looks at, are no part of a node.
- PrintedParsesBack: names are those that `NameRoundTrip` finds to be read as one symbol; names of builtins and of special expressions are other kinds of nodes and are not among the operands.
- PrintedParsesBack: of the constructs that words start only `resume` is parsed; what the others are read as is no operator expression, which is all that is said of it.
- SameTokens: text inside a token is not looked at, and the comment hooks of the printer, which are stubs, are not modelled.
- EmptyChainBreaks: the width test itself (80 columns, two per indent) is one of the layouts; its numbers matter to `EmptyChainOnPage` only, where the widths of the texts are a parameter.
- LsWorker: the analysis behind a reply is a parameter; two requests handled at the same time, which the worker can interleave, are handled one after the other.
- RunKept: markers, hover texts, merged maps, the workspace index and the hooks for other code are not part of the client's state; the order in which joined hovers are settled is not kept.
- HostRoundTrip: numbers are reals, and a host object is a list of entries with distinct keys.
- AssocView: the bitmap is a list of slots, strings are sequences of 16-bit units, and the transient builder is not modelled.
- Push: `lastStatus` and the statuses scheduled for the listener are in `Valid`; the microtask that delivers them is not.
- Sequential: the seven loops are instances of one, with callbacks as functions of the calls made so far.
- WriteKindedEntries: JSON is abstracted to a payload that is there or not, and identifiers come in as fresh parameters.
- InlineCodeTags: regular expressions are functions to the length of the match; the markdown rules, which drop their delimiters, and the template-string rule are left out.
- TreeOrdered: `localeCompare` is a total preorder.
- The import completion lists, `compare`, `smartTrim`, `collHasKey` and the small set helpers would only add easy members.
- Navigation, completion ranking, the workspace index, the debugger and all user-interface code are not part of this model.
