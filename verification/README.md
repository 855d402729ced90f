# libraft: the tokenizer and the shared-memory call protocol, verified

libraft is a C and C++ interface to a Raft implementation that runs in another
process. This project models its two hard parts in Dafny and proves what they
are for. Nothing here executes the original program.

**The jsmn tokenizer** (`zserge-jsmn/jsmn.c`), which reads the statistics that
the Raft process reports. It makes one pass, can be resumed, and keeps its
nesting stack only as "open" entries of the caller's token array.

- `JsmnLexer` scans primitives and strings, and relates the string scan to the grammar of section 7 of RFC 8259.
- `JsmnMachine` is one loop iteration and the whole loop as functions, for the four builds (strict or not, with or without parent links), with and without a token array. It also holds the invariant that every exit keeps.
- `JsmnTokenizer` is the imperative parser: fields and an array changed in place by nested loops with rewinds and backward scans. It is proved against `JsmnMachine.Run`.
- `JsmnResume`, `JsmnCounting`, `JsmnNesting`, `JsmnSizes` and `JsmnLinks` hold the theorems about resuming, counting, bracket structure, the `size` fields and the second algorithm. `JsmnCursors` follows the cursors of both algorithms, which decide whether they agree on the sizes.
- `JsonGrammar` has JSON values with arbitrary white space, their text, and their pre-order flattening. `JsmnCorrect` proves that parsing the text gives the flattening. `JsonStandard` writes the character classes of RFC 8259 out by themselves and proves it for every standard document. `JsmnAccepted` says what an accepted text is made of, and `JsmnExtend` what the two failures mean.
- `JsonDump` and `StatsPrinter` are the two consumers of token arrays, on any accepted text. `TokenWalks` says what they find on the tokens of a document.

**The call protocol** (`queue.h`, `raft_shm.h`, `raft_shm.cc`, `raft_c_if.cc`):
calls travel in slots in shared memory, through bounded queues, between client
threads, the Raft process, the FSM (client state machine) worker, the snapshot
worker and the orphan collector.

- `CondVar`, `RingQueue`, `RingClose` and `ClosableDeque` are the two queues: the classes, and step machines for any number of threads with notifications, spurious wakeups, `close` and `reset`.
- `CallSlots` is one slot. `CallProtocol` is the step machine of API calls, in which using a freed slot, replying twice and so on are explicit faults. `CallSafety` is the inductive invariant, one record at a time, and `CallRuns` states what holds over all runs. `CallAnswers` says which answer a client gets.
- In these machines a queue is the sequence of its items. `QueueRefinement` sets each of the four queues beside the class that provides it, step by step. `CallQueues` and `FsmQueues` run a protocol and its two queues together, thread by thread, and show that every such run is a run of the protocol whose queues hold exactly the protocol's items.
- `OrphanGc` is the collector: its scan loop, and how it drains.
- `FsmProtocol`, `FsmSafety` and `FsmRuns` do the same for the FSM side, for any client state machine. `FsmAnswers` says which answer the Raft process gets to its requests. `FsmWorker` is the workers' code on slot objects.
- `LetterCount` is the example state machine of `raft_client.c`.

## What the code does differently from what one might expect

- `jsmn_parse` returns the number of tokens it added in this call. After a resumed parse that is less than the number of tokens in the array (`JsmnResume.Resume`).
- Resuming a non-strict parse inside an unquoted primitive does not give the tokens of one parse. `JsmnResume.ResumeExact` says exactly when it does.
- The build with parent links skips an unmatched closing bracket once there is a token, where the default build reports an error. `JsmnLinks.LinksAgreeOnText` says for which texts the two agree on types, spans and result.
- Even where both accept a text, the two builds can give different sizes: on `{"a":[]"b"}` the object and the key have sizes 2 and 1 in the default build, 1 and 2 with parent links (`JsmnCursors.SizesExample`). `JsmnCursors.SizesAgreeOnText` says for which texts they agree on sizes too; all documents are among them.
- At `,`, and at a strict primitive, with no superior token the code reads the token before the array. In the default build the parser does not depend on what it reads there (`JsmnTokenizer.Tokenizer.CommaCase`). The builds with links (`,`) and the strict builds (primitives) do depend on it; they are modelled with index -1 as "no superior".
- Strings may hold control characters, and the default build takes any run of printable characters as a value (`JsonStandard.LooseBodyIff`, `JsonStandard.BareWordIff`).
- `JSMN_ERROR_PART` does not always mean that more text helps: after a NUL byte nothing more is read (`JsmnExtend.CanSucceedIff`).
- A strict build never accepts a lone literal with nothing behind it (`JsmnCorrect.StrictLoneLiteral`).
- `ArrayBlockingQueue` tests `closed` before it locks, so a thread can fall asleep after `close`, and can be left asleep with nobody able to run. `RingClose.ConsumerAsleepAfterClose` and `RingClose.ProducerAsleepAfterClose` say exactly when for both.
- `raft_print_stats` trusts the `size` of the root token, and `dump` all sizes. On a text that is no JSON document but accepted by the non-strict tokenizer, such as an object with a key and no value, both can read tokens that the parse has not made (`StatsPrinter.StatsPastExample`, `JsonDump.DumpPastExample`). `StatsPrinter.StatsPastIff` and `JsonDump.DumpTextPastIff` say exactly when; on documents neither does (`StatsPrinter.StatsOfDocument`, `JsonDump.DumpOfDocument`).
- `Deque::poll_until` can report a timeout after it was notified, and the notification is then gone. `ClosableDeque.StepAwake` says exactly when that loses a wakeup. With one consumer, as in this program, it never does (`ClosableDeque.OneConsumerRun`).

## Model

| member | source | states |
|---|---|---|
| JsmnLexer.ScanStringAccepts | zserge-jsmn/jsmn.c:95-145 | every string body of the grammar, followed by a quote, is scanned exactly to that quote |
| JsmnLexer.ScanStringSound | zserge-jsmn/jsmn.c:95-145 | conversely, whatever the scan accepts is the text of some string body |
| JsmnLexer.ScanStringStable | zserge-jsmn/jsmn.c:86-148 | a string that ended or failed inside a text does so in every longer text |
| JsmnLexer.ScanBareStable | zserge-jsmn/jsmn.c:37-81 | the same for a primitive that did not reach the end of the text or is followed by a delimiter |
| JsmnLexer.ScanBareCut | zserge-jsmn/jsmn.c:44-63 | a primitive cut by the end of the text reads on in a longer one |
| JsonStandard.ClassesAreStandard | zserge-jsmn/jsmn.c:119-134 | white space, escapes and hexadecimal digits are exactly those that RFC 8259 lists |
| JsonStandard.StandardParses | zserge-jsmn/jsmn.c:153-300 | every JSON text of RFC 8259, its character classes in literals, is parsed by every build with enough tokens into its pre-order nodes |
| JsonStandard.BareWordIff | zserge-jsmn/jsmn.c:260-276 | an unquoted value is exactly a word of the characters `!` to `~` without `,` `]` `}` `:`, with the first character of a strict build as listed, of the others no bracket or quote |
| JsonStandard.LooseBodyIff | zserge-jsmn/jsmn.c:95-145 | a string body is exactly a standard one, control characters other than NUL admitted |
| JsonStandard.InvalidStringIff | zserge-jsmn/jsmn.c:115-144 | wherever the parser meets a string, it is invalid if and only if, behind a good beginning, a backslash is followed by a character that the standard does not allow there, or `u` by less than four digits and another character |
| JsmnAccepted.ReadTextIsExplained | zserge-jsmn/jsmn.c:160-299 | at every exit each character read is structure, white space, or in a string or bare word that is a token with that span; a success has read the whole text |
| JsmnExtend.NulEndsText | zserge-jsmn/jsmn.c:160 | what follows a NUL byte is never read |
| JsmnExtend.StringCanEndIff | zserge-jsmn/jsmn.c:95-147 | some longer text ends a string if and only if it has ended, or is cut short with no NUL byte in it |
| JsmnExtend.InvalLasts | zserge-jsmn/jsmn.c:160-299 | a text found invalid stays so with any longer text and larger array |
| JsmnExtend.CanSucceedIff | zserge-jsmn/jsmn.c:292-299 | for every text, in every build, unless tokens run out: some longer text with a larger array is accepted if and only if the run succeeds, or asks for more and the text has no NUL byte |
| JsmnMachine.ChainMeetsLastOpen | zserge-jsmn/jsmn.c:192-218 | if every open token is on the parent chain of a token, the chain walk from it finds what the backward scan finds |
| JsmnMachine.StepSane | zserge-jsmn/jsmn.c:160-290 | every lexeme of any text keeps: the superior is -1 or an index, -1 (without links) only if nothing is open, open tokens are containers, parents point backwards, with links every open token is on the chain |
| JsmnMachine.CommaSane | zserge-jsmn/jsmn.c:242-259 | the superior chosen at a comma keeps that invariant |
| JsmnMachine.RunSane | zserge-jsmn/jsmn.c:153-300 | every exit, errors included, keeps it; position and token count never go back; a success returns the number of tokens added |
| JsmnTokenizer.Tokenizer.constructor | zserge-jsmn/jsmn.c:306-310 | a new parser is the fresh parser |
| JsmnTokenizer.Tokenizer.Init | zserge-jsmn/jsmn.c:306-310 | jsmn_init makes any parser the fresh parser |
| JsmnTokenizer.Tokenizer.AllocToken | zserge-jsmn/jsmn.c:8-21 | the next token, cleared, or nothing if the array is used up |
| JsmnTokenizer.Tokenizer.StoreToken | zserge-jsmn/jsmn.c:26-32 | the token is appended with its type, span and parent, or the array is used up and nothing changes |
| JsmnTokenizer.Tokenizer.ParsePrimitive | zserge-jsmn/jsmn.c:37-81 | the loop finds the end that the scan defines; a failure leaves the parser as it was |
| JsmnTokenizer.Tokenizer.SkipHex | zserge-jsmn/jsmn.c:125-138 | the loop over the hex digits of an escape agrees with the scan |
| JsmnTokenizer.Tokenizer.SeekQuote | zserge-jsmn/jsmn.c:95-147 | the loop with its escapes finds the closing quote that the scan defines |
| JsmnTokenizer.Tokenizer.ParseString | zserge-jsmn/jsmn.c:86-148 | the token of the string, or a rewind with the right error |
| JsmnTokenizer.Tokenizer.OpenBracket | zserge-jsmn/jsmn.c:166-183 | a new open container under the superior, which becomes the superior, or lack of tokens |
| JsmnTokenizer.Tokenizer.FindOpen | zserge-jsmn/jsmn.c:208-227 | the backward loop finds the last open token below an index |
| JsmnTokenizer.Tokenizer.CloseBracketScan | zserge-jsmn/jsmn.c:208-227 | closes the innermost open container of the right kind and makes the next one the superior, or fails and changes nothing |
| JsmnTokenizer.Tokenizer.CloseBracketLinks | zserge-jsmn/jsmn.c:188-206 | the same by the parent chain |
| JsmnTokenizer.Tokenizer.CommaCase | zserge-jsmn/jsmn.c:242-259 | the superior after a comma, whatever lies before the array |
| JsmnTokenizer.Tokenizer.StringCase | zserge-jsmn/jsmn.c:230-236 | the string token, counted in its superior's size |
| JsmnTokenizer.Tokenizer.PrimitiveCase | zserge-jsmn/jsmn.c:260-288 | the primitive token, counted in its superior's size, or the strict refusal as a key |
| JsmnTokenizer.Tokenizer.Iterate | zserge-jsmn/jsmn.c:160-290 | one iteration of the main loop is one step of the machine |
| JsmnTokenizer.Tokenizer.Parse | zserge-jsmn/jsmn.c:153-300 | parser, tokens and result of jsmn_parse, in every build, with or without tokens, from any parser state, are those of the machine |
| JsmnResume.StepStable | zserge-jsmn/jsmn.c:160-290 | a successful step is the same on every longer text with every larger array |
| JsmnResume.UndecidedIsLast | zserge-jsmn/jsmn.c:44-80 | a primitive that reaches the end of the text is the last token of its run |
| JsmnResume.Resume | zserge-jsmn/jsmn.c:59-63 | after any exit, calling again with a longer text and a larger array gives parser, tokens and error of one run, and counts the remaining tokens; strict builds for every split, others for every split outside a primitive |
| JsmnResume.EnoughIsEnough | zserge-jsmn/jsmn.c:11-13 | once the array is large enough, a larger one gives the same parse |
| JsmnResume.ReplayIsOneRun | zserge-jsmn/jsmn.c:292-297 | any number of calls with growing texts and arrays ends where one call with the last ones ends |
| JsmnResume.LastCallVerdict | zserge-jsmn/jsmn.c:292-299 | and the last call's error or success is that of one call |
| JsmnResume.GrowAfterNoMem | zserge-jsmn/jsmn.c:70-74 | growing the array after lack of tokens loses nothing, for every text |
| JsmnResume.RunKeepsClosed | zserge-jsmn/jsmn.c:153-300 | a closed token never changes its type or span again |
| JsmnResume.CutNotInOneRun | zserge-jsmn/jsmn.c:44-58 | one run over the longer text has no primitive that ends at the cut |
| JsmnResume.ResumeExact | zserge-jsmn/jsmn.c:44-63 | in the default build continuing equals one fresh run if and only if the split is not inside a primitive |
| JsmnResume.CutExample | zserge-jsmn/jsmn.c:44-63 | a concrete text and split inside a primitive |
| JsmnCounting.CountAgrees | zserge-jsmn/jsmn.c:66-69 | a successful parse with tokens and the count without tokens return the same |
| JsmnCounting.CountSuffices | zserge-jsmn/jsmn.c:167-170 | as many tokens as were counted never run out |
| JsmnCounting.CountIsTheNeed | zserge-jsmn/jsmn.c:100-107 | the count n: n or more tokens never run out, fewer never succeed, and any success returns n |
| JsmnCounting.TextBoundsTokens | zserge-jsmn/jsmn.c:11-13 | on any text, more tokens than characters never run out |
| JsmnCounting.OnlyNoMem | zserge-jsmn/jsmn.c:171-173 | a text that some array is large enough for fails with a smaller one only for lack of tokens |
| JsmnNesting.LoopHeadInv | zserge-jsmn/jsmn.c:160-290 | at every loop head of any text, in every build: starts strictly increase, spans are nested or disjoint, each closed container ends at the match of its own bracket, and a recogniser started on an open one still has it on its stack |
| JsmnNesting.SuccessIsMatched | zserge-jsmn/jsmn.c:184-229 | success: every container token spans a bracket of its own kind and the bracket that matches it, by a pushdown recogniser started on it alone |
| JsmnNesting.MatchIsUnique | zserge-jsmn/jsmn.c:184-229 | a bracket has at most one match |
| JsmnNesting.SuccessIsClosed | zserge-jsmn/jsmn.c:292-297 | success: no token is open |
| JsmnNesting.LoopHeadStack | zserge-jsmn/jsmn.c:160-228 | at every loop head, in every build, the open tokens are exactly the stack of a pushdown recogniser, the unmatched brackets outside strings and primitives |
| JsmnNesting.RunRecognises | zserge-jsmn/jsmn.c:160-299 | with enough tokens a non-strict build, with or without links, gives the recogniser's verdict and count, from any loop head; what a strict build accepts, the recogniser accepts with the same count |
| JsmnNesting.VerdictIsRecogniser | zserge-jsmn/jsmn.c:153-300 | the same from a fresh parser |
| JsmnSizes.SizesAddUp | zserge-jsmn/jsmn.c:174-183 | at every loop head, hence every exit, the sizes add up to the tokens made under a superior |
| JsmnSizes.LoopHeadChildren | zserge-jsmn/jsmn.c:174-179 | with links, each size is the number of tokens naming that token as parent, and parents strictly decrease |
| JsmnSizes.StrictPrimitives | zserge-jsmn/jsmn.c:264-272 | in strict builds with links no primitive is ever stored right under an object, or under a string that already has a child |
| JsmnLinks.LinksAgreeIff | zserge-jsmn/jsmn.c:188-228 | from any loop head, the two algorithms agree on types, spans, position and result if and only if the scan does not stop before an unmatched closing bracket |
| JsmnLinks.LinksAgreeOnText | zserge-jsmn/jsmn.c:188-228 | for every text and array size the two agree on types, spans, position and result if and only if the text has no closing bracket that the recogniser meets with an empty stack, after a lexeme that makes a token and before the array is used up |
| JsmnLinks.UnmatchedDiffers | zserge-jsmn/jsmn.c:202-220 | at an unmatched closing bracket the scan fails and the chain walk goes on |
| JsmnLinks.LinksAgreeOnSuccess | zserge-jsmn/jsmn.c:188-228 | whatever the default algorithm accepts, the other accepts with the same count, types and spans |
| JsmnLinks.LinksAgreeOnDocuments | zserge-jsmn/jsmn.c:188-257 | on every JSON document both give the same types, spans and sizes, in strict and other builds |
| JsmnLinks.UnmatchedExample | zserge-jsmn/jsmn.c:202-220 | `[]]` is refused by one and accepted by the other |
| JsmnCursors.StepTracks | zserge-jsmn/jsmn.c:160-288 | each lexeme moves both cursors along the parent chain of the newest token as two counters over a stack of marks move, read off the text alone |
| JsmnCursors.DriftLasts | zserge-jsmn/jsmn.c:174-179 | a token stored while the cursors differ makes some size differ, and it still differs at the end of the two runs |
| JsmnCursors.SizesAgreeOnText | zserge-jsmn/jsmn.c:153-300 | for every text and array size the two algorithms agree on every token, sizes included, and on the result, if and only if the text stores no token while the two counters differ and has no unmatched closing bracket after a token, before the array is used up or the text refused |
| JsmnCursors.DocumentsDoNotPart | zserge-jsmn/jsmn.c:153-300 | no document is such a text, so the two agree on every document, also if the array is too small |
| JsmnCursors.SizesExample | zserge-jsmn/jsmn.c:202-227 | `{"a":[]"b"}`: both accept it with four tokens and give different sizes |
| JsonGrammar.StandardLiterals | zserge-jsmn/jsmn.c:260-276 | every number of section 6 of RFC 8259 and true, false, null are primitives of both kinds of build |
| JsonGrammar.DenotesMeans | zserge-jsmn/jsmn.c:26-32 | what it means that tokens denote nodes: index by index the type, start, size, and the slice of the text |
| JsmnCorrect.ParseIsPreorder | zserge-jsmn/jsmn.c:153-300 | for every JSON value with any white space, in every build with enough tokens: success, the token count, the whole text read, and exactly the pre-order flattening |
| JsmnCorrect.ParseIndexByIndex | zserge-jsmn/jsmn.c:153-300 | the same index by index: types, spans with the rendered text, array size, object size, key size |
| JsmnCorrect.StrictLoneLiteral | zserge-jsmn/jsmn.c:59-63 | the one kind of document that a strict build does not accept |
| JsonDump.Dump | zserge-jsmn/example/jsondump.c:12-46 | on any closed tokens, dump is the walk: what it prints and how many tokens it uses, or that it reads past the tokens |
| JsonDump.DumpItems | zserge-jsmn/example/jsondump.c:23-44 | the same for the loops over members and elements |
| JsonDump.DumpItem | zserge-jsmn/example/jsondump.c:26-42 | one turn of those loops |
| JsonDump.DumpTree | zserge-jsmn/example/jsondump.c:12-46 | on the tokens of any part of a document the walk uses exactly that part's tokens and prints exactly that part |
| JsonDump.DumpPastIff | zserge-jsmn/example/jsondump.c:26-43 | a walk reads past the tokens if and only if up to every point the tokens want at least as many others as there are; otherwise it ends where that first fails |
| TokenWalks.TooFewTokens | zserge-jsmn/jsmn.c:70-74 | a document with more nodes than tokens runs out of tokens, and fails in no other way |
| TokenWalks.LoneKeyRun | zserge-jsmn/jsmn.c:166-236 | the default build accepts an object with a key and no value |
| JsonDump.Doubled | zserge-jsmn/example/jsondump.c:97-98 | the doubled array begins with the old one |
| JsonDump.ParseGrowing | zserge-jsmn/example/jsondump.c:93-104 | on any text, parsing from two tokens on and doubling after each lack of tokens ends, with the tokens and verdict of one parse with the final array |
| JsonDump.DumpText | zserge-jsmn/example/jsondump.c:93-108 | the loop and the dump on any text: refused with the error of the parse, or the walk over the tokens of a parse with enough of them |
| JsonDump.DumpOfDocument | zserge-jsmn/example/jsondump.c:93-108 | a document is printed whole |
| JsonDump.DumpTextPastIff | zserge-jsmn/example/jsondump.c:93-108 | exactly which texts make dump read a token that the parse has not made |
| JsonDump.DumpPastExample | zserge-jsmn/example/jsondump.c:28-30 | such a text |
| StatsPrinter.PrintPairs | raft_c_if.cc:583-597 | the loop with its index arithmetic is the walk over the members, on any closed tokens |
| StatsPrinter.PrintStats | raft_c_if.cc:560-597 | on any text: null pointer, parse error, no object, or the walk over the tokens of the parse into 64 |
| StatsPrinter.StatsOfDocument | raft_c_if.cc:567-597 | for every JSON document: more than 64 tokens, no object, or exactly the string members in order and the position of the first other one, and never a token that the parse did not make |
| StatsPrinter.WalkPastIff | raft_c_if.cc:583-592 | the loop reads past the tokens if and only if all tokens from there on are strings, a member is left, and twice the claimed size is at least their number; a value token is looked at only behind a string key |
| StatsPrinter.StatsPastIff | raft_c_if.cc:567-597 | the same for the whole function on any text, with the root an object |
| StatsPrinter.StatsPastExample | raft_c_if.cc:583-592 | such a text |
| StatsPrinter.StatsOfStrings | raft_c_if.cc:567-597 | an object of k string members has 1 + 2k tokens, at most 64 if and only if k is at most 31, and none of its members stops the walk |
| StatsPrinter.StatsOfStringObject | raft_c_if.cc:567-597 | so such an object is printed whole if k is at most 31, and is a parse error otherwise |
| RingQueue.PushAppends | queue.h:47-48 | storing at the head appends to the contents, through any wrap-around |
| RingQueue.PopRemoves | queue.h:61-62 | taking at the tail removes the oldest |
| RingQueue.ArrayBlockingQueue.constructor | queue.h:97-105 | empty, open, indices zero |
| RingQueue.ArrayBlockingQueue.TryPut | queue.h:41-50 | under the lock: full means wait, else the item is appended in place |
| RingQueue.ArrayBlockingQueue.TryTake | queue.h:55-65 | under the lock: empty means wait, else the oldest item leaves |
| RingQueue.StepFifo | queue.h:38-73 | every step of every thread keeps taken + stored = put, in lock order |
| RingQueue.StepAwake | queue.h:38-73 | every step before close keeps the accounts of sleepers and signals |
| RingQueue.EveryRun | queue.h:38-89 | in every run of any threads: indices in bounds, head = (tail + count) mod capacity, FIFO history, and before close no lost wakeup for consumers or producers |
| RingQueue.NoDeadlock | queue.h:38-65 | before close, if all threads sleep then they are consumers of an empty queue or producers of a full one, never both |
| RingClose.ConsumerAsleepAfterClose | queue.h:54-73 | close wakes all sleepers; a later run can put a consumer to sleep if and only if more consumers were past the first test than items were stored, and can leave one asleep at a standstill if and only if more were past it than items stored and producers past the test together, or than cells |
| RingClose.ProducerAsleepAfterClose | queue.h:40-73 | the same for producers and free cells |
| ClosableDeque.Deque.Put | queue.h:118-133 | appends, or throws if closed |
| ClosableDeque.Deque.Take | queue.h:135-146 | throws if closed, waits if empty, else removes the oldest |
| ClosableDeque.Deque.Reset | queue.h:175-181 | open and empty |
| ClosableDeque.WakesAll | queue.h:168-181 | `close` and `reset` leave nobody asleep and lose no thread; any other step wakes one thread at most |
| ClosableDeque.StepAwake | queue.h:118-181 | a step loses a wakeup if and only if it is the timeout of a notified thread that a sleeper needed |
| ClosableDeque.UntimedRun | queue.h:118-181 | with untimed waits every run, with any closes and resets, is FIFO since the last reset, loses no wakeup, and leaves nobody asleep on a closed deque |
| ClosableDeque.OneConsumerRun | queue.h:148-166 | with one consumer, timed or not: if it sleeps, the deque is empty and open |
| ClosableDeque.TimedWaitSwallows | queue.h:154-157 | with two consumers a run in which an item lies in the deque while one sleeps unsignalled |
| QueueRefinement.RingStep | queue.h:38-65 | a step of the ring appends the offered item, removes the oldest, or leaves the contents |
| QueueRefinement.ApiPut | raft_shm.h:332-333 | a producer on the API queue stores exactly if the protocol's send can happen, with the same queue afterwards, and else sleeps |
| QueueRefinement.ApiTake | queue.h:52-65 | a consumer on the API queue takes exactly what the protocol's take takes, and sleeps if it cannot |
| QueueRefinement.FsmPut | raft_shm.h:351-355 | the same for sending on the FSM queue |
| QueueRefinement.FsmTake | raft_c_if.cc:415 | and for the FSM worker's take |
| QueueRefinement.OrphanPut | raft_shm.cc:172-176 | putting an orphan into the deque is the protocol's tracking step, lost if and only if the deque is closed |
| QueueRefinement.OrphanTake | raft_shm.cc:191-196 | the collector gets an item from the deque exactly if the protocol lets it take one |
| QueueRefinement.SnapshotPut | raft_c_if.cc:507 | handing a snapshot over is the protocol's step |
| QueueRefinement.SnapshotTake | raft_c_if.cc:516 | and so is the snapshot worker's take |
| CallQueues.JointStep | queue.h:38-181 | whatever step a thread in the ring or the deque takes, the protocol can take its partner, and every joint step keeps: ring and deque hold the protocol's queues in order, their closed flags agree, and each thread in put offers a slot of its own that is being sent |
| CallQueues.QueuesHoldTheCalls | raft_shm.h:332-341 | in every joint run from the start the queues hold exactly the protocol's, what was taken and what is queued is what was put, and the protocol's part is a run of the protocol, so all its theorems apply |
| FsmQueues.JointStep | raft_c_if.cc:413-516 | the same for the FSM ring and the snapshot deque |
| FsmQueues.QueuesHoldTheRequests | raft_c_if.cc:413-516 | in every joint run the ring holds exactly the requests not yet taken, in order, the deque the snapshots handed over, and the protocol's part is a run of the protocol |
| CallSlots.BaseSlot.constructor | raft_shm.cc:366-373 | a new slot is Pending, Issued, without error |
| CallSlots.BaseSlot.ReplyError | raft_shm.cc:380-387 | the slot becomes terminal with that error and its old value, Success if and only if the error is RAFT_SUCCESS |
| CallSlots.BaseSlot.ReplyValue | raft_shm.cc:389-393 | success with the value |
| CallSlots.BaseSlot.Wait | raft_shm.cc:396-402 | terminal and Observed; the answer of a terminal slot is untouched |
| CallSlots.BaseSlot.GetPtr | raft_shm.h:221-239 | waits only if needed; the error of the slot, or of the misuse; the value is stored if and only if the call has one, the pointer is usable and there is no error; after a wait that is the reply that ended it |
| CallSlots.AnswerIsFetched | raft_shm.h:221-239 | of a slot that was answered: the value with no error, the error with nothing stored, and the two misuse errors |
| CallSlots.BaseSlot.Dispose | raft_shm.h:248-267 | Issued: marked Abandoned and tracked; Observed: freed; Abandoned: cleaned up and freed |
| CallSafety.ClientLocalOk | raft_shm.h:248-267 | no step of a client is a fault, and each keeps the record in order |
| CallSafety.RaftLocalOk | raft_shm.cc:380-393 | the same for the Raft process, with reply as separate writes under the lock |
| CallSafety.TryDisposeOk | raft_shm.cc:230-242 | the collector frees exactly the terminal unlocked slots, without a fault |
| CallSafety.StepKeeps | raft_shm.cc:182-242 | every step of every actor keeps the invariant of the whole system and is no fault |
| CallRuns.NothingEverGoesWrong | raft_shm.cc:230-242 | in every run nobody touches or frees a freed slot, replies twice, tracks an orphan twice, or reads or frees a freed buffer |
| CallRuns.FreedOnlyWhenQuiet | raft_shm.h:248-267 | a slot is freed only when terminal, unlocked and in nobody's queue or hands, by its client after wait or by the collector if Abandoned |
| CallRuns.FreedForever | raft_shm.h:255-265 | a freed slot is never live again, so none is freed twice |
| CallRuns.ResultsAreStable | raft_shm.h:221-239 | once terminal, state, error and value never change until the slot is freed, every get_ptr gives the same answer, and Success means RAFT_SUCCESS |
| CallRuns.SleeperIsSignalled | raft_shm.cc:396-402 | a client still asleep in wait has a slot that is not terminal |
| CallRuns.RepliedOnce | raft_shm.h:332-341 | a slot is replied to at most once, a refused one never, and a terminal one that was not refused has been replied to |
| CallAnswers.AnswerGetsThrough | raft_shm.cc:380-393 | in every run in which an answer is written to a slot: once terminal, state, error and value are that answer's and get_ptr gives it; it is the only one, and the slot was not refused |
| CallAnswers.RefusalGetsThrough | raft_shm.h:332-341 | a slot refused by a closed queue has the error RAFT_E_IN_SHUTDOWN, one refused when made its reason, and get_ptr gives it |
| CallAnswers.NoAnswerYet | raft_shm.cc:366-373 | before that the slot has no error and no value, and is Dispatched if and only if the Raft process has marked it |
| CallAnswers.WaitReturns | raft_shm.cc:396-402 | wait returns if and only if the slot is terminal, marks it Observed and leaves the answer; else it sleeps |
| CallRuns.Conservation | raft_shm.h:316-322 | call_alloc - call_free is the number of slots held by clients, queued, backlogged, in the collector's hand, or lost to a closed orphan queue; the places are disjoint; nothing is lost before the close; all tracked slots are Abandoned |
| CallRuns.BufferHasOneOwner | raft_shm.cc:357-364 | a command buffer is freed by the collector if its call was never waited for, else only by the client, and never twice |
| OrphanGc.Collector.TryDisposeOrphan | raft_shm.cc:230-242 | frees the slot, and an Apply buffer, if and only if it is terminal and unlocked |
| OrphanGc.Collector.ScanOne | raft_shm.cc:219-227 | one turn of the scan: erase or move on |
| OrphanGc.Collector.ScanOrphans | raft_shm.cc:217-228 | the loop keeps exactly the slots that are not disposable, in order, frees the others, and touches nothing else |
| OrphanGc.ScanIsRun | raft_shm.cc:217-228 | an undisturbed scan is a run of the protocol with the same result |
| OrphanGc.ScanIsSafe | raft_shm.cc:230-242 | in every reachable state the backlog has no slot twice and only live abandoned ones |
| OrphanGc.WholeScan | raft_shm.cc:217-228 | from every reachable state in which a scan starts, the protocol can complete it as the loop does |
| OrphanGc.DrainRun | raft_shm.cc:182-215 | if all tracked slots are terminal and unlocked, every step of the collector lowers a measure, and frees + tracked stays the same |
| OrphanGc.DrainProgress | raft_shm.cc:189-210 | while the collector has a slot it can take a step |
| OrphanGc.Drained | raft_shm.cc:182-242 | it stops within a bound, and then queue, backlog and hand are empty and call_free has risen by exactly their number |
| FsmWorker.SendRequest | raft_shm.h:324-343 | the new slot is queued; or, if the queue is closed, the exception, or an error slot in no queue |
| FsmWorker.MakeErrorRequest | raft_shm.h:357-365 | a terminal slot with that error |
| FsmWorker.Workers.FsmWorkerStep | raft_c_if.cc:413-493 | takes one request and dispatches it: state machine, slot and snapshot queue afterwards, by kind of request |
| FsmWorker.Workers.RunSnapshotJob | raft_c_if.cc:524-546 | success if and only if the file was opened, written and closed, else RAFT_E_OTHER; writes the copied state |
| FsmWorker.TurnIsRun | raft_c_if.cc:413-440 | in every reachable state with a free worker and a queued request, that request is Pending and the protocol can do what FsmWorkerStep does |
| FsmWorker.JobIsRun | raft_c_if.cc:512-546 | in every reachable state with a free snapshot worker and a queued job, that request is not terminal and the protocol can do what RunSnapshotJob does |
| FsmSafety.WorkerLocalOk | raft_c_if.cc:413-508 | no step of the FSM worker is a fault, each keeps the record in order, and only running a request changes the state machine |
| FsmSafety.SnapLocalOk | raft_c_if.cc:512-546 | the same for the snapshot worker; its reply is a success exactly if it has written |
| FsmSafety.StepKeeps | raft_c_if.cc:399-546 | every step of every thread keeps the invariant of the whole FSM side and is no fault |
| FsmRuns.NothingEverGoesWrong | raft_c_if.cc:377-440 | in every run: a request taken is Pending, nobody locks a slot it holds even if a snapshot is completed inside begin_snapshot, nobody replies twice or touches a freed request |
| FsmRuns.RepliesByKind | raft_c_if.cc:442-493 | at most one reply; exactly one for a command or restore once the worker leaves it; none for other log types |
| FsmAnswers.AnswersAreTrue | raft_c_if.cc:377-493 | in every run, of an answered request: a snapshot handed over is a success if and only if it was written, a restore if and only if it was loaded, a command always; failures have RAFT_E_OTHER |
| FsmAnswers.CommandAnswer | raft_c_if.cc:470-478 | a command is answered with what apply returned for it |
| FsmAnswers.CompletionAnswer | raft_c_if.cc:377-384 | a snapshot completed inside begin_snapshot is answered with what the client said |
| FsmAnswers.WriteAnswer | raft_c_if.cc:524-546 | a snapshot job is answered with whether it succeeded, and has then written the state before its request |
| FsmRuns.SnapshotIsCut | raft_c_if.cc:480-546 | what a snapshot job writes is the state after exactly the requests before its own |
| FsmRuns.RestoredCatchesUp | raft_c_if.cc:486-508 | another system, from any state, that restores it and gets the later requests ends in the same state, for any state machine and all interleavings of both |
| LetterCount.DecimalDigits | raft_client.c:117 | the decimal text of a number reads as that number |
| LetterCount.SaveRestore | raft_client.c:89-117 | the text of a saved count is digits and a newline, and reading it back gives the count |
| LetterCount.ScanReads | raft_client.c:94 | fscanf of any white space, sign, leading zeros, number and rest gives the number, or its negative, modulo 2^32 |
| LetterCount.ScanRefuses | raft_client.c:94 | and without a digit it fails |
| LetterCount.LettersCounted | raft_client.c:54-61 | what is counted is the number of positions before the first NUL that hold `A` to `Z` or `a` to `z` |
| LetterCount.LettersJoin | raft_client.c:54-61 | counts of joined texts add up, and what follows a NUL does not count |
| LetterCount.CaseIsNothing | raft_client.c:54-61 | changing the case of letters does not change the count |
| LetterCount.LetterCounter.UpdateCount | raft_client.c:51-68 | the loop adds the number of letters before the first NUL, modulo 2^32 |
| LetterCount.LetterCounter.BeginSnapshot | raft_client.c:77-87 | called by the worker inside begin_snapshot: the copy is the value that the hand-over step queues for the snapshot worker, and the file written from it restores the count of that moment |
| LetterCount.LetterCounter.Restore | raft_client.c:89-111 | takes the value over if the file opens, parses and closes, else keeps the count |
| LetterCount.CountIsTotal | raft_client.c:51-75 | without restores the count is the total of letters of all commands modulo 2^32 |
| LetterCount.FileCatchesUp | raft_client.c:77-126 | a snapshot file restored elsewhere and followed by the later requests gives the same count |

## Left out

- JsmnTokenizer.Tokenizer.Parse: positions are unbounded, where the source keeps them in an `unsigned int` and an `int`; and with no superior token the builds with links and the strict builds do not look at the token before the array.
- JsmnTokenizer.Tokenizer.CommaCase: with links and no superior the source takes the parent of the token before the array; here the comma then changes nothing.
- JsmnTokenizer.Tokenizer.PrimitiveCase: in strict builds with no superior the source inspects the token before the array; here there is nothing to inspect.
- JsmnTokenizer.Tokenizer.Iterate: the same for both.
- JsmnExtend.CanSucceedIff: nothing is said of a run that lacks tokens; a larger array decides it.
- JsmnSizes.StrictPrimitives: for the builds with links, where a token names its parent.
- JsmnLinks.LinksAgreeIff: types, spans, position and result only, sizes are in `JsmnCursors.SizesAgreeOnText`; for the non-strict builds; the strict builds of the two algorithms, which also differ in what they look at to refuse a primitive, are compared on documents only.
- JsmnLinks.LinksAgreeOnText: the same.
- JsmnLinks.LinksAgreeOnSuccess: the same.
- JsmnCursors.SizesAgreeOnText: for the non-strict builds.
- CallQueues.JointStep: a client puts a slot once and only its own, the collector takes only when it waits, and the orphan queue is never reset.
- FsmQueues.JointStep: each worker takes only when it is free, snapshots are handed over before the snapshot queue is closed, and a request in the ring is known by what it asks for.
- JsonDump.DumpText: the loop that reads standard input in chunks is not modelled, `JsmnResume.ReplayIsOneRun` covers its repeated parser calls; after a token that was never made nothing is said.
- StatsPrinter.PrintStats: lines are returned instead of printed; reading a token that the parse did not make is one outcome, `PastTokens`, and nothing is said after it.
- RingQueue.ArrayBlockingQueue.TryPut: one pass under the lock; the wait loop around it is in the step machine, where critical sections are atomic steps.
- RingQueue.ArrayBlockingQueue.TryTake: the same.
- ClosableDeque.Deque.Take: also stands for a pass of `poll_until`; the clock is not modelled, a timeout may come at any time after a wait began.
- CallSlots.BaseSlot.Wait: the reply that ends a wait is a parameter.
- FsmWorker.SendRequest: a full queue is an outcome instead of a wait.
- CallSlots.BaseSlot.GetPtr: the reply that ends a wait is a parameter; for `get_ptr`; the internal `future_get`, which ignores the error of a slot that is already terminal, is not modelled.
- CallRuns.NothingEverGoesWrong: assumes the client contract (one owning thread per future, dispose at most once and no use afterwards, a buffer freed at most once and only after `wait`, one buffer per call), that the Raft process replies once under the lock and then lets go, sequentially consistent memory, and that dispose and unlock in the collector are one step.
- FsmRuns.NothingEverGoesWrong: assumes that a client's begin_snapshot completes or hands over its request at most once, and that the Raft process frees only terminal unlocked requests.
- LetterCount.LettersCounted: `isalpha` in the C locale.
- FsmAnswers.WriteAnswer: a file that was written but not closed counts as not written.
- LetterCount.SaveRestore: `fscanf` reads numbers modulo 2^32; what C libraries do beyond 64 bits is not modelled.
- Raft consensus, which lives in the other process.
- Process start and supervision, the mapped file, allocators, logging: allocation hands out fresh identities.
- Timings, clocks and timed locks.
- Fairness: that a thread that can run does run. The drain of the collector is proved for its own steps.
- `config.cc`, option parsing, tag names, error messages, and the one-line API wrappers: they would only add easy members.
- `example/simple.c` and the interactive part of `raft_client.c`.
