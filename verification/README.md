# Verified models of the Phidget22 library and admin tool

This project models four parts of the Phidget22 C sources in Dafny and proves what they promise, over
every input and every run.

**Dispatch engine** (`mdns/libphidgets22/src/dispatch.c`, with the flags and references of `object.c`).
`DispatchModel` is a step system: a state holds phidgets, their queues, the two global lists, the entry pool
and a program counter per activity, and a step is one lock region of the C code. An activity is a dispatcher
thread or one call into the engine; a call made from inside a user callback is an activity of its own, which
allows every interleaving the nesting allows. A run is any sequence of actions from the initial state.
Fields marked as history are written by steps and read by no guard. `DispatchToken`, `DispatchOwner` with
`DispatchOwnerSteps`, `DispatchTicket` with `DispatchTicketSteps` and `DispatchFlow` each prove one
invariant of every step; `DispatchHandshake` says which entries a step may touch; `DispatchProperties` and
`DispatchHandshake` state the results over whole runs, and `DispatchScenario` is one run from a call to its
answer. `DispatchOutcomes` says exactly when an assertion fails and what callbacks are given, `DispatchFates`
which requests are never called back, and `DispatchWitnesses` has runs in which these things go wrong.
`DispatchInsertion` says what becomes of every inserted entry and what its inserter is told, `DispatchService`
what a queue holds, whom a dispatcher serves and what a clear leaves. `DispatchObjects` has the objects the
steps work on, related to the steps.

**Configuration parser** (`mdns/libphidget22extra/src/pconf-unix.c`). `PconfGrammar` is the grammar,
`PconfTables` the generated tables and what they encode, `PconfActions` the semantic actions and the
flattening of a document they are meant to compute, `PconfMeaning` the proof that they do.
`PconfEngine` runs the automaton, `PconfCorrect` proves it sound and complete for the grammar,
`PconfDocument` states both for nested blocks of named values and what they are written as,
`PconfDepth` bounds its stack, and `PconfParser` is the loop with its stacks, path and array buffer updated
in place. Tokens come from the lexer with converted values; a name token is not empty and has no dot.

**Bridge packets** (`mdns/libphidgets22/src/bridge.c`, `bridge.gen.c`). `Bridge` has packets, type codes and
the text form as preorder JSON tokens; `BridgeParse` specifies the parser's index arithmetic and proves the
round trip on tokens, `BridgeAccepts` which tokens are a packet, whoever wrote them; `BridgePackets` has the
packet object the parser fills in place, the calls that add entries and the base64 loops. `BridgeRender`
renders into a bounded buffer. `Jsmn` is the tokenizer (`util/jsmn.c`), `JsmnTree` its correctness for every
document and `JsmnTokens` what it makes of any text; `JsonText` is escaping (`util/json.c`) and `Strton` the
conversion of numbers (`ext/mos/strton.c`); `BridgeText` joins them to the round trip from text to text.
`BridgeFormat` and `BridgeCreate` are the printf-like constructor; `Base64` and `BridgeBase64` are the binary
data in string entries (the code of section 4 of RFC 4648).

**Firmware path** (`mdns/phidget22admin/fwupgrade.c`, `main.c`, `mdns/libphidgets22/src/gpp.c`).
`FirmwareOrder` and `FirmwareList` are the merge sort, on values and on linked nodes; `FirmwareChoice` reads
the directory and chooses a file; `FirmwareUpgrade` is the retrying upgrade against a device that may answer
anything; `Gpp` and `GppUsb` are the packets, with a receiver that puts them together again.

Some results are about what the code does not do:

- A synchronous request that is refused at the hard limit reaches an assertion: its entry is still NORETURN
  when it is returned. `AssertionFails` and `SynchronousRefused` give the exact condition, `PanicsExactly` and
  `NeverPanics` say the same of whole runs, and `AssertionReached` is a run that gets there.
- A packet with a 32-bit array comes back with a 16-bit one, because the code `I` decodes to that
  (`EntrySurvives`); a packet type of 2^31 or more is printed as a negative number and refused
  (`TextRoundTrip`). A negative number for an unsigned entry is not refused, but taken for its complement
  (`U64RoundTrip`).
- Floating point numbers are printed with `%e` and come back as what `strtod` makes of those digits; `EntrySurvives`
  says when an entry is unchanged by that.
- Inline JSON comes back without the white space around it, and a JSON string without its quotes
  (`EntrySurvives`). It can be 8192 characters long when an entry is made but only 8191 when it is read, and
  the loop that passes over its tokens needs a token behind them, so that inline JSON in a packet's last entry
  is not read back (`TextRoundTrip`).
- Names are rendered without being escaped. A packet with a name that has a quote of its own, or a backslash that
  is no escape, does not come back (`TextRoundTrip`, which says exactly which ones do).
- Empty data encoded into a packet cannot be decoded (`EmptyNotDecoded`).
- A firmware transfer over HIDUSB or SPI drops the bytes above 0xffff of the length (`CompleteTransfer`),
  and its result is the device's response even when a send failed (`UpgradeHid`).
- When posting the callback of an asynchronous request fails, the callback is called with the code of that
  failure, not with the request's result. `CallbackLosesAnswer` is a run in which that happens,
  `AsynchronousAnswer` says what every callback is given, and `PostedExactly` when posting fails and how.
- An asynchronous request that was accepted is not called back at all when a clear of the outbound queue takes
  its callback entry. `AsynchronousFate` says that there is no other way.

## Model

| member | source | states |
|---|---|---|
| `DispatchProperties.SchedulingToken` | mdns/libphidgets22/src/dispatch.c:563-579 | in every reachable state the flag of a phidget and direction is set iff the phidget is on that list or one activity is placing or serving it; the list never repeats it, listing and holding exclude each other, and no two activities hold it |
| `DispatchProperties.TokensHoldReferences` | mdns/libphidgets22/src/dispatch.c:197-238 | in every reachable state the reference count is at least the references held outside plus one for each listed or held token |
| `DispatchProperties.NoStrandedEntry` | mdns/libphidgets22/src/dispatch.c:1273-1318 | a non-empty queue is always on its way to a dispatcher: listed, held, about to have its flag looked at, or its gate was found shut since the last insertion |
| `DispatchProperties.FirstInFirstOut` | mdns/libphidgets22/src/dispatch.c:1286-1308 | per phidget and direction, runs of dispatchEntry never overlap, start in insertion order, and skip exactly entries removed by a clear |
| `DispatchProperties.EntryAccounting` | mdns/libphidgets22/src/dispatch.c:135-156 | entryCount is free plus queued plus in-use entries, at most 32768; a non-empty free list means fewer than 256; free entries are blank; queue counts equal queue lengths, at most 65 inbound and 4097 outbound |
| `DispatchProperties.OneOwner` | mdns/libphidgets22/src/dispatch.c:397-418 | an allocated entry is in exactly one place: free list, one queue once, one activity's hands, or signalled to its waiter; and everything in such a place is allocated |
| `DispatchProperties.AtMostOnce` | mdns/libphidgets22/src/dispatch.c:1105-1134 | over a whole run, bridgeInput runs on each request at most once and each request's callback is made at most once, whichever way it is made |
| `DispatchProperties.SynchronousAnswer` | mdns/libphidgets22/src/dispatch.c:668-672 | a synchronous caller gets the result of its own request, or NOTATTACHED when a clear removed it, and the two exclude each other |
| `DispatchOutcomes.AssertionFails` | mdns/libphidgets22/src/dispatch.c:402-404 | an entry about to be returned is still NORETURN exactly when it belongs to a refused synchronous request |
| `DispatchOutcomes.SynchronousRefused` | mdns/libphidgets22/src/dispatch.c:544-552 | a synchronous insertion is refused exactly when more than 64 inbound entries are queued; otherwise it is queued |
| `DispatchOutcomes.PanicsExactly` | mdns/libphidgets22/src/dispatch.c:402-404 | the assertion on returned entries has failed in a run iff some step of it gave back the entry of a refused synchronous request |
| `DispatchOutcomes.NeverPanics` | mdns/libphidgets22/src/dispatch.c:544-552 | a run in which no synchronous insertion finds more than 64 entries queued never fails that assertion |
| `DispatchWitnesses.AssertionReached` | mdns/libphidgets22/src/dispatch.c:397-404 | for every phidget there is a run that fails it: 65 asynchronous requests, no dispatcher, and then a synchronous one |
| `DispatchOutcomes.AsynchronousAnswer` | mdns/libphidgets22/src/dispatch.c:1112-1133 | over every run, a callback is given its request's result if its entry was queued, the code of the failed posting if not, and NOTATTACHED, by the inbound clear, exactly if bridgeInput never ran on the request |
| `DispatchOutcomes.PostedExactly` | mdns/libphidgets22/src/dispatch.c:501-561 | the posting of a callback has a code iff one step of the run ended it so: AGAIN where nothing is free and 32768 are allocated, NOTATTACHED where the channel is detaching or neither attached nor attaching, else NOSPC where more than 4096 outbound entries are queued, else OK |
| `DispatchFates.AsynchronousFate` | mdns/libphidgets22/src/dispatch.c:1424-1438 | in every run an asynchronous request is spent without a callback iff some step of the run refused its caller (nothing free and 32768 allocated, or more than 64 inbound entries queued) or cleared its callback entry off the outbound queue |
| `DispatchFates.CalledExactly` | mdns/libphidgets22/src/dispatch.c:1105-1134 | in every run a request's ticket is that of a made callback iff the callback is in the history of calls |
| `DispatchWitnesses.CallbackLosesAnswer` | mdns/libphidgets22/src/dispatch.c:1116-1119 | for every phidget and every answer there is a run in which bridgeInput answers a request made of an attached phidget with it, the phidget is detached, and the callback is given NOTATTACHED |
| `DispatchHandshake.OthersLeaveTheEntry` | mdns/libphidgets22/src/dispatch.c:630-662 | while a caller waits, no step of another activity frees its entry or moves it on, and once WAITING is clear no other activity touches the entry at all |
| `DispatchHandshake.WaiterGivesBack` | mdns/libphidgets22/src/dispatch.c:663-672 | the waiter moves on iff WAITING is clear, and then gives the entry back, free or deallocated, with the entry's result as its own |
| `DispatchHandshake.ActivitySpares` | mdns/libphidgets22/src/dispatch.c:1292-1307 | a step of one activity leaves every entry that belongs to another unchanged and where it is |
| `DispatchScenario.SynchronousCallCompletes` | mdns/libphidgets22/src/dispatch.c:609-675 | for every phidget and every answer there is a run in which a synchronous call of an attached phidget, the dispatcher its insertion starts and the handshake complete: the caller gets that answer and the pool its entry |
| `DispatchToken.TokenStep` | mdns/libphidgets22/src/object.c:503-523 | every action keeps the token invariant: flags, lists, holders, the list lock and the reference equation |
| `DispatchToken.TokenAlways` | mdns/libphidgets22/src/dispatch.c:197-238 | the token invariant holds after every run |
| `DispatchOwnerSteps.OwnerStep` | mdns/libphidgets22/src/dispatch.c:397-419 | every action keeps every entry with exactly one owner, in the shape its place calls for |
| `DispatchOwnerSteps.OwnerAlways` | mdns/libphidgets22/src/dispatch.c:397-419 | the ownership invariant holds after every run |
| `DispatchTicketSteps.RequestStep` | mdns/libphidgets22/src/dispatch.c:586-606 | every action keeps the ticket invariant: one carrier or one activity per request, callbacks only for asynchronous requests and from a ticket that is then used up, answers that stay true, and callbacks given what their posting calls for |
| `DispatchFlow.FlowStep` | mdns/libphidgets22/src/dispatch.c:501-579 | every action keeps each queue first in, first out, and watched; which entries get into a queue is `DispatchInsertion.Inserted` |
| `DispatchFlow.ServeLeaves` | mdns/libphidgets22/src/dispatch.c:1271-1319 | the empty check and the clearing of the flag are one lock region, so leaving the queue keeps it watched |
| `DispatchInsertion.Inserted` | mdns/libphidgets22/src/dispatch.c:501-561 | an insertion by anyone appends its entry iff none of these holds, and else goes that branch's way with its code: a packet or callback where the channel is detaching or neither attached nor attaching (NOTATTACHED), a packet with 200 outbound or 64 inbound entries queued (NOSPC), or more than 4096 outbound or 64 inbound entries queued (NOSPC) |
| `DispatchInsertion.ToldExactly` | mdns/libphidgets22/src/dispatch.c:501-579 | over every run, whoever inserts is about to be told a code iff some step of its own met the guard of the branch with that code and it has not been back since, posts included; AGAIN where nothing is free and 32768 are allocated, NOENT where the caller gives its entry up |
| `DispatchInsertion.TakenAs` | mdns/libphidgets22/src/dispatch.c:609-628 | the entry a call takes: requests and what clients send a server are inbound, everything else outbound, and only a synchronous request's is NORETURN |
| `DispatchService.QueueHolds` | mdns/libphidgets22/src/dispatch.c:1286-1290 | after every run a queue holds what insertions that were not refused have appended, in order, without what dispatchers of an open, attached or detaching phidget and clears have taken off the front; nothing else changes a queue |
| `DispatchService.ClearEmpties` | mdns/libphidgets22/src/dispatch.c:1410-1474 | when clearPhidgetDispatch has returned, everything that had been put on either queue when it was called has been taken off |
| `DispatchService.Dispatches` | mdns/libphidgets22/src/dispatch.c:197-238 | a needed dispatcher serves the first phidget of the inbound list; with none, the first of the outbound list that is attached or detaching, having taken the closed ones before it off; with none of those, it looks again |
| `DispatchOwner.PoolGetOk` | mdns/libphidgets22/src/dispatch.c:321-342 | taking an entry yields a blank one that was not in use, and changes no other entry |
| `DispatchOwner.PoolReturnOk` | mdns/libphidgets22/src/dispatch.c:401-419 | returning an entry keeps the pool sound; it is freed at 256 or more entries and otherwise put back blank at the head of the free list |
| `DispatchObjects.EntryPool.GetDispatchEntry` | mdns/libphidgets22/src/dispatch.c:321-342 | the pool object's method is the model's PoolGet, AGAIN exactly when nothing is free and 32768 are allocated, and keeps the pool sound |
| `DispatchObjects.EntryPool.ReturnDispatchEntry` | mdns/libphidgets22/src/dispatch.c:401-419 | the pool object's method is the model's PoolReturn and keeps the pool sound |
| `DispatchObjects.PhidgetObject.CKandSetFlags` | mdns/libphidgets22/src/object.c:503-523 | sets the bits; DUPLICATE iff all were set already |
| `DispatchObjects.PhidgetObject.CKandCLRFlags` | mdns/libphidgets22/src/object.c:531-551 | clears the bits iff all were set, else NOENT and no change |
| `DispatchObjects.PhidgetObject.TakeToken` | mdns/libphidgets22/src/dispatch.c:564-565 | the test is the step system's StepFlag and, when the bit was clear and only then, StepRetain: the flag bits and the count afterwards are those of the state after these steps |
| `DispatchObjects.PhidgetObject.GiveTokenUp` | mdns/libphidgets22/src/dispatch.c:1313-1321 | clearing the bit and releasing are StepServe where the loop breaks and StepRel; the object is destructed iff the count then is 0 |
| `DispatchObjects.PhidgetObject.DropToken` | mdns/libphidgets22/src/dispatch.c:213-217 | clearing the bit of a closed phidget is StepScanDrop, which leaves the count as it is |
| `DispatchObjects.PhidgetObject.SetThenClear` | mdns/libphidgets22/src/object.c:503-551 | the two calls one after the other give the old word back iff none of the bits was set before; the second always succeeds |
| `PconfCorrect.AcceptsExactly` | mdns/libphidget22extra/src/pconf-unix.c:1185-1349 | the parser returns 0 exactly on the token streams of which some prefix derives block within the depth, path and array limits |
| `PconfCorrect.DocumentParsed` | mdns/libphidget22extra/src/pconf-unix.c:1359-1627 | on a stream that starts with a document the additions are the document's flattening, an array's elements each under its own index, and the path is empty at the end; if the document exceeds a limit an action fails |
| `PconfCorrect.Sim` | mdns/libphidget22extra/src/pconf-unix.c:1343-1661 | from any stack where its symbol leads on, reading a tree's yield comes to running its actions and pushing its goto state |
| `PconfCorrect.Sound` | mdns/libphidget22extra/src/pconf-unix.c:1343-1661 | whatever is accepted starts with a parse tree of block, whose yield is a prefix of the tokens |
| `PconfMeaning.EffectFlattens` | mdns/libphidget22extra/src/pconf-unix.c:1359-1627 | running a document's actions from a path adds exactly its flattening there, element i of an array under the path, a dot and i, and restores the path, iff it fits the limits |
| `PconfMeaning.PushAt` | mdns/libphidget22extra/src/pconf-unix.c:166-188 | pushing a dot-free name succeeds iff there is room, and curpath stays the join of the keys |
| `PconfMeaning.PopAt` | mdns/libphidget22extra/src/pconf-unix.c:143-164 | popping cuts curpath back to the join of the remaining keys |
| `PconfMeaning.ElemsEffect` | mdns/libphidget22extra/src/pconf-unix.c:1569-1626 | array members collect in order, and fail exactly beyond 2048 of them |
| `PconfTables.NoLookaheadReductions` | mdns/libphidget22extra/src/pconf-unix.c:610-626 | a state either shifts by its table entries or reduces by its default rule without looking at the next token |
| `PconfTables.EntryIsTarget` | mdns/libphidget22extra/src/pconf-unix.c:646-660 | the entries yypact, yytable and yycheck give are the shifts of the grammar's automaton, and there are no others |
| `PconfTables.GotoIsTarget` | mdns/libphidget22extra/src/pconf-unix.c:630-641 | the states yypgoto and yydefgoto give are the gotos of that automaton |
| `PconfTables.NoErrorEntry` | mdns/libphidget22extra/src/pconf-unix.c:1763-1790 | no state has an entry for the error token |
| `PconfTables.RuleTables` | mdns/libphidget22extra/src/pconf-unix.c:673-687 | yyr1 and yyr2 are the left-hand sides and the lengths of the 27 rules |
| `PconfTables.TargetSymbol` | mdns/libphidget22extra/src/pconf-unix.c:664-670 | a state is entered only by its accessing symbol, as yystos gives it |
| `PconfEngine.Handle` | mdns/libphidget22extra/src/pconf-unix.c:1343-1355 | whenever a rule is complete on top of the stack, the stack below spells its right-hand side and its left-hand side leads on from there |
| `PconfEngine.RuleLeads` | mdns/libphidget22extra/src/pconf-unix.c:610-686 | wherever a rule's left-hand side leads on, its right-hand side leads to the state that completes the rule |
| `PconfDepth.StackHeight` | mdns/libphidget22extra/src/pconf-unix.c:1188-1257 | the state stack is at most three entries per open name, and four |
| `PconfDepth.StackFits` | mdns/libphidget22extra/src/pconf-unix.c:1188-1257 | with at most 64 keys the stack never reaches the 200 entries it starts with, so it is never enlarged or exhausted |
| `PconfParser.Parser.Parse` | mdns/libphidget22extra/src/pconf-unix.c:1122-1349 | the loop over the tables returns 0, 1 or INVALID as the automaton accepts, finds a syntax error or has an action fail, with the automaton's final state |
| `PconfParser.Parser.Recover` | mdns/libphidget22extra/src/pconf-unix.c:1763-1800 | error recovery never finds a state for the error token |
| `PconfParser.Parser.ReduceBy` | mdns/libphidget22extra/src/pconf-unix.c:1343-1661 | one reduction in place is one reduction of the automaton |
| `PconfParser.Parser.Action` | mdns/libphidget22extra/src/pconf-unix.c:1359-1627 | each rule's action in place is its action on values; it fails when that fails |
| `PconfParser.Parser.PopCurPath` | mdns/libphidget22extra/src/pconf-unix.c:143-164 | drops the last key and cuts the path at its last dot |
| `PconfParser.Parser.PushCurPath` | mdns/libphidget22extra/src/pconf-unix.c:166-188 | appends the key and the name, failing at 64 keys or 1024 characters |
| `PconfParser.Parser.AddElems` | mdns/libphidget22extra/src/pconf-unix.c:1518-1549 | adds the array and then, for every index i, the i-th element under the path, a dot and the decimal of i, and empties the buffer |
| `PconfActions.ElemAddsAt` | mdns/libphidget22extra/src/pconf-unix.c:1526-1545 | the additions of an array's elements number them, and the i-th is that of element i under the path, a dot and the decimal of i, by the kind of its value |
| `PconfDocument.BlockRead` | mdns/libphidget22extra/src/pconf-unix.c:1185-1349 | for every block of named values, arrays and blocks, written out as tokens with anything behind it, the parser makes exactly the additions of its values, each under the names around it, if it keeps to 64 names, 1023 characters of path and 2048 elements; otherwise an action fails |
| `PconfDocument.ReadExactly` | mdns/libphidget22extra/src/pconf-unix.c:1185-1349 | a token stream is accepted iff it starts with what some block within these limits is written as |
| `BridgeText.TextRoundTrip` | mdns/libphidgets22/src/bridge.c:559-783 | a packet without pointers comes back from its rendered text, tokenizer included, with every entry named, 32-bit arrays cut down, floating point numbers as they are printed and read, and inline JSON without outer white space and quotes, iff its names can stand between quotes unescaped, its tokens fit 10000, its packet type is below 2^31, its inline JSON is below 8192 characters and followed by another entry, and its floating point numbers can be read as they are printed |
| `BridgeText.TextParsed` | mdns/libphidgets22/src/bridge.c:559-783 | with such names: too many tokens or such a packet type make the parse fail; otherwise the packet comes back if all its inline JSON and floating point numbers can and is not parsed if some cannot |
| `BridgeText.TextNames` | mdns/libphidgets22/src/bridge.c:382-390 | whatever the text, every entry of a parsed packet has a name, and one that was not cut can stand between quotes |
| `BridgeText.RenderedTokens` | mdns/libphidgets22/src/bridge.c:611-783 | for every packet without pointers whose names can be quoted, the tokens of the rendered text are the header's and then each entry's name, code and value in order, a floating point number as %e prints it and an array's elements one by one; or there is no room for that many |
| `BridgeText.ParseBridgePacketJSON` | mdns/libphidgets22/src/bridge.c:559-603 | tokenizing into an array and filling a packet in place ends as the specification of the parse says, for every text |
| `JsmnTree.DocumentTokens` | mdns/libphidgets22/src/util/jsmn.c:253-398 | for every JSON array or object, with white space anywhere the grammar allows it, the tokens are its values in preorder, each with its range of text, number of children and parent; NOMEM exactly when there is no room for them all |
| `JsmnTree.ValueLeads` | mdns/libphidgets22/src/util/jsmn.c:253-398 | inside any text, tokenizing a value adds exactly its tokens and one child to its parent and goes on behind it |
| `JsmnTree.RunStrings` | mdns/libphidgets22/src/util/jsmn.c:181-247 | whatever the text, the strings among its tokens can stand between quotes |
| `JsmnTokens.AcceptedTokens` | mdns/libphidgets22/src/util/jsmn.c:253-398 | whatever text is accepted, every token is closed and is what its place in the text shows (brackets that match in kind, quotes, a primitive up to its separator), belongs to an earlier token that counts it, a primitive is never a key, and no character but separators is left out |
| `Jsmn.Tokenizer.Parse` | mdns/libphidgets22/src/util/jsmn.c:253-398 | the loop over the text with its token array ends as the specification says, for every text and room for tokens |
| `Jsmn.Tokenizer.ParseString` | mdns/libphidgets22/src/util/jsmn.c:181-247 | adds the string's token and stops at its closing quote, or gives the error and goes back |
| `Jsmn.Tokenizer.CloseToken` | mdns/libphidgets22/src/util/jsmn.c:277-297 | closes the innermost open token found through the parent links, or refuses a bracket of the other kind |
| `JsonText.EscapeRoundTrip` | mdns/libphidgets22/src/util/json.c:19-112 | every string without a terminator can be quoted once escaped, and unescaping gives it back |
| `JsonText.JsonUnescape` | mdns/libphidgets22/src/util/json.c:64-112 | writing the result over the text it is made from gives the unescaped text |
| `Strton.U64RoundTrip` | mdns/libphidgets22/src/ext/mos/strton.c:129-190 | a printed number is converted back, a negative one without an error to its complement to 2^64 |
| `Strton.I64RoundTrip` | mdns/libphidgets22/src/ext/mos/strton.c:297-390 | a printed signed 64-bit number is converted back |
| `Strton.UnitMeans` | mdns/libphidgets22/src/ext/mos/strton.c:129-190 | a number before a unit letter is multiplied by that power of 1024; 0, 2^64-1, a product that does not fit and any other letter are refused |
| `BridgeParse.RoundTrip` | mdns/libphidgets22/src/bridge.c:559-603 | on tokens: parsing those of a rendered packet fails if they do not fit 10000 or its packet type is 2^31 or more, and otherwise gives it back exactly if every inline JSON value and every floating point number can come back |
| `BridgeParse.EntryParsed` | mdns/libphidgets22/src/bridge.c:370-552 | an entry's tokens, those inside inline JSON included, are read back and the returned offset leads exactly to the token behind them; inline JSON that is too long, or that nothing follows, is not read |
| `BridgeParse.EntrySurvives` | mdns/libphidgets22/src/bridge.c:177-284 | an entry's type and value survive exactly if it is neither a 32-bit array nor inline JSON that is a string or has white space around it, and every floating point number in it is read as the one that was printed |
| `BridgeParse.HeaderParsed` | mdns/libphidgets22/src/bridge.c:292-367 | the header comes back with the first entry at token 19, unless the packet type has the top bit |
| `BridgeAccepts.ParsedExactly` | mdns/libphidgets22/src/bridge.c:559-603 | any token array is parsed as a packet iff it has at most 10000 tokens, good header fields stand in front of the entries and as many entries as the header says stand one behind the other; the packet is those fields and those entries |
| `BridgeAccepts.HeaderExactly` | mdns/libphidgets22/src/bridge.c:292-367 | a header is accepted iff good fields in any order and number stand in front of the entries, and the last field of each name counts: version 0, source 1 or 2, type below 2^32, at most 36 entries |
| `BridgeAccepts.EntryExactly` | mdns/libphidgets22/src/bridge.c:370-552 | an entry is a name, an object and a way through the object, one pair at a time, whatever the order and number of its pairs |
| `BridgeAccepts.ValueRead` | mdns/libphidgets22/src/bridge.c:420-545 | what each type's value token makes, and exactly which values are refused: numbers, floating point numbers, strings, inline JSON and arrays, element by element |
| `BridgeAccepts.CodesRead` | mdns/libphidgets22/src/bridge.c:177-234 | which characters decode to which type, and that all else is no type |
| `BridgeAccepts.CastKeeps` | mdns/libphidgets22/src/bridge.c:98-175 | an element keeps its low 8, 16 or 32 bits, signed or not, and a number that fits is unchanged |
| `Bridge.TypeCodeRoundTrip` | mdns/libphidgets22/src/bridge.c:177-284 | a type comes back from its code unless it is I32ARRAY, which comes back as I16ARRAY, or PTR |
| `Bridge.ArrayCountFits` | mdns/libphidgets22/src/bridge.c:98-175 | the element count survives the sixteen-bit byte length if the array is shorter than 64K |
| `BridgePackets.ParseTokens` | mdns/libphidgets22/src/bridge.c:581-603 | filling a packet in place while walking the tokens ends as the specification of the parse says, for every token array |
| `BridgePackets.BridgePacket.ProcessBPEntry` | mdns/libphidgets22/src/bridge.c:369-552 | one entry, filled in place, and the offset returned, as specified |
| `BridgePackets.BridgePacket.ProcessBPHeader` | mdns/libphidgets22/src/bridge.c:292-367 | the header's fields, and the offset of the first entry, as specified |
| `BridgePackets.BridgePacket.ProcessArray` | mdns/libphidgets22/src/bridge.c:459-524 | the elements converted and cast one by one, or nothing stored |
| `BridgePackets.BridgePacket.ProcessJson` | mdns/libphidgets22/src/bridge.c:530-547 | inline JSON is copied as the text its first token spans, and the loop passes exactly the tokens that start before its end |
| `BridgeRender.RenderBridgePacketJSON` | mdns/libphidgets22/src/bridge.c:611-783 | for every packet without pointers, succeeds iff the buffer is at most 128K, every string escapes and the whole text with its braces and terminator fits; then the buffer holds all of it and nothing behind the size is written; INVALID iff a string does not escape and all in front of it fits; what the text is, `BridgeText.RenderedTokens` says |
| `BridgeRender.Printer.Print` | mdns/libphidgets22/src/bridge.c:629-642 | one piece: accepted iff it is no longer than what is left, which may cut its last character only when nothing more can follow |
| `BridgeFormat.CreateInvertsFormat` | mdns/libphidgets22/src/bridge.c:795-1021 | writing up to 35 items, each of a value its C argument can hold, as a format, with commas between them or without and names or not, and constructing gives exactly their entries in order; 36 or more give 2BIG, and trailing text of 64 characters or more INVALIDARG |
| `BridgeFormat.ItemRead` | mdns/libphidgets22/src/bridge.c:817-1015 | one item of a format, followed by anything that does not make its letter another one, makes one entry with its name, type and value and leaves the rest |
| `BridgeFormat.NumberRead` | mdns/libphidgets22/src/bridge.c:846-853 | a decimal count in front of a letter is read as that number |
| `BridgeFormat.ConversionRefused` | mdns/libphidgets22/src/bridge.c:856-1010 | a string of more than 8192 characters, inline JSON that is empty or longer, or an array of more than 8192 bytes makes the whole call fail |
| `BridgeFormat.LetterRefused` | mdns/libphidgets22/src/bridge.c:1003-1015 | so does a character that begins no conversion, or the end of the format behind a % |
| `BridgeFormat.NameRefused` | mdns/libphidgets22/src/bridge.c:817-836 | and a name of 64 characters or more |
| `BridgeCreate.CreateBridgePacketV` | mdns/libphidgets22/src/bridge.c:795-1021 | the constructor's loops end as its specification says, with the packet or the code, for every format and arguments; `CreateInvertsFormat` says what that is |
| `Base64.RoundTrip` | mdns/libphidgets22/src/ext/mos/base64.c:34-164 | decoding an encoding gives the data back, except that empty data decodes to nothing |
| `Base64.NoNul` | mdns/libphidgets22/src/ext/mos/base64.c:60-91 | the encoding has no NUL, so its length as a C string is its length |
| `Base64.EncodedExactly` | mdns/libphidgets22/src/ext/mos/base64.c:34-91 | the encoding's length and each of its characters, by the RFC's table, with a line feed behind every 72 |
| `Base64.DecodedExactly` | mdns/libphidgets22/src/ext/mos/base64.c:94-164 | when decoding fails, how many bytes it gives, and each of them |
| `BridgeBase64.EncodeSucceeds` | mdns/libphidgets22/src/bridge.c:1210-1267 | encoding succeeds exactly when the packet has room for all entries and none of their names is in use, and then appends them |
| `BridgeBase64.EncodeThenDecode` | mdns/libphidgets22/src/bridge.c:1210-1338 | decoding where the data was encoded gives it back whatever is added later, and the offset ends behind the entries added |
| `BridgeBase64.EmptyNotDecoded` | mdns/libphidgets22/src/bridge.c:1282-1322 | empty data never decodes: INVALIDARG with nothing behind it, INVALID otherwise |
| `BridgeBase64.AddAllFits` | mdns/libphidgets22/src/bridge.gen.c:45-63 | adding entries one by one succeeds exactly when they fit and no name clashes |
| `BridgeBase64.EncodeExactly` | mdns/libphidgets22/src/bridge.c:1210-1267 | NOSPC at once for 35 times 8192 characters of encoding or more; otherwise the entries are added up to the first there is no room for (NOSPC) or whose name is taken (DUPLICATE), and stay |
| `BridgeBase64.AddedExactly` | mdns/libphidgets22/src/bridge.c:1222-1262 | what is added: the data's length, its encoding's length, and pieces of 8191 characters, each with its name and text |
| `BridgeBase64.CollectMeans` | mdns/libphidgets22/src/bridge.c:1300-1316 | what is collected is the strings up to where as much has come as was announced, modulo 2^64, or to the last entry |
| `BridgePackets.BridgePacket.Add` | mdns/libphidgets22/src/bridge.gen.c:716-734 | appends the entry, or NOSPC when full, or DUPLICATE when the name is in use |
| `BridgePackets.BridgePacket.Base64Encode` | mdns/libphidgets22/src/bridge.c:1210-1267 | the loop that cuts and adds chunks leaves the packet as specified |
| `BridgePackets.BridgePacket.Base64Decode` | mdns/libphidgets22/src/bridge.c:1269-1338 | the loop that collects chunks ends as specified |
| `FirmwareOrder.SortOrder` | mdns/phidget22admin/fwupgrade.c:29-95 | the sorted list has the same files, newest first, with the files of each version in reverse |
| `FirmwareOrder.SortedDirectory` | mdns/phidget22admin/fwupgrade.c:14-26 | with head insertion, the sorted list has each version's files in directory order |
| `FirmwareOrder.MergeTies` | mdns/phidget22admin/fwupgrade.c:29-67 | merging puts the second list's files of a version ahead of the first's |
| `FirmwareList.MergeLists` | mdns/phidget22admin/fwupgrade.c:29-67 | relinking two lists in place gives the merge of their files over the same nodes |
| `FirmwareList.MergeSort` | mdns/phidget22admin/fwupgrade.c:70-91 | the recursion over the relinked halves gives the sorted files over the same nodes |
| `FirmwareList.Middle` | mdns/phidget22admin/fwupgrade.c:75-83 | the slow pointer ends on the last node of the first half, so both halves are shorter |
| `FirmwareChoice.FwList.ReadFirmwareFiles` | mdns/phidget22admin/fwupgrade.c:97-135 | a readable directory leaves all its firmware files and those there were on the list, sorted; a bad entry ends it with 1 |
| `FirmwareChoice.SelectFirmware` | mdns/phidget22admin/main.c:1083-1113 | without -V the newest upgrade, the first of its version on the list, and none iff there is none; with -V the first match of that version |
| `FirmwareChoice.SameSeries` | mdns/phidget22admin/main.c:1093-1100 | without -m an upgrade has to be of the device's hundred of versions, divided towards zero |
| `FirmwareChoice.NewestFirmware` | mdns/phidget22admin/main.c:1011-1032 | the newest matching version, or the specified one if a match has it, or 0 |
| `FirmwareChoice.ChoiceIgnoresOrder` | mdns/phidget22admin/main.c:1083-1113 | the chosen version does not depend on the order of the list |
| `FirmwareChoice.ChosenInDirectoryOrder` | mdns/phidget22admin/main.c:1083-1113 | on the sorted list the chosen file is the first upgrade of its version in directory order |
| `FirmwareChoice.SpecifiedInDirectoryOrder` | mdns/phidget22admin/main.c:1086-1092 | with -V the chosen file is the first match in directory order |
| `FirmwareUpgrade.Upgrader.Run` | mdns/phidget22admin/fwupgrade.c:386-787 | against any answers: every event of the trace comes where it may, at most four sends, no upgrade handle left; 0 only with the ending of a success; 1 only if refused, which happens iff a refusal is due, or after three more attempts with a failed call, a file over 64K or another version read back |
| `FirmwareUpgrade.RefusedExactly` | mdns/phidget22admin/fwupgrade.c:468-503 | an upgrade is refused iff, unless overridden, the file is not newer than the version just read, or the server just asked is older than 2.3 and the device is a HUB0000 with a file from 300, a HUB0004 from 200 or a HUB5000 from 200 |
| `FirmwareUpgrade.SendsAreChecked` | mdns/phidget22admin/fwupgrade.c:612-690 | every send comes directly behind a check of the file on the open upgrade handle and the loading of the file, which has at most 64K and is newer than the version last read unless overridden |
| `FirmwareUpgrade.ConfirmedMeans` | mdns/phidget22admin/fwupgrade.c:737-754 | a trace with the ending of a success has the file's version as the one last read, after a send that was taken in the same attempt |
| `FirmwareUpgrade.Upgrader.Upgrade` | mdns/phidget22admin/fwupgrade.c:589-761 | from creating the upgrade handle to success, with exactly the events of a success at the end, or to a label, with at most one send |
| `Gpp.CompleteTransfer` | mdns/libphidgets22/src/gpp.c:214-256 | the packets of a complete transfer carry all the data iff its length is below 0x10000; then they are one sector for every 0x1000 bytes and one more, numbered down to 1, the odd bytes in the first and 0x1000 in each other, and each header's length is that |
| `Gpp.Device.UpgradeHid` | mdns/libphidgets22/src/gpp.c:212-262 | what a receiver has is always a prefix of the data, in order, and all sectors iff no send failed; a sector goes on in another packet only when the last one is full; the result is the device's response, not that of the sends |
| `Gpp.Device.SendSector` | mdns/libphidgets22/src/gpp.c:221-256 | one sector's header and continuations carry the sector's bytes in order |
| `Gpp.SectorsJoin` | mdns/libphidgets22/src/gpp.c:217-222 | the sectors sent are consecutive pieces of the data, the odd bytes first |
| `GppUsb.ChunksTile` | mdns/libphidgets22/src/gpp.c:268-299 | the chunks tile the data, each with its offset, exact iff it fits sixteen bits |
| `GppUsb.UsbDevice.UpgradeUsb` | mdns/libphidgets22/src/gpp.c:268-303 | the result is that of the last transfer; success means all chunks and the closing transfer were sent, failure a leading part of the chunks |
| `GppUsb.SetConfigTableHid` | mdns/libphidgets22/src/gpp.c:133-153 | the result is that of the last packet; a table split over continuations rejoins to the data, with its type and index in front, every packet but the last being full, or on failure to a prefix of it |
| `GppUsb.SetConfigTableUsb` | mdns/libphidgets22/src/gpp.c:155-178 | the same with the packet type in the transfer |

## Left out

- Network, USB, SPI and mesh transport, logging and statistics: results of sends and library calls are free choices.
- Dispatcher counting (`dispatchers`, `dispatchersRunning`): whether a dispatcher is started or stops is a free choice, so liveness and fairness are not claimed.
- DispatchProperties.SynchronousAnswer: does not cover the 60 second timeout of a synchronous call, which no step takes.
- The destructor at reference count zero, and `startDispatch`, `stopDispatch` and `freeDispatchHandle`: a phidget of the step system is never destroyed, and its state bits change by free choice.
- The re-reading of an entry's direction after it is queued (`dispatch.c:563`): the direction is the one at insertion.
- A clear of the outbound queue of a phidget that has none, where the C loop does not end: the step changes nothing.
- Writing the out-handle: `has` records that a handle was allocated, not its maximum count.
- DispatchProperties.AtMostOnce: does not say exactly once, because a clear of the outbound queue drops callback entries (`dispatch.c:1424-1438`); `DispatchFates.AsynchronousFate` says for which requests.
- DispatchProperties.TokensHoldReferences: a lower bound on the count, because a closed phidget taken off the outbound list keeps that list's reference (`dispatch.c:213-217`); the invariant `DispatchToken.RefEq` counts those too and is an equation.
- Whether a phidget counts as opened by a network client (`OPENBYNETCLIENT`): a free choice.
- Bit positions of the flag word: `DispatchObjects` has it as the set of its bits.
- The lexer of the configuration language, and what the calls that add to the configuration return.
- State carried over from a failed parse into the next: a parse starts from an empty path.
- Integer widths of the configuration's numbers, which are unbounded here; floating point values are reals that are only passed on.
- What the C code reads from a token behind the last one: the model reads one that fits nothing, and has the packet not parsed where the loop over inline JSON gets there. Where the tokenizer reads in front of its first token the model stops.
- BridgeText.TextRoundTrip: does not cover names of 16384 characters and more; in a token the model cuts text to the length of the buffer it is copied to, and leaves open where C puts the terminator.
- BridgeText.TextRoundTrip: does not cover pointer entries, which are not rendered, and takes what `%e` prints of a number and what `strtod` reads of a text as parameters, of which it asks only that the first prints JSON primitives; infinities and NaN are no numbers of the model.
- `json_unescape` of a `\u` that is not followed by four hex digits, which the tokenizer does not let through, and the bytes of characters above 255.
- Going on after an overflow of the decimal count in a format, a negative `*` count, and arguments that do not match the format, which C leaves undefined.
- The length check of `mos_base64_encode` near 2^32, and memory exhaustion everywhere.
- The names of firmware files (`getPhidgetFWFileInfo`) and the matching of a file to a device: given with the file, and a free predicate.
- The hub handle of a VINT device, which the upgrade opens and deletes: only the calls made of it can fail.
- The backward links and the tail of the firmware list, which sorting leaves as they were: only `next` is modelled.
- Progress reports during an upgrade.
- `GPP_getResponse`: its result is a parameter.
- Bridge, USB and device read threads, the Python and web parts, and the generated enumerations and device tables.
