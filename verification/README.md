# Verified core of the in3 bindings

A Dafny model of the parts of the in3 repository whose correctness depends on
whole runs rather than on single branches, with proofs of what those parts
promise:

* **The request driver of the WASM binding** (`wasm/src/in3.js`): `sendRequest`,
  its response queues, `free`, delayed free and the finalizer. A segment of
  JavaScript between two awaits, or a part of one, is a step of a state machine,
  so a run is any interleaving of requests, responses, timers, `free` calls and
  garbage collection on any number of clients. The model also allows steps of
  others inside some segments (between creating a context and the first turn of
  the loop, and between an answer and the next turn); what holds in every run
  therefore holds in every run of the code. The native engine is reduced to which
  clients and contexts are alive (`NativeEngine`); a call into freed or null
  memory is recorded as a fault.
* **Encoders and parsers** (`wasm/src/in3_util.js`): UTF-16 to UTF-8 hex and
  back, two's complement by nibbles, byte arrays, minimal hex, the ABI type
  splitter and the converter built on it.
* **In-place flattening of the type table** (`scripts/generator/util.js`).
* **Dirty tracking over the .NET configuration tree**.
* **Smaller cores**: node blacklisting, shortlex byte comparison, and the .NET
  BigInteger/hex round trip.

Loops and objects of the source are methods and classes here, each proved
against a function on values; the theorems are about those functions and about
runs of them.

## Files

| files | contents |
|---|---|
| `NativeEngine`, `UrlQueue` | the engine as the driver sees it; the response queue as value and as object |
| `Driver` | states, segments and steps of the driver |
| `DriverInvariant`, `DriverSteps`, `DriverTheorems` | the invariant, its preservation segment by segment, and what follows for every run |
| `DriverTurns`, `DriverScenario` | what each step does for its request and what the engine is told, and an ordinary request call by call |
| `DriverFree`, `DriverGuards`, `DriverDisposal`, `DriverFaults` | delayed free, exact conditions for faultless runs and for single disposal, and concrete runs that fault |
| `Digits`, `HexDigits`, `HexText`, `BigIntHex`, `ByteOrder` | numerals in base 16 and 256 |
| `Utf`, `UtfTheorems` | the UTF-8 encoder and decoder |
| `TypeLists`, `AbiTypes`, `AbiTheorems`, `AbiShapes` | ABI type lists and conversion by printed type |
| `TypeTable`, `TypeChains` | the type table, and the meaning of its types key by key |
| `Configuration`, `ConfigurationValues`, `NodeList` | the configuration tree, its values over runs, and the node list |

## What does not hold

The model keeps the code as it is. Where a promise fails, a lemma or method gives
a concrete case, and another one says for all inputs exactly when the promise
holds; where a single input fails, one contract does both.

* *Only legal native calls.* Three kinds of run break it: `free` between
  `_ensure_ptr` and `in3_create_request_ctx` (`FreeWhileStarting`); `free` with
  its gc flag followed by the finalizer (`GcFlagDisposesTwice`); two requests on
  a client whose delayed free has been carried out, because `delayFree` is never
  reset (`ReuseAfterDelayedFree`). Exact conditions:
  `FaultlessExactlyIfGuarded`, `DisposedOnceExactlyIfInTime`.
* *UTF-8 round trip.* `Utf8ArrayToStr` skips four-byte characters
  (`PairIsLost`, `RoundTripExactlyOnBasicPlane`).
* *`splitTypes` undoes the printer.* A last item of one character is lost
  (`ShortItemIsLost`, `SplitUndoesJoin`).
* *Conversion follows the type.* The first `[` anywhere in the text decides
  (`EmptyListFails`, `AgreeExactlyIfSimple`).
* *Numeric order of byte strings.* The empty string and a string of zeros
  denote the same number but compare unequal (`EmptyIsNotZero`,
  `CompareIsNumeric`).
* *An RPC starts with the whole configuration.* A node added without any
  property goes unnoticed (`EmptyNodeUnnoticed`, `RpcStartsInSync`).
* *Two's complement of zero.* A text "-0…0" that does not fill the width becomes
  16^w - 16^k instead of zero (`NegativeZero`, `Negative`).
* *Padding.* `toUint8Array` with a positive length leaves an empty value empty
  (`EmptyStaysEmpty`, `Resize`).
* *Byte arrays round trip.* `toHex` throws for the empty array, and only for it
  (`BytesRoundTrip`).

## Model

| member | source | states |
|---|---|---|
| `UrlQueues.UrlQueue.constructor` | wasm/src/in3.js:438-442 | a new queue is the empty model queue with no native call made |
| `UrlQueues.UrlQueue.ResolveFirst` | wasm/src/in3.js:451-466 | one turn of `trigger` hands the first response to the first promise, and asks and answers the engine only without clean-up, with a client, and if the context is alive |
| `UrlQueues.UrlQueue.Trigger` | wasm/src/in3.js:449-468 | the loop ends, pairs until promises or responses are used up, and makes exactly the calls of the specification |
| `UrlQueues.UrlQueue.Arrive` | wasm/src/in3.js:445-448 | a settled transport promise is buffered and then paired |
| `UrlQueues.UrlQueue.GetNext` | wasm/src/in3.js:472-477 | accepted exactly while there are unclaimed urls; a refused call still counts and touches nothing else |
| `UrlQueues.UrlQueue.CleanUpQueue` | wasm/src/in3.js:478-496 | terminates with measure urls minus counter, claims every open response at once, and makes no native call |
| `UrlQueues.ArrivalKeepsFifo` | wasm/src/in3.js:445-468 | the FIFO invariant (k-th accepted promise, k-th arrival; never promises and responses both waiting; no url twice) survives an arrival |
| `UrlQueues.AskKeepsFifo` | wasm/src/in3.js:472-477 | ... and a request for the next response |
| `UrlQueues.CleanUpKeepsFifo` | wasm/src/in3.js:478-496 | ... and a clean-up, after which nothing is buffered |
| `UrlQueues.QueueIsFifo` | wasm/src/in3.js:438-499 | for every sequence of arrivals, requests and clean-ups, the k-th accepted asker gets the k-th arrival as soon as both exist, and everything else is still waiting in order |
| `UrlQueues.CleanedQueueDrains` | wasm/src/in3.js:449-496 | once cleaned up, whatever happened before and happens after, each response is consumed exactly once, none stays buffered, and when all have arrived every url has been delivered once |
| `UrlQueues.EngineIsToldDeliveries` | wasm/src/in3.js:449-468 | while the context is alive the engine is told exactly the delivered responses, in delivery order, each under its own url; a dead context is asked for once a delivery; without a client or after a clean-up there is no call |
| `DriverTurns.TurnOfLoop` | wasm/src/in3.js:307-368 | a cancelled request ends without ctx_execute; any other executes its context and ends exactly on a result, an error, "waiting" without a queue, or an rpc with no urls, wait or promise: its context freed, its count one less, its queues claimed for its client, the client disposed only if a delayed free waited; on every other reply it keeps its context, is suspended where the reply asks for, and the engine is answered for just the responses handed over |
| `DriverTurns.SettleTells` | wasm/src/in3.js:445-468 | in any state, a response that settles goes to the first promise or waits; the log then grows by exactly its liveness question and answer, by the question alone off the chain, and by nothing without a client or after a clean-up; the loop goes on exactly if the promise is its own |
| `DriverTurns.AwaitNextAsks` | wasm/src/in3.js:427-430 | the loop is refused past the last url, goes on with the first buffered response, or waits with its promise in the queue |
| `DriverTurns.AwaitNextTells` | wasm/src/in3.js:472-477 | awaiting tells the engine of exactly the responses handed over by it |
| `DriverSteps.FreeKeeps` | wasm/src/in3.js:398-407 | `free` keeps the invariant and disposes only a live client without live contexts |
| `DriverSteps.DisposeIsLegal` | wasm/src/in3.js:398-407 | with `pending` at zero no live context belongs to the client |
| `DriverSteps.FinishKeeps` | wasm/src/in3.js:360-368 | the finally block keeps the invariant and makes only legal calls, including the delayed free |
| `DriverTurns.WakeSends` | wasm/src/in3.js:346-351 | after the timer the request waits on a fresh queue of all its urls, or ends if there are none |
| `DriverTurns.AnswerTells` | wasm/src/in3.js:333-350 | a signature or promised result goes to the context that asked, and the loop goes on |
| `DriverTurns.RejectEnds` | wasm/src/in3.js:360-368 | a refused request for a further response runs the finally block |
| `DriverTurns.SendStarts` | wasm/src/in3.js:287-305 | a request on a client without pointer waits and makes no call; any other creates its context for that client, counts, and is over at once if the engine refuses |
| `DriverTurns.AdmitCreates` | wasm/src/in3.js:303-305 | the same for a request that had to wait |
| `DriverTurns.EnsureCreatesOnce` | wasm/src/in3.js:189-197 | only the first of several waiting requests creates, lists and registers the native client |
| `DriverTurns.FreeDisposesOrWaits` | wasm/src/in3.js:398-407 | a busy client is only marked; an idle one is disposed and unlisted, its finalizer called off unless the gc flag is set |
| `DriverTurns.FinalizerDisposes` | wasm/src/in3.js:45-53 | the finalizer disposes and unlists, and cannot fire again |
| `DriverTurns.LateResponseBlacklists` | wasm/src/in3.js:481-492 | a late response is looked at once; a bad one blacklists its own url on the client its request had, exactly if that is still listed and not collected |
| `DriverScenario.OrdinaryRequest` | wasm/src/in3.js:287-499 | a request sent to two urls, answered by one, done, with a bad late response: every call it makes, in order, none illegal |
| `DriverSteps.CallbackKeeps` | wasm/src/in3.js:481-492 | a late response of a cleaned-up queue blacklists only on a live client |
| `DriverTheorems.StepKeeps` | wasm/src/in3.js:287-499 | every step from every state with the invariant keeps it, and adds exactly the faults that missing tests let through |
| `DriverTheorems.NoRunUsesFreedMemory` | wasm/src/in3.js:287-499 | in every run no context is executed, asked about, answered or freed after its release, no client is used or blacklisted on after its disposal, and only three kinds of illegal call exist |
| `DriverTheorems.PendingCountsLiveContexts` | wasm/src/in3.js:303-305 | in every run `pending` is the number of contexts created and not freed, those are exactly the live ones, and the client table lists exactly the live clients |
| `DriverTheorems.OverwrittenQueueIsMute` | wasm/src/in3.js:423-430 | in every run a queue replaced by a retry has no promise, so its late responses never reach the engine |
| `DriverTheorems.QueuesServeInOrder` | wasm/src/in3.js:438-499 | in every run every queue of every request is FIFO, and a cleaned-up one holds no buffered response and no promise of the loop |
| `DriverTheorems.DisposedAtMostOnce` | wasm/src/in3.js:45-53 | runs that never pass the gc flag dispose each pointer at most once across `free`, delayed free and finalizer |
| `DriverTheorems.GentleRunsAreFaultless` | wasm/src/in3.js:287-407 | if moreover nobody frees a client with a starting request or sends on a client with a delayed free, every call is legal |
| `DriverFree.DelayedFreeStopsExecution` | wasm/src/in3.js:305-311 | after a delayed `free`, no request of the client, in flight or sent later, is ever executed again, in any continuation |
| `DriverFree.LastFinallyDisposes` | wasm/src/in3.js:360-368 | of a client with a delayed free, every step that leaves a request pending leaves the native client alive and undisposed in the whole log; the step after which nothing is pending has ended one of its requests and disposes it, as its last call and as the only disposal of that pointer in the log |
| `DriverGuards.FaultlessExactlyIfGuarded` | wasm/src/in3.js:45-53 | a run makes only legal calls if and only if the client has a pointer whenever a context is created and every finalizer finds its client listed; both can be tested before the call |
| `DriverDisposal.DisposedOnceExactlyIfInTime` | wasm/src/in3.js:45-53 | no pointer is disposed twice if and only if every finalizer that fires finds its client still listed |
| `DriverFaults.FreeWhileStarting` | wasm/src/in3.js:287-305 | a run from the start in which `free` between awaiting the client and creating the context leads to a context for the null client |
| `DriverFaults.GcFlagDisposesTwice` | wasm/src/in3.js:398-407 | a run from the start in which `free(true)` and the finalizer dispose the same pointer |
| `DriverFaults.ReuseAfterDelayedFree` | wasm/src/in3.js:398-407 | a run from the start in which `free` comes while a request awaits a signature; after the delayed free was carried out, two more requests on the client end in a context for the null client |
| `Utf.HexChar` | wasm/src/in3_util.js:502-511 | two digits for every byte |
| `Utf.PointToHex` | wasm/src/in3_util.js:519-536 | the branches print exactly the bytes of the code point |
| `Utf.ToUtf8Hex` | wasm/src/in3_util.js:513-538 | throws exactly if some surrogate is unpaired; else the hex text of the UTF-8 bytes of the code points, two digits a byte |
| `UtfTheorems.EncoderIsUtf8` | wasm/src/in3_util.js:513-538 | the bytes match the grammar in section 4 of RFC 3629, and the text can be read back from them, so the encoder is injective on well-formed UTF-16 |
| `UtfTheorems.EveryUtf8IsEncoded` | wasm/src/in3_util.js:513-538 | every byte string of that grammar is the encoding of some well-formed text |
| `UtfTheorems.Utf8ArrayToStr` | wasm/src/in3_util.js:85-116 | the loop computes the decoding function, also past the end of truncated input |
| `UtfTheorems.DecodeEncoded` | wasm/src/in3_util.js:85-116 | decoding an encoded text gives the text with exactly its surrogate pairs removed |
| `UtfTheorems.RoundTripExactlyOnBasicPlane` | wasm/src/in3_util.js:85-116 | the round trip is the identity if and only if the text has no surrogate pair |
| `UtfTheorems.PairIsLost` | wasm/src/in3_util.js:85-116 | the pair D83D DE00 is encoded as F0 9F 98 80 and decoded as nothing |
| `UtfTheorems.TruncatedReadsZeros` | wasm/src/in3_util.js:99-111 | a character cut off at the end is completed by zero bits |
| `HexText.PadStart` | wasm/src/in3_util.js:491-495 | the text behind exactly the missing number of fill characters |
| `HexText.ComplementDenotes` | wasm/src/in3_util.js:329-333 | the carry over the digits subtracts from the power of 16, and leaves only zeros alone |
| `HexText.ComplementText` | wasm/src/in3_util.js:329-333 | the map with its mutable carry, reversed and joined, prints the complement |
| `HexText.Negative` | wasm/src/in3_util.js:329-333 | a negative number of k digits becomes max(k, 2 * bytes) digits that denote 16^w minus it, or 16^w - 16^k for zero; the two's complement if and only if it is not zero or k is w |
| `HexText.NegativeZero` | wasm/src/in3_util.js:329-333 | "-0" in one byte becomes 0xf0 |
| `HexText.ToHex` | wasm/src/in3_util.js:329-340 | prefix, lower case, even length, value and width of the result for signed and unsigned digits |
| `HexText.ToHexOfNegative` | wasm/src/in3_util.js:307-340 | for every n > 0 and 0 < v < 256^n, toHex(-v, n) has exactly 2n digits and denotes 256^n - v; without a length n is 32 |
| `HexText.BytesToHex` | wasm/src/in3_util.js:323-327 | throws exactly for the empty array; else two digits a byte, with the big-endian value of the bytes |
| `HexText.HexToBytes` | wasm/src/in3_util.js:389-392 | each byte is its pair of digits, and for every number of digits, odd or even, the bytes have the value of the text |
| `HexText.BrokenPairs` | wasm/src/in3_util.js:389-392 | pairs that are not two digits count up to the first character that is none |
| `HexText.BytesRoundTrip` | wasm/src/in3_util.js:381-421 | toHex throws exactly for the empty byte array, and toUint8Array(toHex(b)) is b for every other one |
| `HexText.Resize` | wasm/src/in3_util.js:405-414 | a nonempty value, and only such a one, gets exactly len bytes, and its residue modulo 256^len; zero becomes empty for len 0; all else is unchanged |
| `HexText.EmptyStaysEmpty` | wasm/src/in3_util.js:405-414 | nothing padded to one byte is not one byte |
| `HexText.ToMinHex` | wasm/src/in3_util.js:459-474 | a text without "0x" in front counts as what `toHex` makes of it, and throws if that does; then trimmed texts without "0x" and a further character are refused, and the others lose their leading zeros |
| `HexText.TrimmedIs` | wasm/src/in3_util.js:465 | trimming takes white space off both ends, nothing else, and all of it |
| `HexText.MinHexIs` | wasm/src/in3_util.js:468-474 | the minimal form is "0x" and the digits without leading zeros, or "0x0" |
| `HexText.MinHexCanonical` | wasm/src/in3_util.js:459-474 | lower-case texts have equal minimal form if and only if they denote the same number |
| `TypeLists.Collect` | wasm/src/in3_util.js:256-274 | the loop cuts exactly at the commas outside all parentheses, and loses a last piece of fewer than two characters |
| `TypeLists.SplitTypes` | wasm/src/in3_util.js:254-275 | the same after removing one pair of outer parentheses, if asked to |
| `TypeLists.PiecesExactly` | wasm/src/in3_util.js:254-275 | for every text, balanced or not, the pieces joined are the text, none has a comma at level zero, and all but the last close at level zero |
| `TypeLists.LevelCounts` | wasm/src/in3_util.js:259-266 | the level is the number of opening minus closing parentheses |
| `TypeLists.SplitUndoesJoin` | wasm/src/in3_util.js:254-275 | splitting a bracketed comma-join of closed items gives the items back if and only if there are none or the last has at least two characters |
| `TypeLists.ShortItemIsLost` | wasm/src/in3_util.js:254-275 | "(ab,c)" is split into "ab" alone |
| `AbiTypes.SplitPrinted` | wasm/src/in3_util.js:254-275 | splitting the printed form of a tuple, nested to any depth, gives the printed components |
| `AbiTheorems.ConvertIsFold` | wasm/src/in3_util.js:226-252 | on types with at most one array, outermost, conversion by the printed type equals the fold over the type tree for every value, errors for wrong arity included |
| `AbiShapes.ConvertEachPointwise` | wasm/src/in3_util.js:249-252 | a list of values converts exactly if each value does by the type at its place, and entry i of the result is the conversion of value i |
| `AbiShapes.TupleConverts` | wasm/src/in3_util.js:230-252 | by a tuple text: exactly lists of the right arity convert, to the list of their converted components |
| `AbiShapes.ArrayConverts` | wasm/src/in3_util.js:226-228 | by a text with a bracket: nothing and the empty text give the empty list, a list the list of its converted elements, all else fails |
| `AbiShapes.LeafConverts` | wasm/src/in3_util.js:231-247 | by any other text: what the leaf converter gives |
| `AbiShapes.TreeConverts` | wasm/src/in3_util.js:226-252 | the same, position by position, for the fold over the type tree |
| `AbiTheorems.TupleWithArrayFails` | wasm/src/in3_util.js:226-230 | any tuple containing an array turns a missing value into an empty list instead of an error |
| `AbiTheorems.InnerArrayFails` | wasm/src/in3_util.js:226-252 | every type with an array in a tuple or in another array has a value, without nulls if the leaves have none, that the tree converts and the code does not, or differently |
| `AbiTheorems.EmptyListFails` | wasm/src/in3_util.js:226-252 | by the type "(ab[])" a list holding an empty list is refused, although the tree converts it |
| `AbiTheorems.AgreeExactlyIfSimple` | wasm/src/in3_util.js:226-252 | for every type, code and tree agree on all values if and only if the type has at most one array, outermost |
| `TypeTable.Flatten` | scripts/generator/util.js:16-20 | flattening one object leaves it with its meaning and keeps every object of the table consistent |
| `TypeTable.GetType` | scripts/generator/util.js:14-25 | in whatever state earlier calls left the table, the result is the type's meaning in the original table; flattened objects are not touched again, and a settled type changes nothing |
| `TypeTable.GetTypes` | scripts/generator/util.js:14-25 | after any sequence of calls all results, early and late, still have their original meaning |
| `TypeTable.ResolvedStays` | scripts/generator/util.js:23-24 | flattening any set of objects does not change what a name resolves to |
| `TypeTable.MeaningStays` | scripts/generator/util.js:16-20 | ... nor the meaning of any type |
| `TypeChains.ResolvedIsLastAlias` | scripts/generator/util.js:23-24 | a value resolves to the last of its aliases that means something |
| `TypeChains.FirstHolderWins` | scripts/generator/util.js:16-20 | along the chain of extensions, a key has the value of the first type that has it |
| `TypeChains.OtherwiseFinalText` | scripts/generator/util.js:16-20 | a key that no type of the chain has comes from the characters of a final unknown name, or is not there |
| `TypeChains.OwnPropertiesSurvive` | scripts/generator/util.js:19 | every type keeps all its own properties with their own values |
| `TypeChains.CharPropsAre` | scripts/generator/util.js:19 | spreading a name gives each of its characters under its decimal position, and nothing else |
| `Configuration.Base.SetState` | dotnet/In3/Configuration/BaseConfiguration.cs:29-33 | the key has the value, all other keys keep theirs, and it is dirty exactly if it was, the key is new, or the reference differs |
| `Configuration.Base.MarkAsDirty` | dotnet/In3/Configuration/BaseConfiguration.cs:45-48 | never takes dirtiness back |
| `Configuration.Base.Clean` | dotnet/In3/Configuration/BaseConfiguration.cs:40-43 | clears the flag and keeps the dictionary |
| `Configuration.Client.AddNode` | dotnet/In3/Configuration/NodeRegistryConfiguration.cs:78-85 | appends one clean, empty node and leaves the rest of the tree |
| `Configuration.Client.SetNode` | dotnet/In3/Configuration/NodeConfiguration.cs:55-68 | setting a property of one node changes that node only |
| `Configuration.Client.Changed` | dotnet/In3/Configuration/NodeRegistryConfiguration.cs:87-91 | true exactly if the client, the registry or some node is dirty |
| `Configuration.Client.MarkSynced` | dotnet/In3/Configuration/ClientConfiguration.cs:230-234 | cleans all objects of the tree and changes no dictionary |
| `Configuration.In3.constructor` | dotnet/In3/Configuration/ClientConfiguration.cs:213-218 | a configuration read from the native client starts clean and in sync |
| `Configuration.In3.ApplyConfiguration` | dotnet/In3/Native/NativeClient.cs:33-41 | accepted: the native client has the whole tree and the tree is clean; refused: nothing has changed |
| `Configuration.In3.SendRpc` | dotnet/In3/IN3.cs:102-110 | on the heap of objects an RPC is the step of the run model, and starts exactly if nothing was refused |
| `Configuration.ReadIsTracked` | dotnet/In3/Configuration/ClientConfiguration.cs:213-218 | whatever configuration was read, every run starts with all its dictionaries in sync |
| `Configuration.AppliedTracked` | dotnet/In3/Configuration/BaseConfiguration.cs:29-48 | every operation keeps: a clean dictionary holds what the native client has |
| `Configuration.UnchangedIsInSync` | dotnet/In3/Configuration/ClientConfiguration.cs:225-234 | over every run, an unchanged tree holds for every key of every object what was last sent |
| `Configuration.UnsentNodes` | dotnet/In3/Configuration/NodeRegistryConfiguration.cs:78-85 | over every run, the nodes the native client lacks are as many as were added since it was last sent the tree |
| `Configuration.RpcStartsInSync` | dotnet/In3/IN3.cs:102-110 | over every run, an RPC starts if and only if the tree was unchanged or is accepted, and then with every set property applied; with the whole tree if and only if the tree was changed or no node was added since it was last sent; a refused tree stays as it is, still to be applied |
| `ConfigurationValues.TreeHoldsLastSet` | dotnet/In3/Configuration/BaseConfiguration.cs:29-33 | after every run each key of the client, the registry and every node has exactly the value set last, or its initial one |
| `ConfigurationValues.RpcCarriesLastSet` | dotnet/In3/IN3.cs:102-110 | an RPC that starts carries exactly those values, at every key of every object |
| `Configuration.AcceptedIsClean` | dotnet/In3/Native/NativeClient.cs:33-41 | an accepted one leaves a clean tree with the same properties, and the native client has them |
| `Configuration.EmptyNodeUnnoticed` | dotnet/In3/Configuration/NodeRegistryConfiguration.cs:78-91 | from every unchanged tree, adding a node without properties is not seen and not sent |
| `NodeList.Nodes.BlacklistNode` | c/include/in3/nodelist.h:291-311 | blocks the node and writes its time if it exists and is not blocked, reports an error if it is blocked, and does nothing if there is none |
| `NodeList.Nodes.BlacklistFirst` | c/include/in3/nodelist.h:313-325 | the loop is about the first match, by the index that node carries |
| `NodeList.TargetIsFirstMatch` | c/include/in3/nodelist.h:313-325 | on a list whose nodes carry their position, that is the first match itself |
| `NodeList.TargetIs` | c/include/in3/nodelist.h:273-325 | by index a call is about that position, by address or url about the first node that has it, or about none |
| `NodeList.ErrorExactlyIfBlocked` | c/include/in3/nodelist.h:291-293 | after every run a call reports an error exactly if its node was blocked at the start or an earlier call was about it |
| `NodeList.RunOutcome` | c/include/in3/nodelist.h:291-325 | after every run a node is blocked exactly if it was or some call was about it, its time is that of the first such call plus its seconds in 64 bits, written at most once, and the data is dirty if and only if it was or some time changed |
| `NodeList.BlockedGrows` | c/include/in3/nodelist.h:291-325 | the blocked set grows by exactly the targets of the calls |
| `ByteOrder.Bytes.OptimizeLen` | c/include/in3/bytes.h:122-127 | narrows the window past leading zero bytes, down to one byte |
| `ByteOrder.OptimizedDenotes` | c/include/in3/bytes.h:122-127 | that keeps the big-endian value and leaves no leading zero in front of another byte |
| `ByteOrder.MemcmpOrders` | c/include/in3/bytes.h:129-133 | on equal lengths the comparison has the sign of the difference of the values |
| `ByteOrder.CompareIsNumeric` | c/include/in3/bytes.h:129-133 | after optimizing, the sign of the comparison is that of the difference of the values, except exactly when one string is empty and the other denotes zero |
| `ByteOrder.EmptyIsNotZero` | c/include/in3/bytes.h:129-133 | the empty string and one zero byte denote the same number, and the first compares as smaller |
| `BigIntHex.PrintedForm` | dotnet/In3/Utils/DataTypeConverter.cs:54-61 | the printed text is a sign, "0x" and the shortest lower-case numeral, whatever sign digit the two's complement format adds |
| `BigIntHex.PrefixedIsUnsigned` | dotnet/In3/Utils/DataTypeConverter.cs:35-52 | text after "0x" is read as an unsigned number for every first digit, and anything else than digits is a format error |
| `BigIntHex.UnprefixedIsSigned` | dotnet/In3/Utils/DataTypeConverter.cs:51 | hex text without prefix is read as two's complement of its width |
| `BigIntHex.PrintedIsReadSigned` | dotnet/In3/Utils/DataTypeConverter.cs:54-61 | the two's complement text of a number is read back as that number |
| `BigIntHex.BlankOrRefused` | dotnet/In3/Utils/DataTypeConverter.cs:37-51 | blank text is zero, and other text that is not hex is refused |
| `BigIntHex.BigIntRoundTrip` | dotnet/In3/Utils/DataTypeConverter.cs:35-61 | HexStringToBigint(BigIntToPrefixedHex(n)) is n for every integer n |

## Assumptions of the driver model

* Native pointers are fresh and never reused; a client is never the null pointer.
* Each transport promise settles at most once.
* `config.debug` is off and `setResponse` does not throw.
* When the engine refuses a context it has set an error, so `sendRequest` throws.
* The context chain after `ctx_execute` contains the root, and the context it
  speaks about.
* A client object is collected only after its requests have ended, and without
  a FinalizationRegistry only after its pointer is gone.
* A wait in front of a `promise://` url is part of the wait for its result.
* A request that finds no native client may wait arbitrarily long before and
  after `_ensure_ptr`; awaited timers, signatures and `promise://` results
  arrive at any time or never. A reply "waiting" for a context without a queue
  is allowed and ends the request, as the resulting exception does.

## Left out

- The native engine (`ctx_execute`, verification, crypto, JSON): only its create, free, alive, set-response and blacklist interface is modelled.
- The driver's own objects are modelled on values, not as a class, because its segments interleave at every await; the model has no aliasing of `IN3` objects. The response queue is modelled both as a value and as an object.
- Bulk requests, the ENS replacement, `setConfig`, `execLocal`, signers, transports and storage: input and output, or outside the protocol.
- What a request returns or throws to its caller: the driver model ends a request without saying with which result.
- `toHex` and `toUint8Array` before the digits or bytes are known: the choice of the branch by JavaScript type, and texts with other characters than hex digits after a sign.
- HexText.ToMinHex: takes what `toHex` makes of the text as a parameter, and does not take keys that are not texts.
- ConvertType sees any leaf converter as a function of type text and value; the converters themselves are not modelled, nor values that are numbers or objects.
- AbiTheorems.AgreeExactlyIfSimple: assumes that the leaf converters accept some value of every elementary type; if they refuse everything, code and tree agree by failing alike.
- TypeTable.GetType: only for acyclic tables whose names lead to known objects; the original does not terminate on a cycle.
- Configuration: `NodeRegistry` is present and never replaced, arrays are not changed in place, and the omission of nulls and the exception of the `Props` getter during serialization are not modelled.
- NodeList.Nodes.BlacklistNode: has no branch for a missing weight, because weights and nodes have the same length.
- ByteOrder.CompareIsNumeric: lengths below 2^31, where the casts to int are exact.
- BigIntHex.PrefixedIsUnsigned: a null source, which reads as zero, is not modelled.
- `BytesToHexString` and `HexStringToByteArray` of DataTypeConverter: would only add easy members beside the JavaScript versions.
- Data-transfer classes, generators other than `getType`, Java, Python and Swift bindings.
