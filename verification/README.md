# logos-bridge client: verified model

A Dafny model of the Python client for the Logos JSON-RPC bridge, and proofs about it. It covers four
parts of the client.

* **The subscription and request protocol.** One client object and the bridge exchange requests and
  frames over one connection. Every stretch of a coroutine between two awaits is one step
  (`ClientState`); the bridge's handlers are steps too (`BridgeState`); `Joint` puts both on two
  first-in-first-out channels. Invariants hold in every interleaving of events, acknowledgements,
  refusals, terminations, timeouts, cancellations, overflows, unsubscribes and the disconnect.
  `Delivery` (with `Feeds`) says what reaches a subscriber and why a stream ends, `IdFates` (with
  `EntrySteps`) what becomes of each subscription id, `Targets` which event it stands for, `Zombies`
  (with `ZombieSteps`) when it is forgotten, `Counters` (with `CounterSteps`) what the client counts. The
  objects themselves (`BridgeClient.Client`, `BridgeClient.Stream`, `BridgeConnection.FakeConnection`,
  `Batch.Collector`) are classes whose methods are proved to do what those step functions say.
* **The LIDL type language.** The compact spelling of types and its parser (`ShapeText`, `ShapeGrammar`,
  `Spellings`), shape documents (`Contract`, `ContractForms`), the renaming of records in first-reference order (`FirstReference`,
  `Renaming`, `Structure`, `Signatures`, `RecordNamer`, `SpelledForms`; `Canonical` for one member, `WholeForm` for a
  whole interface, `FormContents` for what stands where), contract comparison (`Compat`) and the warning about infinite records
  (`InfiniteRecords`).
* **Typed calls.** The codecs over possibly recursive records (`Codecs`, `CodecCases`, `CodecLaws`, `Builder`), the
  bytes tag (`Base64`, `Base64Numbers`, `Base64Standard`, `Values`), which values and documents a type has, told from the type alone
  (`TypeMeaning`, `TypeCases`, `TypeLaws`, `CallTypes`), argument binding, encoding and the provider's side (`Plans`,
  `Binding`), a call between a client and a provider with different record classes (`TypedCall`), and
  results that look like rejections (`Rejection`).
* **Two small protocols and printers.** Cancelling a pump of callbacks across threads (`Pump`,
  `PumpRuns`, `PumpAccounts`, `PumpReports`, `PumpHandle`) and Python literals that read back as what they were printed from (`PyLiteral`,
  `PyLines`, `PyLayout`).

Fields and variables marked "history" or `ghost` are not in the source; they record what happened, so
that it can be talked about. `Look` (in `Wrappers`) guards large definitions: a definition under
`forall k :: Look(k) && k == n ==> ...` is unfolded only where `Look(n)` is asserted.

Every model follows the code. Where the code does not keep what one would expect, the exact condition
is proved:

* `unsubscribe()` gathers its requests. A gathered task that is cancelled before its first turn never
  sends anything, so the bridge keeps serving an id that the client has given up
  (`LeakWitness.GatheredUnsubscribeCanLeak`). With both channels drained, the bridge's subscribers are
  the client's active ids exactly when every such id has been terminated by the bridge
  (`JointResults.AtRestBridgeMatchesClient`), and always in a run in which no gathered task is
  cancelled before its first turn (`Uncancelled.AtRestWithoutCancellation`).
* `from_shape(i.shape()).shape() == i.shape()` holds exactly when no built-in's name (`name`,
  `version`, `lidl`) is declared with a return that is a `tstr` node with elements
  (`Contract.RoundTrip`; `Contract.MalformedDoesNotRoundTrip` has one that is).
* `rejection_ambiguous` never calls a safe return ambiguous, but overlooks some that can be sent as a
  rejection: a type that the codec takes for `any` and that is not spelled so (an unknown kind or
  primitive, another number of elements, a map key other than `tstr`), a map of such values, and a record
  whose further fields are all optional or whose three fields have such types. For every return whatever it
  is right exactly when the type is not one of these (`Rejection.AmbiguousIsRightExactly`;
  `Rejection.ExtraFieldMisleads` and `Rejection.UnknownKindMisleads` have two that mislead it). Of known
  types only the records with further optional fields remain (`Rejection.AmbiguousIsRightUnlessExtras`).
* `PumpHandle.cancel` promises that no callback follows. A call that returns stops all callbacks if and
  only if the pump has no error callback or the call was not made in an item's callback
  (`PumpRuns.ReturnStopsExactly`). At any later moment a callback can still start exactly while the
  pump has an error callback and that item's callback runs or has just raised
  (`PumpRuns.CancelStopsExactly`); what starts is its error callback, once
  (`PumpRuns.CancelStopsCallbacks`, `PumpRuns.ErrorCallbackAfterCancel`).

## Model

| member | source | states |
|---|---|---|
| EventStream.RunsKeep | src/logos_bridge/subscription.py:65-122 | over any interleaving of pushes, ends, gets and abandoned waits: events handed out are a prefix of those pushed, received counts both, the bound holds, no waiter stays behind a non-empty or ended queue, the first cause stays |
| EventStream.RaisedOnlyWhenDrained | src/logos_bridge/subscription.py:83-109 | the terminal exception comes only when everything pushed has been handed out, and every later get raises the same cause |
| EventStream.GetsReturnPushed | src/logos_bridge/subscription.py:65-116 | from a new stream the gets return exactly the events pushed while it was neither ended nor at its bound, each once and in order; the high-water mark is the greatest depth reached |
| EventStream.GetFinds | src/logos_bridge/subscription.py:102-116 | a get returns the next pushed event while there is one, whatever else holds; then the cause; then its timeout; else it registers its waiter |
| EventStream.WaitersStay | src/logos_bridge/subscription.py:97-122 | a registered waiter stays registered until something is pushed, the stream ends or its own get gives up, so no wake-up is lost |
| BridgeClient.Stream.PushEvent | src/logos_bridge/subscription.py:68-81 | the object's push appends in place, raises the counters and releases every waiter |
| BridgeClient.Stream.EndWith | src/logos_bridge/subscription.py:83-90 | only the first end has an effect |
| BridgeClient.Stream.GetTurn | src/logos_bridge/subscription.py:102-116 | one turn of get: the oldest event, else the cause, else a timeout, else a registered waiter |
| BridgeClient.Client.Detach | src/logos_bridge/client.py:486-496 | the loop over a stream's entries releases the active ones, dooms the pending ones and returns exactly the acknowledged ids, in order |
| BridgeClient.Client.ReleaseStream | src/logos_bridge/client.py:498-500 | one background unsubscribe per acknowledged id, in order, and only on an open connection |
| BridgeClient.Client.RouteEvent | src/logos_bridge/client.py:438-467 | an event is counted as unrouted, dropped, queued, or overflows its stream, which is then ended and released |
| BridgeClient.Client.RouteTermination | src/logos_bridge/client.py:469-484 | a terminated id is unrouted; unless it was a zombie its stream ends with that cause and is released |
| BridgeClient.Client.RouteResponse | src/logos_bridge/client.py:407-424 | a response pops its request and completes its future unless that is done; an unknown id counts as late |
| BridgeClient.Client.Dispatch | src/logos_bridge/client.py:407-436 | each frame has exactly the effect of its route, and the client's invariant survives it |
| BridgeClient.Client.OnDisconnect | src/logos_bridge/client.py:502-522 | every pending future is cut, every routed entry released, every stream with a routed id ended, both tables emptied |
| BridgeClient.Client.Expire | src/logos_bridge/client.py:537-544 | a timer pops its request and fails a future that still waits |
| BridgeClient.Client.SendRequest | src/logos_bridge/client.py:546-568 | a fresh id is pending with a waiting future and its request is sent |
| BridgeClient.Client.FinishSend | src/logos_bridge/client.py:576-581 | whatever the outcome, the id leaves the pending table and a future that still waits is cancelled |
| BridgeClient.Client.ResumeUnsubscribe | src/logos_bridge/client.py:588-599 | a finished background unsubscribe forgets a zombie and nothing else |
| BridgeClient.Client.StartSubscribe | src/logos_bridge/client.py:750-775 | entries with new ids are registered before any request goes out, then the loop runs to its first await |
| BridgeClient.Client.SubscribeLoop | src/logos_bridge/client.py:763-789 | the loop skips settled entries, sends the next pending one, or aborts |
| BridgeClient.Client.ResumeSubscribe | src/logos_bridge/client.py:770-789 | after an acknowledgement the entry becomes active, or is released and unsubscribed if it was doomed; after any failure the subscription is aborted |
| BridgeClient.Client.AbortSubscribe | src/logos_bridge/client.py:791-811 | a timed-out or cancelled entry becomes a zombie that is unsubscribed, a refused or unsent one fails, acknowledged ones are released and unsubscribed |
| BridgeClient.Client.CloseStream | src/logos_bridge/client.py:813-831 | closing ends the stream once, detaches it and creates one unsubscribe per acknowledged id, gathered or in the background |
| BridgeClient.Client.Take | src/logos_bridge/subscription.py:102-116 | taking from a stream of the client changes that queue only |
| ClientRun.StepKeeps | src/logos_bridge/client.py:303-831 | every step keeps the invariant: ids never reused, routed entries exactly the pending, active and doomed ones and some zombies, ended streams without pending or active entries, doomed and zombie entries of ended streams only, futures and requests in step |
| ClientSteps.AbortKeeps | src/logos_bridge/client.py:791-811 | aborting a subscription keeps the invariant |
| ClientSteps.EndStreamKeeps | src/logos_bridge/client.py:486-500 | ending and releasing a stream, for whatever cause, keeps the invariant |
| ClientSteps.DisconnectKeeps | src/logos_bridge/client.py:502-522 | the disconnect keeps the invariant |
| Requests.CompletedOnlyBy | src/logos_bridge/client.py:546-581 | a waiting future is completed only by its own response, its own timer, the disconnect, the cancellation of its own coroutine or the failure of its own send |
| Requests.ReturnedNotPending | src/logos_bridge/client.py:576-581 | when a request's coroutine has returned its id is no longer pending and its future is done |
| Feeds.FrameFeeds | src/logos_bridge/client.py:438-484 | what each frame does to each stream: an event of a pending or active id is pushed as it came, overflows a full stream, or does nothing; a termination ends the stream of the id unless it was a zombie; nothing else is pushed or ended |
| Delivery.FedExactly | src/logos_bridge/client.py:438-467 | over every run each stream has been pushed exactly, in order, the id and the data of the event frames that the client took while their id was pending or active there and the stream was neither ended nor at its bound |
| Delivery.FedInOrder | src/logos_bridge/client.py:438-467 | over every run what a stream has been pushed are event frames posted by the bridge for its own ids, at increasing places, none twice |
| Delivery.EndExplained | src/logos_bridge/client.py:469-522 | over every run the cause with which a stream ended names the move that ended it: an overflowing event, a termination of one of its ids, the disconnect while it had a routed id, or its own client |
| IdFates.StartFates | src/logos_bridge/client.py:750-775 | subscribing registers one fresh pending id for each target, in order, in a new stream with the given bound, and then asks for the first or gives up |
| IdFates.ResumeFates | src/logos_bridge/client.py:763-811 | what becomes of every id when a subscribe request comes back: acknowledged, it is active, or released and unsubscribed if it was doomed, and the next pending one is asked for; refused or cut, it has failed and is not unsubscribed; timed out or cancelled, it is a zombie and unsubscribed; the acknowledged ones of a subscription given up are unsubscribed in order |
| IdFates.EndingFates | src/logos_bridge/client.py:486-500 | ending a stream releases and unsubscribes its acknowledged ids in order, dooms its pending ones, and changes no other id |
| IdFates.TerminationFates | src/logos_bridge/client.py:469-484 | a termination marks the routed id it names, and ends its stream unless the id was a zombie |
| IdFates.EventFates | src/logos_bridge/client.py:438-455 | an event changes ids only by overflowing its stream |
| IdFates.CloseFates | src/logos_bridge/client.py:813-831 | closing an ended stream does nothing, closing another ends it |
| IdFates.DisconnectFates | src/logos_bridge/client.py:502-522 | the disconnect releases every routed id that is no zombie, empties both tables, cuts exactly the waiting futures and unsubscribes nothing |
| IdFates.UnsubscribeFates | src/logos_bridge/client.py:583-599 | an unsubscribe task sends its id once on an open connection; on another it comes to nothing and a background one forgets its zombie |
| Targets.ServedAsAsked | src/logos_bridge/client.py:750-775 | from a call of subscribe on, in every run: the stream keeps its bound, each id its target, and whenever the bridge serves the id of a target it serves that target |
| Targets.ClaimedTargets | src/logos_bridge/testing/_fake.py:1344-1395 | over every run the bridge serves each id with the target of the client's entry |
| Counters.CountsExactly | src/logos_bridge/client.py:407-443 | over every run late_responses and unrouted_events are the numbers of responses without a pending request and of events without a routed id that the client took |
| BridgeConnection.FakeConnection.Subscribe | src/logos_bridge/testing/_fake.py:1344-1395 | a subscribe is refused, already claimed, or claims the id in both tables until its handler fails; the tables stay equal and no request is answered twice |
| BridgeConnection.FakeConnection.FinishHandler | src/logos_bridge/testing/_fake.py:1380-1395 | a failed handler gives the id back in both tables before its error is queued |
| BridgeConnection.FakeConnection.Unsubscribe | src/logos_bridge/testing/_fake.py:1405-1417 | an unsubscribe gives the id back and is always acknowledged |
| BridgeConnection.FakeConnection.Terminate | src/logos_bridge/testing/_fake.py:922-944 | exactly the matching subscribers are dropped, each with one termination frame, in one order |
| BridgeConnection.FakeConnection.Emit | src/logos_bridge/testing/_fake.py:902-920 | exactly the matching subscribers get one event frame each |
| BridgeConnection.EmitExactly | src/logos_bridge/testing/_fake.py:902-920 | each of the ids gets one frame with the emitted data, in order, and nothing else changes |
| BridgeState.SubscribeExactly | src/logos_bridge/testing/_fake.py:1344-1395 | an id is claimed exactly when it is permitted, below the limit and new and its handler has not failed; an id claimed before is acknowledged and keeps its target; the limit is never passed |
| Joint.MoveKeeps | src/logos_bridge/testing/_fake.py:1344-1417 | every move of client and bridge keeps the joint ledger of claimed, acknowledged, given-back and terminated ids |
| JointResults.ClaimedIdsAccounted | src/logos_bridge/client.py:486-500 | in every run, while the client is open, each id the bridge has claimed is still routed at the client, has an unsubscribe in flight, or lost it to a cancelled gather |
| JointResults.ActiveIdsServed | src/logos_bridge/client.py:750-789 | in every run, while the bridge's side is open, each active id is claimed at the bridge or has a termination in flight |
| JointResults.AtRestBridgeMatchesClient | src/logos_bridge/client.py:813-826 | once everything has settled the bridge's subscribers are the active ids and the leaked ones, and are exactly the active ids if and only if every lost unsubscribe was for a terminated id |
| Zombies.ZombiesPart | src/logos_bridge/client.py:588-599 | over every run, while the connection is open, an id kept as a zombie has its unsubscribe queued or under way |
| Zombies.AtRestTablesAgree | src/logos_bridge/client.py:588-599 | once everything has settled the client routes exactly its active ids, and the bridge serves exactly those and the leaked ones |
| JointResults.RunLasts | src/logos_bridge/client.py:303-360 | over time the connection's life never goes back, a completed future keeps its outcome, a given-up entry stays so, and streams only grow |
| JointResults.NothingAfterDisconnect | src/logos_bridge/client.py:502-522 | once the connection has gone nothing is pending or routed, now or later |
| JointResults.StreamsSound | src/logos_bridge/subscription.py:65-122 | in every run each stream's counters, bound, order and waiters are right, and an ended one has no active or pending entry |
| Uncancelled.AtRestWithoutCancellation | src/logos_bridge/client.py:813-826 | in a run in which no gathered unsubscribe is cancelled before its first turn, at rest the bridge's subscribers are exactly the active ids |
| LeakWitness.GatheredUnsubscribeCanLeak | src/logos_bridge/client.py:813-826 | a run that ends at rest with a subscriber at the bridge and no active id at the client |
| Batch.SunkOnce | src/logos_bridge/testing/_fake.py:523-554 | for any order and repetition of fills the sink is called at most once, exactly when every slot is filled, with each slot's first response in request order |
| Batch.SunkBody | src/logos_bridge/testing/_fake.py:541-554 | a body that was one request is answered by its response alone, a list by the list of first responses in request order |
| Batch.SlotsHoldFirst | src/logos_bridge/testing/_fake.py:533-539 | a slot holds the first response offered to it |
| Batch.Collector.FillSlot | src/logos_bridge/testing/_fake.py:533-539 | the array is filled in place and the remaining count is always the number of empty slots |
| Batch.Collector.Flush | src/logos_bridge/testing/_fake.py:541-554 | the sink gets the present responses in order, a single one unwrapped for a single request |
| ShapeText.ParsePrint | src/logos_bridge/lidl.py:1027-1053 | parsing the spelling of a compactable type gives its normal form |
| ShapeText.SpelledAlike | src/logos_bridge/lidl.py:1027-1053 | two compactable types are spelled alike exactly when their normal forms are equal |
| ShapeText.ParseAt | src/logos_bridge/lidl.py:1126-1151 | whatever the parser accepts has a compact spelling, and it always moves on |
| ShapeGrammar.ParsesExactly | src/logos_bridge/lidl.py:1099-1151 | the parser accepts a text as a type if and only if it is the text that the grammar gives that type: a name, `[T]`, `{K:V}` or `?T` |
| Spellings.OptionalSpelled | src/logos_bridge/lidl.py:1027-1037 | an optional type has one question mark, however often it is optional, and `any` none |
| ShapeText.ShapeTypeParser.Parse | src/logos_bridge/lidl.py:1112-1151 | the parser object terminates on every text and reads exactly what the grammar says, with its position |
| ShapeText.Parse | src/logos_bridge/lidl.py:1099-1109 | the entry point refuses trailing text |
| ShapeText.SlotRoundTrip | src/logos_bridge/lidl.py:1056-1063 | a slot with consistent derived keys, spelled, parsed and made a slot again, is spelled the same |
| Contract.FromShape | src/logos_bridge/lidl.py:912-952 | a document is rebuilt if and only if every type in it parses, and then each record, method and event has its fields and parameters place by place, with the types that their spellings stand for; in any dictionary order the document of the rebuilt interface is the same but for disguised built-ins |
| ContractForms.ShapeListsMembers | src/logos_bridge/lidl.py:883-910 | the document has exactly the interface's records, methods and events, each with the parameters in declaration order, the return and the fields of its own signature |
| Contract.ReadMethod | src/logos_bridge/lidl.py:937-949 | a method reads back with the form it had, and as the built-in when it looks like one |
| Contract.RoundTrip | src/logos_bridge/lidl.py:883-952 | the shape of the rebuilt interface equals the shape exactly when no built-in is malformed |
| Contract.MalformedDoesNotRoundTrip | src/logos_bridge/lidl.py:883-952 | an interface whose shape changes when it is rebuilt |
| FirstReference.VisitsReachable | src/logos_bridge/lidl.py:1083-1093 | the namer names exactly the records that a chain of references reaches, recursive ones included |
| FirstReference.VisitMaps | src/logos_bridge/lidl.py:1083-1093 | the order of first reference follows any renaming of records |
| Spellings.FirstReferenceNext | src/logos_bridge/lidl.py:1083-1093 | the first new record of a list is named next, then everything new that it refers to, then the rest |
| Spellings.NewNameIs | src/logos_bridge/lidl.py:1087-1088 | the k-th new name is R and k in base ten, without leading zeros |
| Renaming.SpellsRenamed | src/logos_bridge/lidl.py:1075-1081 | substituting names in a spelling spells the renamed type |
| Renaming.NewNamesDiffer | src/logos_bridge/lidl.py:1087-1088 | R0, R1, ... are distinct |
| Structure.SortedNamesIncrease | src/logos_bridge/lidl.py:961-969 | the order of methods, events and fields increases, each name once |
| Structure.SortedNamesOnly | src/logos_bridge/lidl.py:961-969 | and is the only increasing list of those names, so it is what `sorted` gives |
| Spellings.LeqIs | src/logos_bridge/lidl.py:961-969 | names are ordered by code point: a prefix first, else by the first difference |
| Structure.SameFormIffRenaming | src/logos_bridge/lidl.py:972-996 | on type trees, structural forms are equal exactly when a bijection between the reached records carries one to the other |
| Canonical.EqualSignaturesIffRenaming | src/logos_bridge/lidl.py:954-987 | two members have equal structural signatures exactly when they differ by a renaming of the records they reach, field names fixed |
| WholeForm.EqualDocumentsIffRenaming | src/logos_bridge/lidl.py:954-970 | two interfaces have equal structural documents exactly when they differ by one renaming of the records that all their members reach, by parameter names and by unreached records |
| FormContents.DocumentContents | src/logos_bridge/lidl.py:954-970 | the document has each method and event under its own name, each parameter and return at its place as the spelling of its renamed type, and one record R<k> for the k-th record reached, with its fields |
| FormContents.SlotsInOrder | src/logos_bridge/lidl.py:961-969 | records are numbered through the methods by name, parameters before the return, and then the events by name |
| FormContents.MemberContents | src/logos_bridge/lidl.py:972-987 | the same of the form of one member |
| WholeForm.StructuralDict | src/logos_bridge/lidl.py:954-970 | one namer, taken through the methods by name and then the events by name, builds exactly that document |
| RecordNamer.Namer.Visit | src/logos_bridge/lidl.py:1083-1093 | a record is named before what it refers to, is filled in completely, and earlier records are not touched |
| RecordNamer.Namer.RenameSlot | src/logos_bridge/lidl.py:1072-1081 | a slot's records are named in order and its spelling carries their final names |
| RecordNamer.StructuralSignature | src/logos_bridge/lidl.py:980-986 | the object computes the structural form of a member |
| RecordNamer.ShapeSignature | src/logos_bridge/lidl.py:987-996 | the worklist ends on every table and reaches exactly the records that can be reached |
| Compat.ShapeImpliesStructural | src/logos_bridge/lidl.py:972-996 | equal shape signatures imply equal structural signatures |
| Compat.ParameterNameIsShapeOnly | src/logos_bridge/lidl.py:957-959 | another parameter name is a difference in shape and not in structure |
| Compat.CompareKind | src/logos_bridge/compat.py:171-183 | the member loop lists exactly the missing, shape-different and structure-different names, in order |
| Compat.LackingInOrder | src/logos_bridge/compat.py:171-175 | the missing names are exactly those not served, in the order of the expected contract |
| Compat.DiffsInOrder | src/logos_bridge/compat.py:176-183 | the differing names are exactly those served with another form, in the order of the expected contract |
| Compat.Compare | src/logos_bridge/compat.py:160-199 | the level is None, shape or exact under exactly the stated conditions; shape needs no structural test of its own |
| InfiniteRecords.NeedsItself | src/logos_bridge/lidl.py:625-635 | the search ends and finds exactly whether a record reaches itself through required fields |
| InfiniteRecords.Warned | src/logos_bridge/lidl.py:616-635 | the records warned about are exactly those that need themselves |
| InfiniteRecords.DocumentIffNotHopeless | src/logos_bridge/typed/_codecs.py:402-414 | a record has a finite document that its codec decodes exactly when neither it nor a record it needs is warned about |
| InfiniteRecords.WarningMeansInfinite | src/logos_bridge/lidl.py:616-635 | a warned record has no document, and with no warning every record has one |
| Base64.EncodedLength | src/logos_bridge/codec.py:84-86 | the text of n bytes has ceil(4n/3) characters of the alphabet, never 1 mod 4 |
| Base64.RoundTrip | src/logos_bridge/codec.py:84-112 | decoding inverts encoding |
| Base64.TrailingBitsIgnored | src/logos_bridge/codec.py:84-112 | decoding is not injective: two texts of one byte |
| Base64.TagRoundTrip | src/logos_bridge/codec.py:101-112 | a tag's text comes back as its bytes, padding tolerated |
| Base64Standard.EncodesNumber | src/logos_bridge/codec.py:84-86 | over the alphabet of RFC 4648, section 5, the text read as a number in base 64 is the bytes read as a number in base 256, shifted by the padding bits (0, 2 or 4) |
| Base64Standard.DecodesNumber | src/logos_bridge/codec.py:101-112 | the bytes of a text are its number in base 64 without the trailing bits |
| Base64Standard.TagAccepted | src/logos_bridge/codec.py:96-112 | a tag's text is accepted exactly when it is a decodable text with any number of = behind it, and means what that text means |
| Base64Standard.DocumentedTag | src/logos_bridge/codec.py:84-86 | the bytes fb ff are sent as the object with the one key _bytes and the text -_8 |
| Values.ValueRoundTrip | src/logos_bridge/codec.py:117-162 | decoding the tags of any encoded value succeeds and gives the value with tuples as lists and tags as bytes, at any depth |
| TypeMeaning.SendsExactly | src/logos_bridge/codec.py:132-162 | which values can be sent untyped, and as what |
| TypeMeaning.UntagsExactly | src/logos_bridge/codec.py:117-129 | which documents can be untagged, and to what |
| CodecCases.AnyTwice | src/logos_bridge/typed/_codecs.py:70-102 | an encoded tree is JSON and encodes to itself |
| TypeMeaning.AnyExactly | src/logos_bridge/typed/_codecs.py:70-102 | which values an any codec encodes |
| TypeLaws.EncodesExactly | src/logos_bridge/typed/_codecs.py:137-545 | the codec built for a type, in any table and with any record classes, encodes exactly the values of the type: each primitive with its own range, containers by their elements, records by their fields, unknown kinds as any |
| TypeLaws.EncodesRightly | src/logos_bridge/typed/_codecs.py:137-545 | and writes for each the document that the type gives it |
| TypeLaws.DecodesExactly | src/logos_bridge/typed/_codecs.py:137-545 | it decodes, strictly or leniently, exactly the documents of the type, each to the value that it stands for |
| CodecLaws.TypedRoundTrip | src/logos_bridge/typed/_codecs.py:137-456 | whatever a codec encodes is JSON, decodes strictly to the value's normal form, and encodes to the same document again, through recursive records |
| CodecLaws.RecordReturns | src/logos_bridge/typed/_codecs.py:378-414 | a record whose fields come back comes back: empty optional fields left out, empty any fields as null |
| Plans.LenientAgrees | src/logos_bridge/typed/_codecs.py:164-221 | lenient decoding agrees with strict decoding wherever strict decoding succeeds |
| Plans.EncodeArgs | src/logos_bridge/typed/_plans.py:61-71 | the loop encodes every parameter in order, or stops at the first refusal |
| Plans.Handle | src/logos_bridge/testing/_provider.py:96-112 | the provider rejects the count, the first undecodable argument, or calls with every decoded value |
| CallTypes.ArgumentsExactly | src/logos_bridge/typed/_plans.py:56-71 | encode_args sends a call exactly when the count fits and each argument has its parameter's declared type; else it names the count or the first that does not fit |
| CallTypes.HandlesExactly | src/logos_bridge/testing/_provider.py:96-112 | the provider calls its implementation exactly when the count fits and each argument is, read leniently, a document of its parameter's type, with what each stands for; else its code says which was wrong |
| CallTypes.AnswersExactly | src/logos_bridge/testing/_provider.py:131-140 | an answer is sent exactly when it fits the declared return; a method without one answers true |
| CallTypes.ResultsExactly | src/logos_bridge/typed/_plans.py:97-108 | a result is folded exactly when it is one of the three refusals, and any other is decoded exactly when it is a document of the declared return |
| CallTypes.RefusalsExactly | src/logos_bridge/codec.py:25-192 | every refusal of each of the three kinds, with any message and origin, is taken for one, and nothing else is |
| Plans.AcceptedNeverRejected | src/logos_bridge/testing/_provider.py:96-112 | between sides with the same record classes: arguments that encode are never rejected by the provider, which sees their normal forms, and null for omitted ones |
| Plans.AnswerComesBack | src/logos_bridge/typed/_plans.py:97-108 | between sides with the same record classes: a returned value reaches the caller in normal form unless it looks like a rejection |
| TypedCall.AcceptedNeverRejected | src/logos_bridge/testing/_provider.py:96-112 | for any contract, any record classes of the client and any of the provider: arguments that the client encodes are never rejected; the provider sees each as it holds it, which is the strict decoding under its own codecs and would be sent as the same document, and null for omitted ones |
| TypedCall.AnswerComesBack | src/logos_bridge/typed/_plans.py:97-108 | for any classes of the two sides: what the provider's contract accepts the caller can decode, as it holds it, unless it looks like a rejection |
| TypedCall.CrossesOver | src/logos_bridge/typed/_codecs.py:362-414 | a document that one side sends decodes strictly on the other, which sends what it got as the same document |
| TypedCall.RecastEncodes | src/logos_bridge/typed/_codecs.py:362-414 | a value with its records turned into the other side's instances or dictionaries is sent as the same document there |
| TypedCall.RecordsAreOwn | src/logos_bridge/typed/_codecs.py:362-414 | a record arrives as the receiving side's own class, or as a dictionary without one |
| TypedCall.BetweenEqualSides | src/logos_bridge/typed/_codecs.py:137-456 | between sides with the same classes what arrives is the normal form |
| TypedCall.ThereAndBack | src/logos_bridge/typed/_codecs.py:137-456 | what goes to the other side and comes back is the normal form of what was sent |
| Plans.MinArgsIs | src/logos_bridge/lidl.py:353-357 | the required count ends at the last required parameter |
| Binding.Bind | src/logos_bridge/typed/_plans.py:73-95 | binding succeeds exactly when every keyword names a free parameter and no required one is skipped; else it names the count, or the first keyword that is unknown or taken, or the first required parameter skipped |
| Binding.BoundPlaces | src/logos_bridge/typed/_plans.py:73-95 | each positional value is at its own index, each keyword's at the index of the parameter it names, null at every other, which is optional |
| Binding.BindAcceptsExactly | src/logos_bridge/typed/_plans.py:56-95 | binding and then checking the arity accepts exactly the calls that supply every required parameter once, none twice and no unknown name |
| Rejection.RejectsIffSendable | src/logos_bridge/typed/_codecs.py:503-545 | of any type in any table some value is sent as a rejection exactly when its codec is any, a map through whose values strings pass, or a record with the three fields as possible strings and no other required one |
| Rejection.AmbiguousIsRightExactly | src/logos_bridge/typed/_codecs.py:547-570 | for every return, known type or not, the code never alarms falsely and is right exactly when the type is none of those it overlooks |
| Rejection.UnknownKindMisleads | src/logos_bridge/typed/_codecs.py:503-506 | a return of a kind the reader does not know is said not to be ambiguous and can be sent as a rejection |
| Rejection.RejectsIffPossible | src/logos_bridge/codec.py:173-192 | of a known type some value is sent as a rejection exactly under the stated condition on the type |
| Rejection.AmbiguousIsRightUnlessExtras | src/logos_bridge/typed/_codecs.py:547-570 | the code's answer is right unless the record has further fields that are all optional |
| Rejection.ExtraFieldMisleads | src/logos_bridge/typed/_codecs.py:547-570 | a record with one further optional field that can be sent as a rejection and is said not to be ambiguous |
| Pump.StepKeeps | src/logos_bridge/portal.py:149-209 | every thread's step keeps the lock's ownership, the quiet after cancel and the order of items |
| PumpRuns.CallbacksSeeAPrefix | src/logos_bridge/portal.py:149-174 | in every run the callback sees the source's items in order and without a gap |
| PumpReports.NoItemIsLost | src/logos_bridge/portal.py:149-174 | in every run, until cancel or stop, every item yielded is started, in hand, queued or about to be queued, once and in order |
| PumpReports.FailureIsReported | src/logos_bridge/portal.py:155-188 | in every run, until cancel or stop, a failure of the source is reported once: the error callback has started, or its job is in hand, queued or about to be |
| PumpReports.RaisedAreReported | src/logos_bridge/portal.py:167-188 | in every run, cancelled or not, each callback that raised is reported, once and in order, but for one that has just raised |
| PumpReports.FinishedMeansDone | src/logos_bridge/portal.py:149-165 | finished is set, or the job that sets it queued, exactly when the source has come to its end, and no callback is then still to come |
| PumpReports.StopEndsDispatch | src/logos_bridge/portal.py:96-120 | once the portal has stopped no further job is queued |
| PumpRuns.CancelStopsCallbacks | src/logos_bridge/portal.py:190-209 | once cancel has returned on a thread other than the loop's no callback starts and none runs unless it called cancel itself, whose error callback is the only exception |
| PumpRuns.CancelStopsExactly | src/logos_bridge/portal.py:167-209 | in any run, at any moment after cancel has returned, no continuation starts a callback if and only if the pump has no error callback or no item's callback is still running or raising |
| PumpRuns.ReturnStopsExactly | src/logos_bridge/portal.py:190-209 | a call of cancel that returns on some thread stops every callback, in all continuations, if and only if the pump has no error callback or the call was not made in an item's callback |
| PumpRuns.ErrorCallbackAfterCancel | src/logos_bridge/portal.py:167-188 | the exception happens: a run from a new pump in which a callback cancels, cancel returns, the callback raises, and its error is still reported |
| PumpHandle.Handle.Check | src/logos_bridge/portal.py:167-179 | under the lock a cancelled pump lets go of the job, another clears it |
| PumpHandle.Handle.Take | src/logos_bridge/portal.py:85-94 | the dispatch thread takes jobs in order |
| PumpHandle.Handle.DispatchItem | src/logos_bridge/portal.py:149-165 | an item is queued unless the portal has stopped |
| PumpHandle.Handle.Mark | src/logos_bridge/portal.py:190-198 | cancel marks the pump at once and waits for the lock on every thread but the loop's |
| PumpHandle.Handle.Return | src/logos_bridge/portal.py:198-209 | cancel gives the lock back as often as it took it |
| PyLiteral.StringBack | src/logos_bridge/codegen/text.py:29-51 | reading a quoted string gives its characters back: every escape inverts |
| PyLiteral.PrintStr | src/logos_bridge/codegen/text.py:40-51 | the loop writes the quoted string |
| PyLiteral.LiteralBack | src/logos_bridge/codegen/text.py:74-100 | reading a literal in either layout gives the value back, for every nesting, indentation, column and width |
| PyLiteral.EvaluatesBack | src/logos_bridge/codegen/text.py:82-100 | evaluating the text of py_literal gives the value, tuples as lists |
| PyLayout.WrapsOnlyWhatDoesNotFit | src/logos_bridge/codegen/text.py:82-92 | a value goes over several lines exactly when it has entries and does not fit on its line |
| PyLayout.BrokenLines | src/logos_bridge/codegen/text.py:92-100 | then each line holds one entry and a comma, four columns further in, laid out for one column less, and the bracket closes under the line that opened it |
| PyLayout.NoLineTooWide | src/logos_bridge/codegen/text.py:82-100 | no line is wider than the width unless a scalar, a key with its scalar or a bracket does not fit on its own line |
| PyLayout.InlineForm | src/logos_bridge/codegen/text.py:58-79 | the words, the brackets and the separators of the one-line form |
| PyLines.QuotedForm | src/logos_bridge/codegen/text.py:15-51 | which characters are escaped, and how each is written |
| PyLayout.EscapeCode | src/logos_bridge/codegen/text.py:29-37 | the digits of an escape are the character's code in base sixteen |
| PyLines.BodyPrintable | src/logos_bridge/codegen/text.py:15-51 | a quoted string has no control, line break or invisible character in it |
| PyLayout.PlainBody | src/logos_bridge/codegen/text.py:40-51 | a string without such characters, quotes and backslashes is quoted as it is |
| PyLayout.DecimalIs | src/logos_bridge/codegen/text.py:67-68 | an integer is written in base ten without leading zeros |

## Left out

- Sockets, TLS, `websockets`, asyncio internals and real time: a timer is a step that may fire, a send is
  in order and does not fail except by the disconnect.
- `http.py`, `_transport.py`, the fake bridge's HTTP listener, `testing/live.py`, `lidl_sources.py` and
  `codegen/cli.py`: plumbing and file access.
- `sync.py`, `dynamic.py`, `typed/_subscription.py`, `typed/_binding.py`: thin wrappers over what is modelled.
- `codegen/python.py`, `codegen/markdown.py`, `naming.py`, `docstring`, `wrap_line`: string assembly; a
  docstring whose text ends in three quotes does not round-trip.
- SHA-256 and canonical JSON bytes: documents are compared, not digests; `Compat.Compare` takes the
  digests' equality as a parameter.
- JSON transport is the identity.
- Error wording and paths: a codec's refusal is one value; argument errors keep their index.
- BridgeClient.Client.Dispatch: the counter of ignored frames and the warning about an uncorrelated
  error are not kept.
- BridgeClient.Client.SendRequest: a request over the size limit is a refusal that consumes no request
  id, while the source has drawn one from its counter by then; ids stay fresh either way. The timer and
  the send task are separate steps (`Expire`, `FinishSend`), not fields of the pending request.
- Requests.CompletedOnlyBy: a suspended subscribe has no send that fails for another reason than the
  disconnect; one that cannot be sent, which the source takes as nothing sent, is the loop's refused request.
  An unsubscribe whose send fails so may still reach the bridge.
- Plans.AcceptedNeverRejected: both sides have the same record classes; `TypedCall.AcceptedNeverRejected` has
  any two.
- Plans.AnswerComesBack: both sides have the same record classes; `TypedCall.AnswerComesBack` has any two.
- Rejection.RejectsIffSendable: a record that the contract does not declare has no codec in the source, which
  refuses to build it; here nothing is encoded for it.
- BridgeConnection.FakeConnection.Subscribe: the quirk flags (poisoned ids, freezing, draining) are off,
  event generations are not counted, a request's parameters are well formed, and a slow reader's close is
  the connection closing.
- BridgeConnection.FakeConnection.Terminate: event generations are not counted.
- BridgeConnection.FakeConnection.Emit: the payload is a number; generation and time stamp are left out.
- ShapeText.Parse: which error a refused text gets, and where, is computed as the code does; nothing is claimed of it.
- Batch.Collector.Flush: a response is an opaque value, so the form that REST gives it is not modelled.
- Contract.FromShape: the document is a shape by its type; what is refused of other JSON is not modelled.
- Compat.Compare: extra members, exposure, notes and an interface that is absent or unknown are not part
  of the result.
- Plans.Handle: unknown methods, the built-in identity answers and the running of the implementation are
  outside; it decides what the implementation is called with.
- PumpHandle.Handle.Mark: cancelling the future and scheduling `on_cancel` are left out, since neither
  starts a callback.
- Background tasks are not cancelled from outside; only gathered unsubscribes are.
- The connection's life between `connect` and `_on_disconnect` moves by `ClientState.LifeMove`, on values;
  the methods `connect` and `aclose` themselves are not objects' methods here.
- CodecLaws.TypedRoundTrip: floats are finite reals, so the rounding of an integer to a double is not
  modelled; a record class's attributes are named like its fields.
- Plans.LenientAgrees: what a lenient decoder makes of a value that is no well-formed tag, where bytes are
  expected, is a parameter.
- PyLiteral.LiteralBack: raw code and floats are not part of the data; a dictionary is its entries in order.
- Pump.StepKeeps: stopping the portal is one step.
- RecordNamer.StructuralSignature: record fields are by name, so two fields of one record with the same
  name are one.
- Event plans (`EventPlan.decode_values`, `encode_values`) repeat the argument loops of method plans.
