# Verification of the LLM router

A Dafny model of the attested LLM gateway, with proofs of the properties its parts are
built for. `dafny verify dfyconfig.toml` checks the whole project.

| file | models |
|---|---|
| `Basics.dfy`, `Ordering.dfy`, `Sequences.dfy` | options and machine integers, strict orders and sorting, concatenation |
| `Json.dfy`, `Documents.dfy` | JSON values up to key order, and with it |
| `Canonical.dfy`, `CanonicalForm.dfy` | the canonical JSON writer; that its output is what RFC 8785 prescribes (the integer-only subset, sections 3.2.2.2, 3.2.2.3 and 3.2.3) |
| `Keyset.dfy`, `Epoch.dfy` | keysets, digests and signing payloads; the launcher's epoch protocol and the revocation list |
| `Receipt.dfy`, `Session.dfy` | receipt builder and independent verifier; sealed sessions and their content ids |
| `SessionIndex.dfy`, `SessionStore.dfy` | the two-map session index; the session log with replay, compaction and crashes |
| `SseAdapter.dfy`, `AdaptedStreams.dfy` | the byte-level stream splitter; the same with its two translators |
| `MessagesStream.dfy`, `ChatStream.dfy`, `FinishReasons.dfy` | the event translators OpenAI to Anthropic and Anthropic to OpenAI, and the buffered form of the latter; stop reasons through both |
| `Router.dfy`, `Dispatch.dfy`, `RoutingText.dfy` | pressure, selection, guards and history; the mutable router; the bounded routing text |
| `Messages.dfy`, `AnthropicFormat.dfy`, `RoundTrip.dfy`, `KeyOrder.dfy` | conversations between the two message formats; what they look like in the Anthropic one; which of them survive the round trip; key order |

How the model is built:

- Code that changes things in place is a class or a method with loops, proved equal to a
  specification function; the theorems are lemmas about those functions and about whole runs.
- SHA-256, signatures, base64, hex, `serde_json` parsing and printing, and clocks are
  parameters. Hashes are assumed collision-free only on the byte strings being compared.
- Rust strings are Dafny strings, since `char` is a Unicode scalar value in both.
- `serde_json` keeps key order when it parses and prints, and ignores it when it compares.
  Code that hashes, compares or only reads works on objects as maps, whose keys come out in an
  arbitrary order; code that prints a value it has read works on documents with key order.
- `u64` bounds, saturation and `i64` wrapping are written out where a property depends on
  them. The router's `f32` and `f64` are exact reals, and its clock stands still within one
  selection.

Where a wished-for property does not hold of the code, the exact condition is proved, and a
lemma gives an input on which it fails:

- Streamed and buffered tool calls agree only up to one tool, because the stream keeps every
  tool fragment at index 0, and only when the fragments are the serializer's own printing of
  the input, because the stream forwards them as they come and the buffered form prints anew
  (`ChatStream.StreamAgreesWithBuffered`, `ChatStream.TwoToolsDisagree`,
  `ChatStream.SpacedArgumentsDisagree`, `ChatStream.EmptyArgumentsDisagree`,
  `ChatStream.StrayFragmentDisagrees`).
- Epoch versions never go back only while the `u64` lasts (`Epoch.VersionsRiseExactly`,
  `Epoch.VersionWraps`).
- The OpenAI to Anthropic stream is well formed only when tools are announced once and before
  their arguments, and keeps blocks apart only when nothing follows the first tool
  (`MessagesStream.WellFormedExactly`, `MessagesStream.EarlyArgumentsFail`,
  `MessagesStream.OneBlockAtATimeExactly`).
- The conversation round trip merges several system messages, turns developer into system,
  drops empty assistant turns, replaces null content, re-prints arguments, unwraps a single
  text item, normalizes `data:` URLs and rewrites file media types
  (`RoundTrip.RoundTripExactly`, `KeyOrder.NullContentIsReplaced`).
- A restart forgets the renewals since a session last reached the file
  (`SessionStore.RestartKeepsExactly`, `SessionStore.RenewalLostByRestart`).

## Model

| member | source | states |
|---|---|---|
| `Canonical.Decodable` | src/aci/canonical.rs:81-135 | Unique decodability: if two integer-only values, each followed by nothing or by `,` `]` `}`, have the same bytes, the values and what follows them are equal |
| `Canonical.EncodeInjective` | src/aci/canonical.rs:81-181 | Two integer-only values have the same canonical bytes if and only if they are equal as JSON, objects as maps |
| `Canonical.ItemsDecodable` | src/aci/canonical.rs:87-96 | Two array bodies with the same bytes up to their closing bracket hold the same elements |
| `Canonical.MembersDecodable` | src/aci/canonical.rs:114-135 | Two object bodies with the same bytes up to their closing brace hold the same keys in the same order, with equal values |
| `Canonical.StringDecodable` | src/aci/canonical.rs:158-181 | Escaped string bodies are prefix-free: equal bytes up to the closing quote mean equal strings |
| `Canonical.EscapeCharPrefixFree` | src/aci/canonical.rs:158-181 | No escaped character is the beginning of another one's escape |
| `Canonical.DigitsDecodable` | src/aci/canonical.rs:102-112 | Decimal digits followed by a delimiter determine the number, although numbers do not delimit themselves |
| `Canonical.Utf16LessIsStrictOrder` | src/aci/canonical.rs:138-152 | Comparison by UTF-16 code units is a strict total order on Unicode strings, so a key set has exactly one sorted sequence |
| `Canonical.Utf16Compare` | src/aci/canonical.rs:138-152 | The two-iterator loop answers Less, Equal or Greater exactly as that order does, Equal only on identical strings; what the order is, `CanonicalForm.FirstDifferenceDecides` says |
| `Canonical.KeysInOrder` | src/aci/canonical.rs:114-118 | Whatever order the keys come out of the map in, the sorted sequence is the same |
| `Canonical.WriteString` | src/aci/canonical.rs:158-181 | Appends the quoted, escaped UTF-8 form of the string, which is the one form RFC 8785 allows (`CanonicalForm.StringIsStandard`), and touches nothing before it |
| `Canonical.WriteNumber` | src/aci/canonical.rs:102-112 | Succeeds exactly on integers and then appends their decimal form |
| `Canonical.WriteValue` | src/aci/canonical.rs:81-100 | Succeeds exactly on integer-only trees and then has appended the canonical encoding |
| `Canonical.WriteArray` | src/aci/canonical.rs:87-96 | Fails exactly when some element has a float in it; otherwise appends the bracketed elements |
| `Canonical.WriteObject` | src/aci/canonical.rs:114-135 | Fails exactly when some member has a float in it; otherwise appends the members in UTF-16 key order |
| `Canonical.Canonicalize` | src/aci/canonical.rs:56-60 | `Ok` if and only if the tree has no float anywhere, and then the bytes are the injective encoding |
| `CanonicalForm.StringIsStandard` | src/aci/canonical.rs:158-181 | A string is written as a quote, for each character the form section 3.2.2.2 of RFC 8785 prescribes, and a quote: two-letter escapes where there is one, lower-case `\u00xx` for other controls, and otherwise the UTF-8 of RFC 3629 |
| `CanonicalForm.WrittenIsUnique` | src/aci/canonical.rs:158-181 | That prescription leaves one form for each character |
| `CanonicalForm.Utf8IsStandard` | src/aci/canonical.rs:158-181 | The bytes of a character are those of the table in section 3 of RFC 3629 |
| `CanonicalForm.DecimalIsStandard` | src/aci/canonical.rs:102-112 | An integer is written as its decimal digits without leading zeros, behind a minus sign when negative, and the digits evaluate to it |
| `CanonicalForm.ScalarsAreStandard` | src/aci/canonical.rs:81-86 | Null and booleans are their JSON literals |
| `CanonicalForm.ArrayIsStandard` | src/aci/canonical.rs:87-96 | An array is its elements between brackets, with commas between them and nothing else |
| `CanonicalForm.ObjectIsStandard` | src/aci/canonical.rs:114-135 | An object is its members between braces, each a quoted key, a colon and the value, in key order, with commas between them and nothing else |
| `CanonicalForm.FirstDifferenceDecides` | src/aci/canonical.rs:138-152 | Of two strings that first differ in one character, the order is that of those characters, where a character above U+FFFF comes before U+E000 to U+FFFF and after all others |
| `CanonicalForm.PrefixComesFirst` | src/aci/canonical.rs:138-152 | A proper prefix comes first |
| `Keyset.KeysetInjective` | src/aci/types.rs:120-142 | The canonical tree of a keyset determines the keyset, lists and epoch included |
| `Keyset.KeyFields` | src/aci/types.rs:29-117 | Every key, identity and epoch is read back from its tree under the name the protocol gives it |
| `Keyset.KeysetDigestIdentifies` | src/aci/identity.rs:28-30 | Digests are equal if and only if the keysets are, given no hash collision on the two byte strings |
| `Keyset.FingerprintIdentifiesMaterial` | src/aci/identity.rs:87-93 | Fingerprints are equal if and only if the keysets agree on everything but the epoch |
| `Keyset.PayloadIdentifies` | src/aci/identity.rs:61-78 | Signed payload bytes determine both the purpose and the digest in them |
| `Keyset.PayloadsNeverCoincide` | src/aci/identity.rs:61-78 | No endorsement payload is byte-equal to any revocation payload; each is the canonical form of its purpose and digest |
| `Epoch.RevocationStore.Open` | src/aggregator/revocation_store.rs:86-103 | A missing or blank file is an empty list, a file that does not parse or cannot be read is an error, and otherwise the store holds what the file holds |
| `Epoch.RevocationStore.IsRevoked` | src/aggregator/revocation_store.rs:111-117 | True exactly when some statement names the digest |
| `Epoch.RevocationStore.Record` | src/aggregator/revocation_store.rs:122-135 | The revoked digests grow by exactly the statement's digest, nothing is dropped, a repeated digest keeps the first statement, and the file follows the list |
| `Epoch.RollsBounded` | src/aggregator/keyset_epoch.rs:145-155 | Rolling past n revoked digests needs n statements, even when the list has duplicates: the pigeonhole behind the loop bound |
| `Epoch.DigestsDistinct` | src/aggregator/keyset_epoch.rs:145-155 | The epochs the loop can visit have different keyset digests, version wrapping included, given no collision on exactly those byte strings |
| `Epoch.ResolveLauncherEpoch` | src/aggregator/keyset_epoch.rs:125-160 | The loop bound of list length plus two always suffices, even where the version wraps: the result is the first un-revoked epoch at or after the resolved one |
| `Epoch.LaunchStep` | src/aggregator/keyset_epoch.rs:60-98 | The version stays if and only if keys, window and revocations allow it, and then nothing changes; it goes back if and only if the launch's moves leave the `u64` |
| `Epoch.ServedEpochIsOpen` | src/aggregator/keyset_epoch.rs:60-83 | The epoch returned is not revoked and belongs to the keys given; with a non-zero window and a clock below the maximum its expiry lies in the future |
| `Epoch.NewVersionOpensWindow` | src/aggregator/keyset_epoch.rs:60-98 | A launch that is the first or moves the version sets the expiry to now plus the window, or to the `u64` maximum where that is less |
| `Epoch.FirstVersionIsOne` | src/aggregator/keyset_epoch.rs:60-98 | The first launch takes the first version from 1 on whose digest is not revoked |
| `Epoch.VersionsRiseExactly` | src/aggregator/keyset_epoch.rs:125-160 | Over every history of restarts the version never goes back from one to the next, if and only if no launch runs out of versions |
| `Epoch.VersionsNameEpochs` | src/aggregator/keyset_epoch.rs:125-160 | In every such history versions never decrease over any stretch, and equal versions mean the identical epoch and key material |
| `Epoch.SameVersionSameKeyset` | src/aggregator/keyset_epoch.rs:125-160 | Restarts that serve the same version serve the same keyset, key by key |
| `Epoch.RevokedNeverServed` | src/aggregator/revocation_store.rs:86-135 | Over every run of recordings, reopenings from the file and launches: once a digest is recorded, no later launch serves it |
| `Epoch.RevokedStays` | src/aggregator/revocation_store.rs:86-135 | A revoked digest is in the list at every later point of the run, through any reopening |
| `Epoch.VersionMovesExactly` | src/aggregator/keyset_epoch.rs:60-98 | A launch moves the version on by one for new keys or a closed window and one for each roll; it takes it back if and only if those moves pass the last `u64` |
| `Epoch.VersionWraps` | src/aggregator/keyset_epoch.rs:74-78 | The input on which a version goes back: new keys on top of the last `u64` version |
| `Receipt.Builder.Append` | src/aci/receipt.rs:205-225 | Refuses exactly a wrong first event or a field that would shadow `seq` or `type`; otherwise the log grows by one event numbered by its position |
| `Receipt.Builder.AddExtensionEvent` | src/aci/receipt.rs:351-366 | Never adds or removes an event of the five protocol types |
| `Receipt.Builder.SetUpstreamVerifiedModelId` | src/aci/receipt.rs:376-386 | Edits only the first `upstream.verified` event; every other event and all numbers stay |
| `Receipt.ModelIdReads` | src/aci/receipt.rs:376-386 | The edit sets `model_id` to the model, or to `unknown`, and leaves every other field, the type and the number |
| `Receipt.Builder.Finalize` | src/aci/receipt.rs:394-451 | Succeeds exactly when the three required events are present, the key is known, no field holds a float and signing succeeds; the signature is over the receipt without `signature.value` |
| `Receipt.FinalizedLogIsNumbered` | src/aci/receipt.rs:205-225 | On the wire, `seq` equals the position, `type` is the event's own, and `request.received` comes first |
| `Receipt.AcceptedReceiptWasSigned` | examples/verify_aci_artifacts.rs:207-237 | No altered receipt passes: whatever JSON the verifier accepts is, but for `signature.value`, the tree of a receipt the named key has signed |
| `Receipt.StripServed` | src/aci/receipt.rs:394-457 | Removing `signature.value` from the served tree gives exactly the tree that was signed |
| `Receipt.FinalizedReceiptVerdict` | examples/verify_aci_artifacts.rs:207-237 | Signer and verifier agree: against any keyset listing the signing key, a finalized receipt is judged on exactly the bytes that were signed, with that key |
| `Receipt.SignedBytesIdentify` | src/aci/types.rs:292-363 | Two receipts have the same signed bytes if and only if they agree on every wire field but the signature value |
| `Session.RebuiltFromRecord` | examples/verify_aci_artifacts.rs:281-308 | Restoring absent optionals to null rebuilds exactly the material the gateway hashed |
| `Session.SealedIdRecomputes` | src/aggregator/session.rs:242-304 | The relying party's recomputed id equals the sealed id, and still does after any change of the timestamps |
| `Session.ContentIdNamesMaterial` | src/aggregator/session.rs:276-304 | Two sessions share an id if and only if they agree on the verified material |
| `Session.SealedIsAcceptable` | src/aggregator/session.rs:170-184 | A sealed session with matching evidence passes the replay check, and changing its deadline never changes the verdict |
| `Session.AcceptedIsGenuine` | src/aggregator/session.rs:165-184 | An accepted session has the id `as_` and the hash of its own material, and the decoded payload of its evidence hashes to its digest |
| `SessionIndex.IndexRefinesMap` | src/aggregator/session_store.rs:96-206 | Under a clock that never goes back, every answer of every run equals that of a map that never evicts, with lapsed entries treated as absent |
| `SessionIndex.TracksStep` | src/aggregator/session_store.rs:108-198 | One operation keeps the index part of the reference with all of it that is alive, and gives the same answer |
| `SessionIndex.MoveIndexed` | src/aggregator/session_store.rs:114-133 | Dropping the stale hint and adding the new one keeps each id in exactly the bucket of its own deadline |
| `SessionIndex.EvictionHarmless` | src/aggregator/session_store.rs:135-148 | Popping a bucket whose deadline has passed removes nothing that is alive |
| `SessionIndex.Index.Insert` | src/aggregator/session_store.rs:114-123 | Both maps stay consistent whether the id is new, refreshed or moved to another deadline |
| `SessionIndex.Index.EvictExpired` | src/aggregator/session_store.rs:135-148 | Afterwards the id map is exactly the live part of what it was, and no bucket is empty |
| `SessionIndex.Index.PutAndEvict` | src/aggregator/session_store.rs:108-111 | Stores the session, then keeps exactly what is alive at the put |
| `SessionIndex.Index.Get` | src/aggregator/session_store.rs:150-161 | Answers the session exactly when it is alive; a lapsed one is forgotten in both maps |
| `SessionIndex.Index.RenewDeadline` | src/aggregator/session_store.rs:167-184 | True exactly when the id is alive, which then has the new deadline; a lapsed id is never brought back |
| `SessionIndex.Index.ListSessions` | src/aggregator/session_store.rs:186-206 | Exactly the live sessions of the upstream, each once, later ones before earlier ones and those of one moment by id |
| `SessionIndex.ListingIsNewestFirst` | src/aggregator/session_store.rs:186-206 | The same of the specification, from the deadlines, upstream names and times themselves |
| `SessionStore.ReplayIsLatest` | src/aggregator/session_store.rs:273-335 | Reopening holds an id exactly when some acceptable line names it, and then holds the last such line's record |
| `SessionStore.ReplayedIsGenuine` | src/aggregator/session_store.rs:298-325 | Whatever the log holds, a session replayed from it carries the id of its own material, and evidence that hashes to its digest |
| `SessionStore.RewriteReplays` | src/aggregator/session_store.rs:347-385 | Right after compaction, replay gives back the live index exactly, renewed deadlines included, in whatever order the records were written |
| `SessionStore.RealCheckIgnoresDeadline` | src/aggregator/session_store.rs:310-322 | The check replay really applies does not depend on the deadline, which the recovery theorems need |
| `SessionStore.RecoverableStep` | src/aggregator/session_store.rs:273-448 | Every put, read, renewal, compaction, restart and crash keeps the file able to rebuild the index but for renewals |
| `SessionStore.EveryStateRecoverable` | src/aggregator/session_store.rs:273-448 | The same at every state of every run, with crashes in the middle of an append and before and after the rename, repeated crashes during the compaction that follows included |
| `SessionStore.RestartKeepsExactly` | src/aggregator/session_store.rs:273-448 | Reopening gives a session back exactly as the index has it if and only if it has not been renewed since its last put, compaction or reopening |
| `SessionStore.RestartLosesOnlyRenewals` | src/aggregator/session_store.rs:273-448 | A session found after a restart was alive before with the same contents; one that was alive is found if and only if the deadline it last reached the file under has not passed |
| `SessionStore.RenewalLostByRestart` | src/aggregator/session_store.rs:432-437 | A run that loses a renewal: put until 10, renewed until 20, restarted, gone at 15 |
| `SessionStore.JsonlStore.Open` | src/aggregator/session_store.rs:273-335 | The rebuilt index is the replay of the file, and the next sequence number lies above every usable one |
| `SessionStore.JsonlStore.PutSession` | src/aggregator/session_store.rs:389-423 | Log and index take the step together; it fails, changing nothing, exactly when sequence numbers have run out or the write fails |
| `SessionStore.JsonlStore.Compact` | src/aggregator/session_store.rs:347-385 | The new log holds one record per live session, renumbered from zero; when the file cannot be written, the log stays and the index keeps the live part |
| `SessionStore.WriteAll` | src/aggregator/session_store.rs:347-385 | One record per session, none missing and none twice, in any iteration order of the map |
| `SseAdapter.FindIsFirst` | src/middleware/stream_transform.rs:682-687 | The position returned is the first occurrence, and none is returned only when there is none |
| `SseAdapter.EventsAppend` | src/middleware/stream_transform.rs:670-679 | Splitting in two goes equals splitting at once, wherever the cut falls, inside a delimiter included |
| `SseAdapter.EventsRebuild` | src/middleware/stream_transform.rs:670-679 | Splitting loses nothing: the events with their delimiters and the rest make up the bytes, and an event ends at the first delimiter after it starts |
| `SseAdapter.FoldIsRun` | src/middleware/stream_transform.rs:651-667 | Translating events one by one is a run of the translator through states, each the result of the one before |
| `SseAdapter.ChunkingInvariance` | src/middleware/stream_transform.rs:651-726 | What is emitted depends only on the bytes delivered and on how they end, never on the chunk boundaries |
| `SseAdapter.ErrorGivesPrefix` | src/middleware/stream_transform.rs:692-726 | The output after an upstream error is a prefix of the output of every continuation, however it ends |
| `SseAdapter.SseTransformStream.constructor` | src/middleware/stream_transform.rs:634-649 | There are states, from the initial one, each what the translator returns on the next event in the one before; what the consumer will ever see is what it puts out on the events of the whole byte stream in those states, up to the first rejection |
| `SseAdapter.SseTransformStream.Emit` | src/middleware/stream_transform.rs:651-667 | One event's output is queued and the state becomes the one the translator returns, or the rejection is reported with queue and state untouched |
| `SseAdapter.SseTransformStream.DrainBuffer` | src/middleware/stream_transform.rs:670-679 | All complete events are translated in order; a rejection ends the stream and empties the buffer |
| `SseAdapter.SseTransformStream.PollNext` | src/middleware/stream_transform.rs:692-726 | Each item is the next one of the whole output, the end comes exactly when nothing is left, and waiting loses nothing |
| `AdaptedStreams.MessagesComeThrough` | src/middleware/stream_transform.rs:52-75 | However the upstream cuts its bytes, the bytes put out are the Anthropic events of the whole stream, translated from the initial state on |
| `AdaptedStreams.ChatComesThrough` | src/middleware/stream_transform.rs:52-75 | However the upstream cuts its bytes, the outputs are the OpenAI chunks of the whole stream up to the first payload that does not parse |
| `MessagesStream.ContentPreserved` | src/middleware/stream_transform.rs:415-565 | For every event sequence the text streamed in block 0 equals the concatenated content, and each tool block receives exactly the arguments translated to it |
| `MessagesStream.ToolsKeepTheirIndex` | src/middleware/stream_transform.rs:519-565 | For every event sequence: block i + 1 receives exactly the arguments of the calls that carry index i, an absent index counting as 0 and the last `i64` wrapping around |
| `MessagesStream.ToolsKeepTheirNames` | src/middleware/stream_transform.rs:519-550 | And it is started with exactly the ids and names announced for index i, in order |
| `MessagesStream.FirstChunkStarts` | src/middleware/stream_transform.rs:438-477 | When a chunk comes before any `[DONE]`, the message starts with the first chunk: its id or the fallback, its model or `unknown`, its prompt tokens or 0 |
| `MessagesStream.WellFormedExactly` | src/middleware/stream_transform.rs:366-576 | For every event sequence: the output has one start first, deltas only in open blocks of their kind, starts and stops alternating per index and nothing open at the end, if and only if some chunk parses and all is in order before the first `[DONE]`, and nothing follows it |
| `MessagesStream.UsualStreamExactly` | src/middleware/stream_transform.rs:366-576 | With one final `[DONE]` and no tool index -1, the output is well formed if and only if some chunk parses and every index a call carries is announced once, before its arguments |
| `MessagesStream.EarlyArgumentsFail` | src/middleware/stream_transform.rs:519-565 | A failing input: arguments before their announcement; the same two chunks swapped are well formed |
| `MessagesStream.OneBlockAtATimeExactly` | src/middleware/stream_transform.rs:492-565 | A well-formed output never has two blocks open if and only if no text and no other tool follows the first announcement |
| `MessagesStream.BodyRead` | src/middleware/stream_transform.rs:420-576 | An independent reader of the output has open exactly the blocks the translator believes are open, or has refused |
| `MessagesStream.DoneRead` | src/middleware/stream_transform.rs:373-412 | `[DONE]` closes every open block once and ends the message |
| `MessagesStream.LastReportWins` | src/middleware/stream_transform.rs:421-437 | Token counts are the last non-zero ones reported, and the finish reason the last one given |
| `MessagesStream.FinalReport` | src/middleware/stream_transform.rs:366-413 | A stream that does not end in an error closes with those counts and the stop reason: `max_tokens` for `length`, `tool_use` for `tool_calls` and `function_call`, `end_turn` otherwise |
| `MessagesStream.FinalError` | src/middleware/stream_transform.rs:386-403 | A stream whose last finish reason is an error ends with an error event of that type, `api_error` for a bare `error` |
| `MessagesStream.StreamState.Apply` | src/middleware/stream_transform.rs:366-576 | The mutable translator refines the pure one, in its events and in its new state |
| `MessagesStream.StreamState.Finish` | src/middleware/stream_transform.rs:373-412 | Open tool blocks are closed in ascending order |
| `MessagesStream.StreamState.AddCalls` | src/middleware/stream_transform.rs:519-565 | The loop over tool calls refines the fold over them, for which `MessagesStream.ToolsKeepTheirIndex` says which block each call goes to |
| `ChatStream.StreamAgreesWithBuffered` | src/middleware/response_transform.rs:82-172 | For any fragments of the tools: accumulating the chunks gives the buffered text, finish reason and usage; tool calls agree if and only if there is at most one and what was sent for it, stray fragments behind it included, is the serializer's printing of its input |
| `ChatStream.EveryMessageAgrees` | src/middleware/response_transform.rs:82-172 | Every message with plain counts has such a stream for every split and such a buffered form, so the agreement is never empty |
| `ChatStream.StreamReportsStop` | src/middleware/stream_transform.rs:140-154 | For every stream: the finish reason a client sees is `length` if and only if the last stop reason is `max_tokens`, `tool_calls` if and only if it is `tool_use`, and `stop` otherwise |
| `ChatStream.ModelCarried` | src/middleware/stream_transform.rs:187-358 | For every stream: each chunk goes out under the model named last before or with it |
| `ChatStream.BufferedCounts` | src/middleware/response_transform.rs:114-134 | Prompt tokens are input plus both cache buckets, the total adds the output, and the buckets are echoed exactly when either is not zero |
| `FinishReasons.StopReasonSurvives` | src/middleware/stream_transform.rs:140-164 | The stop reason of any Anthropic stream, translated and translated back, is itself for `max_tokens` and `tool_use` and `end_turn` otherwise |
| `ChatStream.CallsAreSent` | src/middleware/stream_transform.rs:296-334 | The client's calls are the calls as sent, each with its own fragments and the strays behind them, folded into index 0 |
| `ChatStream.StraysSpoil` | src/middleware/stream_transform.rs:313-334 | Where tools send what the serializer prints, a fragment of another kind of block behind a tool is all that can spoil the calls, and does |
| `ChatStream.TwoToolsDisagree` | src/middleware/stream_transform.rs:306-311 | A failing input: two tools, each sent exactly as printed |
| `ChatStream.SpacedArgumentsDisagree` | src/middleware/stream_transform.rs:313-334 | A failing input with one tool: its input is streamed with a space the serializer does not print |
| `ChatStream.EmptyArgumentsDisagree` | src/middleware/stream_transform.rs:313-334 | A failing input with one tool: an empty input for which nothing is streamed |
| `ChatStream.StrayFragmentDisagrees` | src/middleware/stream_transform.rs:313-334 | A failing input with one tool sent exactly as printed: a block of another kind streams a fragment behind it |
| `ChatStream.StreamSays` | src/middleware/stream_transform.rs:166-358 | A client's accumulated view of the chunks is what the Anthropic events say, event by event |
| `ChatStream.UsageAgrees` | src/middleware/stream_transform.rs:187-358 | Usage split over `message_start` and `message_delta` folds to the buffered usage object, under 64-bit wrapping |
| `ChatStream.FoldedIsPositional` | src/middleware/stream_transform.rs:306-334 | Folding the calls sent into index 0 gives the buffered list if and only if it has at most one entry and is what was sent |
| `ChatStream.Translator.Apply` | src/middleware/stream_transform.rs:166-358 | The mutable translator refines the pure one; a payload that does not parse is rejected and changes nothing |
| `ChatStream.AnthropicChatToOpenAi` | src/middleware/response_transform.rs:82-172 | The buffered translation is the concatenated text, the tool calls in order, the usage layout, and `length`, `tool_calls` or `stop` exactly as the stop reason demands |
| `Router.LeastIsLeast` | src/middleware/router.rs:448-458 | No route has a smaller order key than the one chosen |
| `Router.LeastIsLightest` | src/middleware/router.rs:448-476 | No route is preferable to the one chosen: unblocked first, then with metrics, fewer waiting, less full, fewer running, fewer served, the smaller id |
| `Router.LessFullIsChosen` | src/middleware/router.rs:448-476 | Of two routes with fresh metrics, nobody waiting and neither full, the less full one is chosen however many requests run on either |
| `Router.UpstreamStatus` | src/middleware/router.rs:528-550 | Green if and only if some route is green; not red if and only if some route is not red; no routes is red |
| `Router.RedIsBlocked` | src/middleware/router.rs:478-577 | A route is red exactly when it is blocked |
| `Router.GreenExactly` | src/middleware/router.rs:478-577 | Green if and only if the metrics are fresh, nobody waits, and the load of every limit the tier has to mind is under 85% of it, rounding included |
| `Router.RedExactly` | src/middleware/router.rs:478-577 | Red if and only if the metrics are fresh and somebody waits or a limit of the tier is reached, rounding included |
| `Router.RatioIsRounded` | src/middleware/router.rs:810-818 | Fullness is the nearest whole number of thousandths of the limit, unless it saturates |
| `Router.BasicIsNeverBetter` | src/middleware/router.rs:478-577 | The basic tier is blocked whenever the premium tier is, at least as full, and never has a better status |
| `Router.SelectionIsSafe` | src/middleware/router.rs:448-735 | The selection is unblocked if and only if the aggregate status is not red; it has metrics and nobody waiting when the least-key route does, and stays within 250 milli of its fullness and the load thresholds |
| `Router.CacheChoiceIsEarned` | src/middleware/router.rs:647-702 | A cache choice has seen at least as much of the text as any route, and more than the threshold |
| `Router.EarnedCacheIsChosen` | src/middleware/router.rs:647-735 | Conversely, where no route is far from the least-key one, a route that has seen more than the threshold means a cache choice |
| `Router.GapPicksLeast` | src/middleware/router.rs:610-636 | A gap beyond both thresholds between any two routes sends the request to the least-key one, whatever has been seen where |
| `Router.RateIsLongestShare` | src/middleware/router.rs:647-672 | The match rate is the length of the longest beginning of the text that some recorded text shares, over the length of the text |
| `Router.CommonPrefix` | src/middleware/router.rs:1110-1112 | The length is that of the longest common prefix, in characters |
| `Router.HistoryIsLastTexts` | src/middleware/router.rs:579-753 | After any run of selections, a route's history is the last `max_history_per_route` of its own texts, each cut at 16384 characters, in order; default entries add none |
| `Router.InFlightConserved` | src/middleware/router.rs:397-446 | Over every interleaving of starts, retargets, drops and selections, `running` is the number of live guards aimed at the route and `processed` the sum of its three counters |
| `Router.ConservedStep` | src/middleware/router.rs:397-446 | One step keeps that, and the saturating subtraction never saturates |
| `Router.SelectionsCounted` | src/middleware/router.rs:397-440 | Over every run each counter grows by exactly the requests begun at the route for its reason; failovers and ends count for none |
| `Router.DrainedRouterIsIdle` | src/middleware/router.rs:397-446 | Once every guard is gone, no route counts anything as running |
| `Dispatch.RouterState.Select` | src/middleware/router.rs:579-645 | Nothing among no routes; otherwise a selection as specified, default entries for every route, and the text recorded for the chosen one only |
| `Dispatch.SelectCacheAware` | src/middleware/router.rs:647-702 | The best cached route wins exactly when its share beats the threshold and its pressure is acceptable; otherwise the least-key route does |
| `Dispatch.FindBestCached` | src/middleware/router.rs:647-682 | The scan returns a route no other has seen more of the text than, with ties going to the smaller key |
| `Dispatch.LoadRange` | src/middleware/router.rs:610-616 | The bounds are loads of some routes and bound the load of all, the lower one reset to zero at the `usize` maximum |
| `Dispatch.RouterState.RecordHistory` | src/middleware/router.rs:737-753 | Appends the bounded text to that route's samples and drops the oldest beyond the limit |
| `Dispatch.RouterState.MarkStarted` | src/middleware/router.rs:431-440 | Counts one more running and processed, under exactly one of the three reasons |
| `Dispatch.RouterState.DecrementRunning` | src/middleware/router.rs:442-446 | Takes one from a known route's running count, never below zero |
| `Dispatch.RouteInFlight.constructor` | src/middleware/router.rs:398-407 | A new guard counts once, at the selected route |
| `Dispatch.RouteInFlight.Retarget` | src/middleware/router.rs:409-418 | Moves the guard's one count to the other route, and does nothing when it is already there |
| `Dispatch.RouteInFlight.Drop` | src/middleware/router.rs:421-428 | Gives the guard's count back once; a second drop changes nothing |
| `Dispatch.LeastHasFewest` | src/middleware/router.rs:460-476 | With no metrics and nothing running, the least key belongs to a route with the fewest processed requests |
| `Dispatch.IdleBalance` | src/middleware/router.rs:431-702 | With a cache threshold of at least one and requests that end before the next begins, failovers included, no route is ever two processed requests ahead of another |
| `RoutingText.BoundedRoutingText` | src/middleware/router.rs:1003-1014 | For every JSON request and endpoint, the first 16384 characters of the unbounded rendering: of a prompt's own text from its first text on, of a conversation's lines joined by newlines |
| `RoutingText.LimitChars` | src/middleware/router.rs:1016-1020 | The first `max` characters |
| `RoutingText.BoundedText.Push` | src/middleware/router.rs:1039-1047 | Holding the first characters of a text, it then holds the first characters of the longer text |
| `RoutingText.BoundedText.Separator` | src/middleware/router.rs:1049-1053 | Testing the bounded text for emptiness decides the same as testing the unbounded one |
| `RoutingText.BoundedText.AppendPromptValue` | src/middleware/router.rs:1067-1093 | Stopping early when full never changes the first characters |
| `RoutingText.BoundedText.AppendMessages` | src/middleware/router.rs:1095-1108 | The same for the loop over messages |
| `RoutingText.PromptAppends` | src/middleware/router.rs:1067-1093 | Behind some text, a value adds exactly its own text, arrays joined by spaces, with no separator dropped |
| `RoutingText.LeadingDropped` | src/middleware/router.rs:1067-1093 | With nothing in front, a value gives its own text without the separators before the first text in it |
| `RoutingText.ConversationIsJoinedLines` | src/middleware/router.rs:1095-1108 | The unbounded text of a conversation is its `role:content` lines joined by newlines |
| `Messages.TransformAssistantMessage` | src/middleware/request_transform.rs:312-356 | Text blocks and then one tool use per call; the first unparseable arguments reject the request |
| `Messages.AnthropicMessages` | src/middleware/request_transform.rs:438-493 | Message by message in order, system messages left out, or the first rejection |
| `Messages.AnthropicSystem` | src/middleware/request_transform.rs:495-533 | The entries of all system and developer messages, in order |
| `Messages.WalkBlocks` | src/middleware/request_transform.rs:652-739 | One walk collects content parts, tool calls and tool results, each in block order, with arguments printed in the key order they were read in |
| `Messages.TurnedReads` | src/middleware/request_transform.rs:741-764 | A reader of the composed message finds all its calls, content exactly when there is anything at all, a lone text as a string and several parts as a list |
| `Messages.OaiTransformMessages` | src/middleware/request_transform.rs:619-783 | The joined system texts first, then every message in order, tool results after the message they came in |
| `RoundTrip.RoundTripExactly` | src/middleware/request_transform.rs:312-783 | OpenAI to Anthropic and back returns a conversation unchanged if and only if it lies in the fragment: one leading non-empty system text at most, normal turns otherwise |
| `KeyOrder.RoundTripInAnyKeyOrder` | src/middleware/request_transform.rs:312-783 | The same whatever order the keys of the messages come in |
| `KeyOrder.BothKeyOrdersSurvive` | src/middleware/request_transform.rs:333-345 | Two argument texts that differ only in key order are equal values, and each comes back as it was sent |
| `KeyOrder.NullContentIsReplaced` | src/middleware/request_transform.rs:741-764 | A failing input: an assistant turn with null content and calls comes back with an empty string |
| `AnthropicFormat.ConversationFormat` | src/middleware/request_transform.rs:312-493 | Every accepted conversation goes out in the Anthropic format, turn by turn: text, image and document blocks, tool uses with parsed input, tool results said by the user |
| `AnthropicFormat.OnlyTwoVoices` | src/middleware/request_transform.rs:358-493 | Whatever JSON the messages hold, each that is not a system message gives one message: assistants stay assistants, users users, and answers of tools are said by the user |
| `AnthropicFormat.RejectedExactly` | src/middleware/request_transform.rs:312-356 | A conversation is rejected if and only if some call has arguments that do not parse, with the error of the first |
| `AnthropicFormat.SystemFormat` | src/middleware/request_transform.rs:495-533 | System and developer turns go out as text blocks of the system prompt, in order |
| `AnthropicFormat.PartIsBlock` | src/middleware/request_transform.rs:373-436 | Each text, image and file item becomes its block, a PDF in a `data:` URL a document; empty ones are left out |
| `AnthropicFormat.ContentBlocksFirst` | src/middleware/request_transform.rs:312-356 | Content blocks stand in for the content of an assistant message and are sent on as they are, but for tool uses, which come from its calls |
| `RoundTrip.TurnExactly` | src/middleware/request_transform.rs:312-783 | One turn comes back as itself if and only if it is normal, and as at most one message in any case |
| `RoundTrip.AssistantExactly` | src/middleware/request_transform.rs:312-356 | An assistant turn survives if and only if its content is a string, not empty unless it has calls, and every call's arguments are in serializer normal form |
| `RoundTrip.PartsExactly` | src/middleware/request_transform.rs:373-493 | A user turn with content items survives if and only if it is not empty, is not one text, and every image and file item is normal |
| `RoundTrip.DataImageExactly` | src/middleware/request_transform.rs:373-412 | A `data:` image survives if and only if it is a base64 URL with one non-PDF media type and a clean, non-empty payload |
| `RoundTrip.FileUrlExactly` | src/middleware/request_transform.rs:414-436 | A file by URL survives if and only if the URL is not empty and no media type was given |
| `RoundTrip.FileDataExactly` | src/middleware/request_transform.rs:414-436 | A file by value survives if and only if it is not empty and its media type was given |
| `RoundTrip.PieceCount` | src/middleware/request_transform.rs:438-783 | No turn turns into two messages, and system turns add none of their own |

## Left out

- Epoch.VersionMovesExactly: version arithmetic wraps as in release builds; debug builds, which panic there, are not modelled.
- ChatStream.StreamAgreesWithBuffered: token counts are integers within `i64` or absent; fragments are strings, and a block that is neither text nor a tool streams JSON fragments or nothing.
- Epoch.RevocationStore.Record: calls are sequential and every write of the file succeeds; concurrent calls and failed persists are not modelled.
- Receipt.Builder.Append: requires the event count to stay below the `u64` maximum.
- MessagesStream.StreamState.Apply: chunks are the typed view the code takes of the JSON, and serialization to SSE text is not modelled.
- SseAdapter.SseTransformStream.PollNext: wakers are not modelled, and a translator that emits an empty string counts as emitting.
- SessionStore.EveryStateRecoverable: after a torn line the next thing to reach the file is a compaction, as at startup; a write that fails halfway in a process that goes on appending is outside the claim.
- SessionStore.JsonlStore.PutSession: a failed write leaves no part of the line; file locks and permissions are not modelled.
- SessionIndex.Index.ListSessions: the library sort is an insertion into a sorted sequence.
- Dispatch.RouterState.Select: `f32` rounding of shares and loads is not modelled; the mutex is, as steps that do not overlap.
- RoundTrip.RoundTripExactly: is about typed conversations of strings, text, image and file items, tool calls and tool results; cache marks, `content_blocks` and system or assistant content given as arrays are translated by the model but are not part of the statement.
- Cryptographic primitives: end-to-end encryption, key providers, signatures and hashing are parameters at most.
- HTTP wiring, metrics polling, keep-alive timers, logging and configuration loading: input and output plumbing.
- The remaining `add_*` helpers of the receipt builder: they hash a body and call `append`.
- Attestation statements and report data: projections like the ones modelled, which would add only easy members.
- Tools, tool choice, stop sequences and the per-endpoint parameter tables of request shaping: one branch each.
- The legacy completion stream and the buffered OpenAI to Anthropic response: stateless field mappings.
- Error envelopes and status tables: settled by one branch each.
- The TypeScript client and the Python provider verifiers: they mirror the constructions modelled here.
