# Verified cores of the LLM interactive proxy

This project models the stateful algorithms of the proxy in Dafny and proves
what they are meant to guarantee, for every input and every run.

- **Stream translation** (`Text`, `SseFramer`, `StreamTranslator`,
  `StreamDriver`, `StreamProperties`, `StreamEndings`, `StreamToolBlocks`,
  `StreamBracketing`, `StreamBlockContents`, `StreamOpenBlocks`,
  `StreamReference`, `StreamPayloads`, `StreamOutput`, `StreamDecoder`,
  `StreamClient`, `StreamCuts`). The OpenAI event stream is cut into payloads
  by an incremental framer and translated, payload by payload, into Anthropic
  events under three pieces of state. `StreamDriver` holds the imperative form
  (a class with the flags and the buffer); `Conversion` is the whole stream
  read in one piece. `StreamReference` says what a stream means in terms of its
  payload strings and of what `json.loads` makes of them, without open blocks
  and stops. The theorems hold for every text and for every function standing
  in for `json.loads`. `StreamClient` goes all the way: what a client looks up
  in the objects it parses is what the backend sent.
- **Message conversion** (`RequestContent`, `ContentLaws`, `MessageConversion`,
  `MessageLaws`, `Json`, `JsonReader`). The content loop with its text
  accumulator, the conversion of tool uses, and the way back into content
  blocks; `ContentLaws` and `MessageLaws` say in terms of the blocks which of
  them cut the text and what is sent for them. `Json.Dumps` is the
  serialised form in both styles the source uses. Where a reader of JSON is
  needed, theorems ask of it only that it inverts `Dumps` on the values Python
  can hold (`Held`: no key twice in an object, numbers as Python writes them)
  and that no text is the JSON form of itself (`IsReader`).
  `JsonReader.DictLoadsIsAReader` shows that a reader which keeps one value per
  key, as a dictionary does, is one.
- **Key redaction** (`KeyRedactor`, `RedactorCache`). Leftmost, longest-first
  substitution behind an LRU cache.
- **Rate limits** (`RateLimit`). A timed map with lazy deletion against the
  plain log of `set` calls with the names their callers gave.
- **Usage report** (`UsageReport`, `UsageLaws`), **routing compliance visitor**
  (`CallSites`) and **phase timer** (`PhaseTimer`).

`dafny verify dfyconfig.toml` checks the whole project.

## How the source is represented

- Text is a sequence of characters, after UTF-8 decoding. CR LF normalisation
  is modelled as the source does it, chunk by chunk.
- A parsed chunk is a record of the members the translator reads; absent, null
  and given values are kept apart where the code tells them apart. `repr`
  fields hold what Python's `str` gives. JSON that makes the translator raise
  (a list, a null `function`, ...) is `Unexpected` and breaks the stream off.
- Clock readings are parameters. Seconds are real numbers.
- The digest in the redactor's cache is an injective function.
- Events are values; `StreamOutput.Render` is the text that is yielded.

## Where the code is not what one would expect

- A cut between a CR and its LF changes the text, because every chunk is
  normalised on its own; `NormalizeChunkwise` says exactly when, and
  `CutInsideCrLf` shows two payloads becoming one.
- -1 is the marker for "no open block". A call that resolves to it gets a
  block that is never stopped (`ReservedIndexIsNeverStopped`), also if it is
  numbered so by the translator after an index of -2 (`NumberedMinusOne`). A
  stream that ends without `[DONE]` leaves its open block open
  (`NoDoneLeavesBlockOpen`). `Bracketing` says exactly when brackets hold and
  when every block is stopped.
- A payload that is JSON but no chunk raises: the stream breaks off and no
  closing event is sent (`OneEnding`).
- Calls given with a message are dropped if its blocks hold a tool use, even
  when a tool result keeps that tool use from being sent
  (`OnlyLastToolResultIsSent`).
- A key that overlaps the placeholder can be put back by redaction;
  `CompleteIffNoOverlap` says exactly which keys do.
- A tool input that is null or a string does not survive the round trip
  (`InputRoundTrip`).
- A comment says that documents flush the text before them; an uncached
  document is in fact merged into the running text. The model follows the code.
- A reported token count of 0 counts as no report: a later request, or reply
  without events, of four bytes or more puts an estimate in its place.
  `ReportedUsageWins` gives the exact condition.
- The total is fixed by `finalize`. Phases completed later are still recorded,
  so the parts can exceed the total; the summary then shows no overhead
  (`SummaryAfterFinalize`, `PhaseAfterFinalize`).

## Model

| member | source | states |
|---|---|---|
| `Text.NormalizeChunkwise` | src/anthropic_converters.py:1162-1164 | normalising CR LF chunk by chunk equals normalising the whole text if and only if no cut separates a CR from its LF |
| `SseFramer.FramingCharacterised` | src/anthropic_converters.py:921-945 | framing is lossless, the leftover and the blocks hold no separator, and no other cutting of the text has these properties |
| `SseFramer.FrameInTwoSteps` | src/anthropic_converters.py:1164-1167 | framing a prefix and later its leftover with more text gives the blocks and leftover of the whole |
| `SseFramer.FrameChunksIsFrame` | src/anthropic_converters.py:1148-1167 | for every list of chunks the incremental framer yields the blocks and leftover of the concatenated text |
| `SseFramer.PayloadRoundTrip` | src/anthropic_converters.py:937-943 | a text written as `data:` lines, one per line, is read back unchanged |
| `SseFramer.OtherLinesIgnored` | src/anthropic_converters.py:934-943 | lines that do not begin with `data:` can be added to or taken from a block anywhere |
| `SseFramer.PaddedDataLine` | src/anthropic_converters.py:937-940 | all white space after `data:`, and nothing else, is taken from the value |
| `SseFramer.BlockPayload` | src/anthropic_converters.py:934-943 | the line loop yields the joined data values of a block, nothing for a blank block or one without data lines |
| `SseFramer.ConsumeSseBuffer` | src/anthropic_converters.py:921-945 | the separator loop returns the payloads of all complete blocks and the leftover |
| `StreamCuts.CutInsideCrLf` | src/anthropic_converters.py:1162-1167 | for any two values, a cut inside the CR LF of the blank line merges two payloads into one |
| `StreamDriver.NormalizeTextContent` | src/anthropic_converters.py:662-691 | the list loop concatenates exactly the string items and the string `text` members |
| `StreamDriver.Translator.constructor` | src/anthropic_converters.py:911-919 | a conversion starts with no header sent, no finish reason sent, no open block and an empty buffer |
| `StreamDriver.Translator.TranslateToolCall` | src/anthropic_converters.py:1048-1101 | one call stops the open block, starts its own and sends its fragment, and the active index becomes its index |
| `StreamDriver.Translator.TranslateToolCalls` | src/anthropic_converters.py:1046-1101 | the loop threads the active index through all calls of a delta |
| `StreamDriver.Translator.CloseBlock` | src/anthropic_converters.py:1124-1132 | stops the open block if there is one |
| `StreamDriver.Translator.TranslateContent` | src/anthropic_converters.py:1103-1121 | truthy content closes the open block and sends the normalised text |
| `StreamDriver.Translator.TranslateFinish` | src/anthropic_converters.py:1123-1144 | a finish reason closes the open block, is mapped and remembered |
| `StreamDriver.Translator.TranslateChoice` | src/anthropic_converters.py:1025-1146 | header, calls, content and finish of a choice in this order |
| `StreamDriver.Translator.TranslatePayload` | src/anthropic_converters.py:947-1146 | one payload changes the state and yields the events of the step function, for every kind of payload, and says whether the stream goes on, is finished or raised |
| `StreamDriver.Translator.TranslatePayloads` | src/anthropic_converters.py:1169-1174 | payloads are translated up to the first that ends the stream and not beyond |
| `StreamDriver.Translator.Feed` | src/anthropic_converters.py:1162-1174 | one chunk leaves the leftover of all text so far in the buffer |
| `StreamDriver.Translator.Convert` | src/anthropic_converters.py:1148-1190 | for every list of chunks the generator yields the events of the normalised text framed in one piece, early stop, flush and final `message_stop` included, and raises exactly when that run does |
| `StreamDriver.CutsDoNotMatter` | src/anthropic_converters.py:1148-1190 | two cuttings of the same text that keep CR LF pairs together give the same events, and raise alike |
| `StreamDriver.RunStaysDone` | src/anthropic_converters.py:1173-1174 | text after the payload that ends the stream has no effect |
| `StreamTranslator.RunAppend` | src/anthropic_converters.py:1169-1174 | a run over two lists of inputs is the first run, then the second from its state, unless the first ended the stream |
| `StreamTranslator.BlankRestHasNoPayload` | src/anthropic_converters.py:1176-1177 | skipping the flush of a blank leftover loses no payload |
| `StreamTranslator.DoneWithPadding` | src/anthropic_converters.py:955-956 | the end marker is recognised with any white space around it |
| `StreamReference.PayloadMeaning` | src/anthropic_converters.py:953-993 | a payload is the end marker, raises, is a chunk or is skipped by what stripping and `json.loads` make of it, an error chunk without choices included |
| `StreamReference.ProcessedChunks` | src/anthropic_converters.py:988-1023 | the chunks processed are those parsed from the payloads before the first that is the marker, raises or reports an error |
| `StreamReference.ConversionIsReference` | src/anthropic_converters.py:904-1190 | but for block stops every conversion is the reference: these chunks told one after the other with a plain counter for missing indices, then the closing the stopping payload calls for |
| `StreamPayloads.HowStreamsEnd` | src/anthropic_converters.py:989-1006 | over the payload strings: a stream raises exactly if its first stopping payload does, ends with the error that payload reports, else with `message_stop`, and nothing of either kind comes before |
| `StreamPayloads.TextOfPayloads` | src/anthropic_converters.py:1103-1121 | the text sent is that of the chunks parsed from the payloads before the first stop |
| `StreamPayloads.UsageOfPayloads` | src/anthropic_converters.py:1008-1023 | usage is sent once per such chunk that has one and no choices |
| `StreamPayloads.NoiseHasNoEffect` | src/anthropic_converters.py:953-993 | a payload that is empty or no JSON can be taken out of any stream without effect |
| `StreamReference.ErrorIsReported` | src/anthropic_converters.py:891-901 | the type of an error is its type, else its code, else `api_error`; its message has a default |
| `StreamReference.ContentIsTold` | src/anthropic_converters.py:662-691 | a content is sent unless absent or empty; its text is itself, its `text`, the joined texts of its items, or how Python prints it |
| `StreamProperties.ConversionShape` | src/anthropic_converters.py:1169-1190 | every conversion is the run of the inputs before the first ending one, followed by one closing step |
| `StreamProperties.TextConserved` | src/anthropic_converters.py:1103-1121 | the concatenated text deltas are the concatenated normalised contents of the processed chunks |
| `StreamProperties.UsageConserved` | src/anthropic_converters.py:1008-1023 | one usage delta per processed usage chunk, in order, prompt as input and completion as output tokens |
| `StreamEndings.StopReasons` | src/anthropic_converters.py:967-979 | the stop reasons sent are the mapped finish reasons in order; `end_turn` is added exactly when `[DONE]` comes and there were none |
| `StreamEndings.OneHeader` | src/anthropic_converters.py:1028-1044 | at most one `message_start`, sent exactly if a processed chunk names a role, with the id of the first such chunk or the session id |
| `StreamEndings.OneEnding` | src/anthropic_converters.py:989-1006 | exactly one closing event, the last one: `error` if an error chunk comes before any `[DONE]`, else `message_stop`; none if and only if a malformed payload comes first and raises |
| `StreamToolBlocks.PlacedCallsAreCalls` | src/anthropic_converters.py:1046-1047 | the calls the tool block theorems speak of are all calls of the processed chunks, in order |
| `StreamToolBlocks.OpeningsConserved` | src/anthropic_converters.py:1048-1084 | one `content_block_start` per id-bearing call, in order, with its id, name and resolved index |
| `StreamToolBlocks.ArgumentsConserved` | src/anthropic_converters.py:1086-1101 | for every index, the concatenated `partial_json` is the concatenation of the fragments that belong to it: those of its block, and those of calls without an id that give it, an absent index being 0 |
| `StreamToolBlocks.FragmentsConserved` | src/anthropic_converters.py:1086-1101 | one argument delta per call with arguments, in order, under the index of its block or, without an id, the index the call gives, 0 if the key is absent |
| `StreamToolBlocks.OmittedIndicesCount` | src/anthropic_converters.py:1049-1057 | over a whole stream whose calls carry no index the blocks are numbered 0, 1, 2, ..., anew after every text and every finish reason |
| `StreamBracketing.Bracketing` | src/anthropic_converters.py:1046-1132 | starts and stops alternate with matching indices, text and stop reasons lie outside of tool blocks and the run ends in the state the active index stands for, if and only if no call resolves to index -1; with argument deltas inside their own block if and only if moreover every other fragment carries the active index; every block is stopped if and only if moreover none is left open |
| `StreamBracketing.BracketingFromZero` | src/anthropic_converters.py:956-986 | with non-negative backend indices brackets always hold, and after `[DONE]` every started block has been stopped |
| `StreamOpenBlocks.SentIsRead` | src/anthropic_converters.py:921-945 | values sent as one event each are read as these payloads, one by one |
| `StreamOpenBlocks.ReservedIndexIsNeverStopped` | src/anthropic_converters.py:1059-1070 | a concrete stream on which a call at index -1 gets a block that not even `[DONE]` stops |
| `StreamOpenBlocks.NumberedMinusOne` | src/anthropic_converters.py:1049-1057 | a concrete stream on which a call without an index is numbered -1 after -2, though no call carries -1 |
| `StreamOpenBlocks.NoDoneLeavesBlockOpen` | src/anthropic_converters.py:1187-1190 | a concrete stream without `[DONE]` that is closed with its tool block open |
| `StreamBlockContents.BlocksConserved` | src/anthropic_converters.py:1046-1132 | if the fragments fit, the n-th block a client sees has the id, name and index of the n-th call with an id and exactly the arguments of that call and of its continuations, also where an index is used again |
| `StreamOutput.DataIsSerialised` | src/anthropic_converters.py:1114-1117 | the event texts assembled by hand equal the serialised dictionaries |
| `StreamOutput.ClientReadsEvent` | src/anthropic_converters.py:960-983 | parsing the data of an event gives its object, whose type is the event name |
| `StreamOutput.EventJsonIsHeld` | src/anthropic_converters.py:960-1144 | the object of every event is one Python can hold, if the numbers and values it carries are |
| `StreamDecoder.EventDecoded` | src/anthropic_converters.py:960-1144 | looking up its keys in the object of an event gives back every field of the event |
| `StreamOutput.OutputFrames` | src/anthropic_converters.py:921-945 | the emitted events, concatenated and cut anywhere, frame back to one payload per event, its data, with nothing left over |
| `StreamClient.ConversionIsHeld` | src/anthropic_converters.py:947-1190 | chunks whose values Python can hold are converted to events whose values Python can hold |
| `StreamClient.ClientReadsConversion` | src/anthropic_converters.py:904-1190 | the events of any text, written out and cut anywhere, are framed, parsed and looked up by a client to exactly the events of the conversion, with nothing left over |
| `StreamClient.ClientGetsEverything` | src/anthropic_converters.py:904-1190 | the whole way: from what it looks up a client has all text, usage and arguments of the chunks in the backend's payloads up to the first stop, in order, and block by block if the fragments fit |
| `RequestContent.MergeAfterCut` | src/anthropic_converters.py:224-231 | merging is independent on both sides of a block that cuts the text |
| `RequestContent.ContentBuilder.constructor` | src/anthropic_converters.py:217-222 | starts with no parts and an empty accumulator |
| `RequestContent.ContentBuilder.AddPiece` | src/anthropic_converters.py:252-254 | extends the open run of text |
| `RequestContent.ContentBuilder.FlushAndAdd` | src/anthropic_converters.py:224-251 | ends the open run and adds the parts of a cutting block after it |
| `RequestContent.ContentBuilder.AddBlock` | src/anthropic_converters.py:233-314 | each kind of block extends the run, cuts it or is ignored as the source has it |
| `RequestContent.ContentBuilder.Finish` | src/anthropic_converters.py:316-317 | the parts are the merged blocks read so far |
| `RequestContent.ConvertBlocks` | src/anthropic_converters.py:221-317 | the parts are the blocks with each maximal run of plain text and uncached documents merged and cut at every other block; tool calls and unknown blocks in order, the last tool result, the last non-empty thought |
| `ContentLaws.CutLaw` | src/anthropic_converters.py:233-314 | a tool use, thought, tool result, image, unknown block, or cached text or document ends the text before it, adds its own part with its `cache_control` or nothing, and what follows starts anew |
| `ContentLaws.PlainLaw` | src/anthropic_converters.py:224-231 | between two cuts all text, of texts and announced documents, makes one uncached part, none if there is none |
| `ContentLaws.LawsDetermineParts` | src/anthropic_converters.py:221-317 | no other conversion of blocks obeys these two laws |
| `MessageConversion.ConvertMessage` | src/anthropic_converters.py:210-392 | one message with its content simplified to a string, kept as parts or serialised, or turned into a tool message, and its extra attributes; calls come from the blocks or are given, never both |
| `MessageConversion.OnlyLastToolResultIsSent` | src/anthropic_converters.py:322-381 | of a message with tool results only the last one is sent, whatever other blocks it holds; given calls are sent beside it exactly if no block is a tool use |
| `MessageLaws.PlainMessageSent` | src/anthropic_converters.py:332-392 | without tool results a message keeps its role, its content stands for its parts or, without parts, its unknown blocks, and it has a call per tool use; extra attributes as given |
| `MessageLaws.ContentIsDetermined` | src/anthropic_converters.py:332-358 | no two contents stand for the same parts and unknown blocks |
| `MessageLaws.ResultMessageSent` | src/anthropic_converters.py:322-331 | with tool results a message is a tool message with text and id of the last one, bare strings in its list dropped |
| `MessageLaws.TextMessageSent` | src/anthropic_converters.py:319-320 | a message that is a string is sent as it is |
| `MessageLaws.CallsForUses` | src/anthropic_converters.py:825-874 | one call per tool use, in order, with id, name and arguments of the use or their defaults |
| `MessageConversion.ToolUseBlocksSnoc` | src/anthropic_converters.py:714-735 | call number n of a response is converted under its own position |
| `MessageConversion.BuildContentBlocks` | src/anthropic_converters.py:694-736 | thinking, then text, then one tool use per call, an absent name read as `tool` and a null name kept, unparsable arguments kept under `_raw` |
| `MessageLaws.ResponseBlocks` | src/anthropic_converters.py:694-746 | thoughts come before text before tool uses, one of the first two at most; one tool use per call of the message, of the choice if the message has none, with the id of its position as default |
| `MessageConversion.MergeKeepsText` | src/anthropic_converters.py:222-317 | merging neither loses nor reorders text |
| `MessageConversion.PartsKeepText` | src/anthropic_converters.py:222-317 | the text of the parts is the text of the blocks, in order and once |
| `JsonReader.DictLoadsIsAReader` | src/anthropic_converters.py:719 | a reader that keeps the last value of a repeated key reads back every value Python can hold, in every style, and never returns a key twice |
| `Json.StylesMeaning` | src/anthropic_converters.py:1018 | the default style separates with spaces, the compact one without; the default escapes all but ASCII |
| `MessageConversion.InputRoundTrip` | src/anthropic_converters.py:852-866 | a tool input Python can hold comes back equal if and only if it is neither null nor a string |
| `MessageConversion.MessageRoundTrip` | src/anthropic_converters.py:825-874 | a message of text and tool uses returns as one text block with all text, none if empty, then every tool use with its id, name and input in order |
| `KeyRedactor.OrderKeys` | src/security.py:18-20 | duplicates and empty keys dropped, longest first, in any order among equals |
| `KeyRedactor.RedactInternal` | src/security.py:68-88 | the scanner yields the substituted text and the set of keys replaced |
| `KeyRedactor.RedactionIsComplete` | src/security.py:75-79 | a key that cannot overlap the placeholder does not occur in the output, whatever keys are redacted with it, not even across a replacement |
| `KeyRedactor.RedactionIsIdempotent` | src/security.py:75-79 | if no key can overlap the placeholder, a second pass changes nothing, and a text is unchanged if and only if it holds no key |
| `KeyRedactor.KeyFreeTextUnchanged` | src/security.py:68-79 | a text without keys is returned as it is, whatever the keys look like |
| `KeyRedactor.KeyInsidePlaceholder` | src/security.py:75-77 | a key that is part of the placeholder is put back by its own redaction |
| `KeyRedactor.CompleteIffNoOverlap` | src/security.py:75-79 | the exact condition per key: it is removed from every text under every list of keys if and only if it and the placeholder cannot overlap |
| `KeyRedactor.OverlapComesBack` | src/security.py:75-79 | for every key that can overlap the placeholder, a second key and a text that put it back |
| `KeyRedactor.PlainKeyNoOverlap` | src/security.py:75-79 | a key without parentheses can overlap the placeholder only by lying inside it |
| `KeyRedactor.CompletenessOfList` | src/security.py:75-79 | for a fixed list: no overlapping key suffices, no key inside the placeholder is necessary, and for keys without parentheses that is an equivalence |
| `KeyRedactor.KeyAcrossReplacement` | src/security.py:75-79 | the keys `x(` and `k` turn the text `xk` into one that holds `x(` |
| `KeyRedactor.ReportedIffPresent` | src/security.py:73-86 | a warning is due exactly when the text holds a key, and only for keys in it |
| `KeyRedactor.RedactIsLeftmostLongest` | src/security.py:23-29 | matching in list order is leftmost-longest matching over the set of keys |
| `KeyRedactor.OrderDoesNotMatter` | src/security.py:19-29 | any two length-descending orders of the same keys give the same output |
| `RedactorCache.RecencyMeaning` | src/security.py:42-45 | the recency list holds exactly the texts used, each once, ordered by last use |
| `RedactorCache.WindowAfterHit` | src/security.py:42-45 | a hit moves its text to the recent end of the window |
| `RedactorCache.WindowAfterMiss` | src/security.py:49-53 | a miss appends its text and drops the oldest of a full window |
| `RedactorCache.APIKeyRedactor.constructor` | src/security.py:33-35 | the cache starts empty |
| `RedactorCache.APIKeyRedactor.RedactCached` | src/security.py:37-55 | the cache stays the 512 most recently used texts in recency order with their redactions, and the answer is that of the uncached function |
| `RedactorCache.APIKeyRedactor.RedactText` | src/security.py:57-66 | after any history the answer is that of the uncached function; only non-empty texts under 1000 characters use the cache |
| `RateLimit.LazyDeletionUnobservable` | src/rate_limit.py:29-86 | over any interleaving of calls under a clock that never goes back, the map answers as the log of `set` calls with the names their callers gave |
| `RateLimit.FreshRegistryIsTheLog` | src/rate_limit.py:23-33 | in particular from the empty registry |
| `RateLimit.KeysMeanNames` | src/rate_limit.py:33-36 | two names share a key exactly if backend and key name are equal and so are the models, none and the empty one being the same |
| `RateLimit.GetAfterRun` | src/rate_limit.py:35-52 | after any run `get` returns the time of the last `set` with the same backend, model and key name, exactly if it is still to come |
| `RateLimit.EarliestAfterRun` | src/rate_limit.py:54-86 | after any run `earliest` is the least of what `get` would answer for the names given, or for all ever set |
| `RateLimit.PurgingUnobservable` | src/rate_limit.py:41-51 | what `get` and `earliest` delete changes no later answer |
| `RateLimit.EarliestIsLeastGet` | src/rate_limit.py:54-86 | `earliest` is the least answer of `get` over the chosen keys, none exactly if all are none |
| `RateLimit.RateLimitRegistry.constructor` | src/rate_limit.py:23-27 | a registry starts empty |
| `RateLimit.RateLimitRegistry.Set` | src/rate_limit.py:29-33 | logs now plus delay under the names given |
| `RateLimit.RateLimitRegistry.Get` | src/rate_limit.py:35-52 | returns only the time last set under the same names and only if it is still to come, and misses none unless something was evicted |
| `RateLimit.RateLimitRegistry.Evict` | src/rate_limit.py:24-26 | arbitrary eviction keeps every remaining answer sound |
| `RateLimit.RateLimitRegistry.Collect` | src/rate_limit.py:61-82 | the loop deletes exactly the expired keys and collects the times of the others |
| `RateLimit.RateLimitRegistry.Earliest` | src/rate_limit.py:54-86 | the least time still to come over the given combinations, or over all keys if none are given |
| `UsageReport.ApplySseEvents` | scripts/usage_report.py:217-229 | the event loop applies model and usage of every event in order |
| `UsageReport.UpdateSession` | scripts/usage_report.py:205-232 | one entry counts a request or updates the tokens, with the two estimates |
| `UsageReport.GroupBySession` | scripts/usage_report.py:183-232 | the dictionary holds for every session id the state its own entries lead to |
| `UsageReport.RequestsConserved` | scripts/usage_report.py:186-213 | every request entry of a file is counted in exactly one session |
| `UsageReport.AllRequestsConserved` | scripts/usage_report.py:179-245 | the sessions of all readable files hold all request entries with a session id at or after the start time |
| `UsageReport.CountSettles` | scripts/usage_report.py:205-232 | the final prompt and completion counts exactly: the last report if there is one and it is not 0, else the first estimate after it that is not 0 |
| `UsageReport.ReportedUsageWins` | scripts/usage_report.py:210-232 | a session ends with the count reported last, prompt or completion, if and only if that is not 0 or nothing of four bytes or more to estimate from came after it |
| `UsageReport.SessionIdentity` | scripts/usage_report.py:196-220 | a session goes by the backend of its first entry and the model reported last |
| `UsageReport.ReportedZeroIsEstimated` | scripts/usage_report.py:210-232 | histories on which it fails, for either count: a reported 0, then an entry to estimate from |
| `UsageReport.Aggregate` | scripts/usage_report.py:234-245 | every row holds the sum of the sessions of its backend and model, and the rows sum to all of them |
| `UsageReport.Totals` | scripts/usage_report.py:280-294 | the running totals are the sums over the rows |
| `UsageReport.AnalyzeCaptures` | scripts/usage_report.py:176-294 | total requests are the request entries of all readable files, token totals the sums of the final counts of sessions with a request and the sums over the rows; row keys are distinct, every row is the sum of its sessions and every session is in its row |
| `UsageLaws.SessionMeaning` | scripts/usage_report.py:186-232 | a session from its own entries alone: backend of the first, model reported last, number of requests, and for either count the last report or the first estimate since |
| `UsageLaws.CountedMeaning` | scripts/usage_report.py:234-237 | a session is reported exactly if its history holds a request |
| `UsageLaws.SumMeaning` | scripts/usage_report.py:280-294 | requests, prompt and completion tokens are summed separately |
| `UsageLaws.RowMeaning` | scripts/usage_report.py:239-245 | a row sums the sessions of its backend and model |
| `UsageLaws.CountRequestsMeaning` | scripts/usage_report.py:186-209 | the requests counted are the entries of that direction not before the start time and with a non-empty session id |
| `CallSites.ChainText` | dev/scripts/check_routing_unification_compliance.py:77-85 | a name with attributes is printed with dots in order |
| `CallSites.OnlyChainsHaveText` | dev/scripts/check_routing_unification_compliance.py:77-85 | a target has a text if and only if it is a name or an attribute chain on one |
| `CallSites.PreOrderListsPositions` | dev/scripts/check_routing_unification_compliance.py:57-74 | the pre-order lists exactly the positions of the tree, each once, in strictly ascending lexicographic order |
| `CallSites.SitesByPosition` | dev/scripts/check_routing_unification_compliance.py:57-74 | the sites are, in pre-order of all positions, the calls with a dotted target, each with the innermost function definition above it |
| `CallSites.OwnSiteMeaning` | dev/scripts/check_routing_unification_compliance.py:67-74 | a node is a site exactly if it calls a dotted chain, whatever its arguments |
| `CallSites.EnclosingMeaning` | dev/scripts/check_routing_unification_compliance.py:57-72 | the function of a site is the definition furthest down the way to it, if there is one |
| `CallSites.VisitModule` | dev/scripts/check_routing_unification_compliance.py:159-162 | the sites of a file, position by position, calls outside of functions under `<module>` |
| `CallSites.CallSiteVisitor.constructor` | dev/scripts/check_routing_unification_compliance.py:53-55 | starts with an empty stack and no sites |
| `CallSites.CallSiteVisitor.Visit` | dev/scripts/check_routing_unification_compliance.py:57-74 | the stack-based walk records the sites of the stack-free definition and restores the stack |
| `CallSites.CallSiteVisitor.VisitAll` | dev/scripts/check_routing_unification_compliance.py:59-64 | the same for a list of children |
| `PhaseTimer.OverheadNotNegative` | src/performance_tracker.py:68-99 | after any sequence of calls the durations are non-negative and sum to at most the total when `finalize` returns |
| `PhaseTimer.SummaryAfterFinalize` | src/performance_tracker.py:75-99 | for all calls before and after `finalize`: the summary keeps its total, accounts for the last interval of every phase, before or after, and shows their difference exactly if it is positive |
| `PhaseTimer.NoLatePhaseIsCovered` | src/performance_tracker.py:68-99 | as long as no known phase is completed after `finalize`, the total covers what is recorded |
| `PhaseTimer.OwnTotalCovers` | src/performance_tracker.py:77-78 | a summary that finalises itself, its total being absent or 0, covers everything |
| `PhaseTimer.PhaseAfterFinalize` | src/performance_tracker.py:75-99 | a backend call after `finalize` that is longer than all before it makes the parts exceed the total, and no overhead is shown |
| `PhaseTimer.IntervalsDisjoint` | src/performance_tracker.py:37-66 | the timed intervals never overlap |
| `PhaseTimer.RecordedIsLastInterval` | src/performance_tracker.py:46-66 | every recorded duration is the length of the last completed interval of its phase |
| `PhaseTimer.FieldsAreLastIntervals` | src/performance_tracker.py:46-66 | each of the four fields is the length of the last interval of the phase it is named after |
| `PhaseTimer.PerformanceMetrics.constructor` | src/performance_tracker.py:18-35 | starts with nothing recorded |
| `PhaseTimer.PerformanceMetrics.Begin` | src/performance_tracker.py:37-44 | starting a phase ends the running one first |
| `PhaseTimer.PerformanceMetrics.EndCurrent` | src/performance_tracker.py:46-66 | stores the duration in the field of the phase, if it is a known one |
| `PhaseTimer.PerformanceMetrics.Complete` | src/performance_tracker.py:68-73 | the total covers all recorded durations |
| `PhaseTimer.PerformanceMetrics.LogSummary` | src/performance_tracker.py:75-99 | finalises if the total is absent or 0, and returns the overhead to show, none if it is not positive |

## Left out

- StreamDriver.Translator.TranslatePayload: which JSON raises is a parameter. Members of an unusual scalar type that Python would pass through unchanged, such as a numeric tool call id or a fractional index, are not modelled.
- StreamDriver.Translator.Convert: chunks are already decoded; a cut inside a UTF-8 character and the dropping of invalid bytes are not modelled. Yielding is modelled as the list of all events.
- Text.IsSpace: the table of white space is taken over from Python as it stands; constants such as the placeholder and the cache sizes likewise.
- RequestContent.ConvertToolUse: a tool name that is itself an object is not modelled, nor are inputs that cannot be serialised.
- MessageConversion.ConvertMessage: one turn of the message loop. The system message, tool definitions, tool choice, metadata and sampling parameters are copied field by field by the source, without state or branching that the messages depend on.
- MessageConversion.BuildContentBlocks: the envelope of the response (id, model, usage, stop reason) is not modelled.
- JsonReader.DictLoads: numbers are kept as their literals and the grammar inside a literal is not checked; it serves as a witness only. Python's limits on nesting and on the digits of an integer are not modelled; `reprs` says which literals are read back.
- RedactorCache.APIKeyRedactor.RedactCached: digest collisions are excluded.
- RateLimit.RateLimitRegistry.Evict: which entries the size and age limits of the cache remove, and the lock, are not modelled.
- UsageReport.AnalyzeCaptures: file discovery, decoding and SSE parsing are inputs; a file that fails is a file without entries.
- CallSites.CallSiteVisitor.Visit: the inventory comparison and the scanning of files are not modelled.
- PhaseTimer.PerformanceMetrics.Complete: rounding of floating point is not modelled.
- `openai_to_anthropic_stream_chunk` (src/anthropic_converters.py:1193-1258): the older variant that converts one chunk without state, framing or tool blocks; what it does to a chunk is a case distinction on one record, so no run, order or invariant is left to prove.
- `parse_retry_delay` and its helpers (src/rate_limit.py:89-175): a lookup in one parsed error object that shares no state with the registry and whose result is Python's reading of a decimal literal, which the model does not have.
- Logging, servers, connectors, account management and all other plumbing of the repository.
