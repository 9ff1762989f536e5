# Verified core of the terminal agent

This project models the parts of the agent that keep state while events stream
through them, and proves what they promise to the rest of the program.

1. **Redaction.** `Secrets` is the batch replacement of credentials and the
   choice of the marker; `Patterns` makes the list of spellings from the keys;
   `StreamRedaction` is the incremental redactor. `RedactionTheorems` relates it
   to the batch form: they give the same text for every chunking if and only if
   no pattern occurs inside another except as its suffix, and with a marker that
   no pattern can take part in no credential ever shows in the output, across
   marker edges too. `PatternDecoding` reads the spellings back with strict
   decoders of UTF-8 (RFC 3629), JSON strings, URL forms and Base64 (RFC 4648);
   `PatternTheorems` says what all this means for the keys: fewer than a million
   characters of them are always safe. `LeakTheorems` bounds the texts in which a
   leak can hide when they are not. `JsonRedaction` goes into JSON values.
   `ProviderStream` is the loop that redacts the parsed events of a model stream;
   it keeps their order of phases. `ProviderArguments` is about the arguments of
   tool calls, which have a redactor for each slot, and about ids, names and the
   like.
2. **Server-sent events.** `SseDecoder.dfy` is the decoder with its scan
   position and three-byte overlap; `SseTheorems` shows that chunking is
   invisible, that nothing but delimiters is dropped, and that encoded events
   are read back; `SseFrames` says what one frame means. The format is a narrower form of section 9.2.6 of the WHATWG
   HTML standard: only LF LF and CRLF CRLF end a frame, and all leading white
   space of a value is trimmed.
3. **The event bridge.** `EventBridge` is a bounded ring over an unbounded log.
   `LiveChannel` and `CursorWatch` are the two subscription protocols as state
   machines: ring append under the lock, broadcast, and watch update are separate
   steps that interleave freely with the consumers' own. `EventText` shows that
   the byte accounting covers all text in the ring.
4. **The run loop and its event contract.** `Conformance` is the stream checker,
   with the rules it enforces told independently of its automaton; `StreamRules`
   says which of them it reports. `StreamCollector.dfy` accumulates a model round,
   and `PartialCalls` tells from the events alone what calls that makes.
   `Forwarding` is the event closure of a round, `ToolDispatch` carries out a tool
   call, `ToolRounds` all calls of a round with the child agents they start, and
   `ToolResults` says what the results are. `Compaction` shrinks the conversation
   (`CompactionBudget` says by how much), and `RunLoop` puts them together.
   `RoundTheorems`, `RunTheorems`, `AnswerTheorems`, `ForwardedWords` and
   `ForwardedItems` prove what holds of every run: its events, its tool log, the
   answers and results it keeps, the words and items it shows. `Conversation`,
   `ReplayTheorems` and `ToolBlocks` are about the history that is replayed,
   `CanonicalJson` and `CanonicalJsonTheorems` about call signatures.
5. **Children and parked sessions.** `ChildAgents` interleaves child agents that
   can be cancelled at every await, and `ChildReports` says what they run and
   report; `ParkedSessions` is the capacity-bounded set of background sessions.

`Bounded`, `Utf8`, `Sequences`, `Wrappers` and `Protocol` hold what several of
these share. Text is a sequence of Unicode characters whose UTF-8 length is
computed; integers are unbounded. Everything the program asks of the outside
(provider, tools, user, storage, JSON parser, fresh ids, clock) is a parameter,
so the results hold whatever it answers.

Where the code and its own words differ, the model follows the code:

- The batch and the streamed redaction of one text can differ;
  `RedactionTheorems.StreamEqualsBatchIff` says exactly when they never do. Every
  key whose UTF-8 length is not a multiple of three is an instance, with its
  Base64 spellings with and without padding (`PatternTheorems.PaddedKeyDiffers`).
- The marker is meant to form no credential. If the readable text is unsafe and
  the keys use every pool character, it is built from U+FFFD, which then is in
  some pattern. That alone leaks nothing: output is clean as long as no pattern
  agrees with the marker wherever the two overlap
  (`RedactionTheorems.RedactionIsClean`). A pattern inside the marker always
  leaks (`RedactionTheorems.MarkerHoldsPatternLeaks`), and where no pattern can
  reach across an edge of the marker that is the only leak
  (`RedactionTheorems.AlwaysCleanIff`). For any patterns at all, every leak shows
  already in a text of at most L(L + 2) characters, L being the longest pattern,
  so it can be decided (`LeakTheorems.AlwaysCleanIffShort`). The key `[` and every pool character as a
  key of its own are such keys (`PatternTheorems.ExhaustedPoolLeaks`).
- The arguments of a tool call are redacted through one redactor for each slot,
  which is finished when its complete call comes. A delta of the slot that comes
  after that starts afresh, so that a credential cut there gets through
  (`ProviderArguments.ResumedSlotLeaks`); where none comes, none does
  (`ProviderArguments.ArgumentsAreClean`).
- The stream rules have all text after the reasoning barrier, but the checker
  accepts text between two reasoning deltas
  (`Conformance.TextWithinReasoningIsAccepted`).
- An empty reasoning delta is not sent but still makes the following text send
  the barrier, which the checker rejects
  (`RoundTheorems.EmptyReasoningIsRejected`). The network provider sends none
  (`ProviderStream.SentIsTidy`); a scripted one may.
- A comment in the overflow recovery says that compaction and trimming strictly
  reduce the estimate (`src/agent/runner.rs:607-613`). They do so if and only if
  the summary, or the note where something was trimmed, makes fewer tokens than
  what it replaces (`Compaction.CompactionShrinksIff`,
  `Compaction.TrimShrinksIff`); otherwise both can raise it
  (`Compaction.CompactionCanGrow`, `Compaction.TrimCanGrow`). The progress gate
  behind it is what bounds the retries, and `RunLoop.RetryIsGrantedIff` says when
  it lets one pass.
- A second application of `replay_safe_items` can remove more
  (`ReplayTheorems.StaleOutputIsNotStable`); `ReplayTheorems.ReplayTwiceIff`
  says exactly when it does not.
- `src/config/limits.rs:178-181` says that overflow eviction shuts down a busy
  session if it must; the code never does.
- The approval lock leaves one live prompt at a time, yet the prompt of a child
  that was cancelled while it waited can still be before the user when a child of
  a later run asks (`ChildAgents.CancelledPromptLingers`). Without such a
  cancellation there is never a second prompt (`ChildAgents.OnePromptAtATime`),
  and `ChildAgents.OnePromptIff` gives the exact condition.

## Model

| member | source | states |
|---|---|---|
| Secrets.FirstIsUnique | src/secrets.rs:181-192 | leftmost, then longest, determines the match that is replaced, whichever of several equal patterns is found |
| Secrets.RedactValues | src/secrets.rs:177-200 | the loop over the remaining text computes the recursive replacement with the marker chosen for the patterns |
| Secrets.MarkerIsGuardedIff | src/secrets.rs:256-274 | the ends of the chosen marker are in no pattern and it holds none, exactly when the readable text is safe or some pool character is in no pattern |
| Patterns.LowerEscapes | src/secrets.rs:226-240 | the in-place loop over the URL form lowers the hex digits of its escapes and nothing else |
| Patterns.RedactionPatterns | src/secrets.rs:220-254 | the loop over the keys computes the sorted list of their spellings |
| Patterns.PatternsAreForms | src/secrets.rs:220-254 | the list holds the eight spellings of every non-empty key and nothing else |
| Patterns.PatternsAreProper | src/secrets.rs:220-254 | no pattern is empty |
| Patterns.PaddedIsUnpadded | src/secrets.rs:242-249 | in both alphabets the padded Base64 form is the unpadded one and the padding that the length asks for |
| PatternDecoding.DecodeUtf8Iff | src/secrets.rs:226 | octets are the UTF-8 form of a text if and only if a decoder that takes shortest forms of scalar values alone reads them as it |
| PatternDecoding.UnescapeIff | src/secrets.rs:224-225 | a text is the JSON form of another if and only if it unescapes to it, nothing being escaped without need |
| PatternDecoding.DecodeUrlIff | src/secrets.rs:226-241 | a text is the URL form of octets, in either case of the hex digits, if and only if percent-decoding it strictly gives them |
| PatternDecoding.DecodeBase64Iff | src/secrets.rs:242-249 | a text is a Base64 form of octets if and only if decoding it by the literal alphabet, padded exactly if asked, gives them |
| PatternDecoding.PatternsSpell | src/secrets.rs:220-254 | the list holds every text that reads back as a non-empty key, as it is or through one of these decoders, and nothing else |
| PatternTheorems.PatternsAscend | src/secrets.rs:251-252 | the list is in strictly ascending order, so it holds each pattern once |
| StreamRedaction.StreamRedactor.Push | src/provider/openai.rs:670-703 | the in-place loop outputs every replaced match and withholds the longest suffix that begins a pattern |
| StreamRedaction.StreamRedactor.Finish | src/provider/openai.rs:705-707 | hands out what was withheld and withholds nothing more |
| StreamRedaction.StreamRedactor.MaskPending | src/provider/openai.rs:709-717 | a non-empty withheld part is replaced by the marker |
| RedactionTheorems.StreamIsRedact | src/provider/openai.rs:670-707 | for suffix-only patterns, pushing any chunks and finishing gives the batch redaction of the whole text |
| RedactionTheorems.StreamEqualsBatchIff | src/provider/openai.rs:670-707 | streaming equals batch on every text and chunking if and only if no pattern occurs inside another except as its suffix |
| RedactionTheorems.CutInsideDiffers | src/provider/openai.rs:1571-1592 | for every pattern with another inside it, a chunking on which the two differ |
| RedactionTheorems.PaddedPairDiffers | src/secrets.rs:220-254 | a pattern and any longer one that begins with it are such a pair, with the chunking that shows it |
| RedactionTheorems.OneChunkIsBatch | src/provider/openai.rs:670-707 | fed in one piece, the stream is the batch form whatever the patterns |
| RedactionTheorems.NoPatternEscapes | src/provider/openai.rs:657-717 | over any pushes and masks, no pattern occurs in what was emitted, alone or with what is withheld, and what is withheld is a proper prefix of a pattern |
| RedactionTheorems.ClearIff | src/secrets.rs:256-274 | no pattern agrees with the marker on any overlap, if and only if none reaches across an edge of it and none lies inside |
| RedactionTheorems.MarkerIsClear | src/secrets.rs:256-274 | so it is if the readable text is safe or some pool character is in no pattern |
| RedactionTheorems.RedactionIsClean | src/secrets.rs:256-274 | the same for the marker the code computes, streamed or in one batch, if no pattern agrees with it on any overlap |
| RedactionTheorems.AlwaysCleanIff | src/secrets.rs:256-274 | where no pattern reaches across an edge of the marker, every redacted text is clean if and only if no pattern lies inside it |
| RedactionTheorems.MarkerHoldsPatternLeaks | src/secrets.rs:177-200 | a pattern inside the marker is shown whenever any pattern is redacted |
| RedactionTheorems.StraddleLeaks | src/secrets.rs:177-200 | a pattern across an edge of the marker leaks if some pattern is the first match between the characters it needs around the marker |
| LeakTheorems.LeakIsShort | src/secrets.rs:177-200 | every text whose redaction shows a pattern leads to one of bounded length whose redaction shows one too |
| LeakTheorems.AlwaysCleanIffShort | src/secrets.rs:177-200 | redaction is clean on every text if and only if it is on the texts up to that bound, for any patterns and any marker |
| PatternTheorems.RedactIgnoresOrder | src/secrets.rs:168-175 | the order in which the keys come out of their map does not matter |
| PatternTheorems.PatternsUse | src/secrets.rs:220-254 | beyond ASCII the patterns use the characters of the keys and no others |
| PatternTheorems.KeysNeverShow | src/secrets.rs:256-274 | of keys that together are shorter than the pool nothing shows that reads back as one of them, in a batch or a stream |
| PatternTheorems.ExhaustedPoolLeaks | src/secrets.rs:256-274 | keys with whose patterns every redaction of a pattern shows a key |
| PatternTheorems.PaddedKeyDiffers | src/secrets.rs:242-249 | for every key whose UTF-8 length is not a multiple of three, a chunking on which stream and batch differ |
| JsonRedaction.InsertFieldsHas | src/secrets.rs:210-216 | rebuilding an object keeps, of the fields whose keys became equal, the last, and no others |
| JsonRedaction.RedactJsonIsClean | src/secrets.rs:202-218 | no string and no key of a redacted value holds a pattern, at any depth |
| JsonRedaction.RedactJsonIsWellFormed | src/secrets.rs:202-218 | a redacted value has distinct keys again |
| JsonRedaction.RedactJsonKeeps | src/secrets.rs:202-218 | a value without patterns is left as it is |
| ProviderStream.StreamAttempt | src/provider/openai.rs:307-552 | the loop over the parsed events sends on, in order, exactly the redacted words, tool deltas, other events and tails |
| ProviderStream.SentIsTidy | src/provider/openai.rs:328-552 | parsed reasoning, text and tool deltas in order are sent in order, whatever is withheld, and no reasoning is sent empty |
| ProviderStream.SentIsClean | src/provider/openai.rs:328-552 | all text that is sent, joined, and all reasoning hold no pattern, however the stream ends |
| ProviderStream.TextIsRedaction | src/provider/openai.rs:328-552 | without tool calls the text sent is the batch redaction of the text parsed, for suffix-only patterns |
| ProviderArguments.ArgumentsAreClean | src/provider/openai.rs:346-552 | the arguments sent for a slot, joined over all its deltas, hold no pattern, however the stream ends, if no other slot is shown alike and none of its deltas follows its complete call |
| ProviderArguments.ArgumentsAreRedaction | src/provider/openai.rs:346-552 | for suffix-only patterns a stream that does not fail sends exactly the batch redaction of the arguments that were parsed for the slot |
| ProviderArguments.ResumedSlotLeaks | src/provider/openai.rs:407-436 | any pattern cut in two harmless parts, the second one in a delta after the complete call, is sent whole |
| ProviderArguments.MarksAreCleaned | src/provider/openai.rs:328-500 | ids, names, complete calls, provider items, searches, response ids and usage are sent in order, each redacted, and a stream that does not fail drops none |
| ProviderArguments.SentLabelsAreClean | src/provider/openai.rs:346-552 | none of them, and no slot, holds a pattern |
| SseDecoding.FindEventBoundary | src/provider/openai.rs:1514-1526 | the first LF LF or CRLF CRLF at or after the start, and how many positions it looked at |
| SseDecoding.BoundaryIsFirst | src/provider/openai.rs:1514-1526 | what is found is a delimiter and no delimiter begins before it |
| SseDecoding.ParseSseFrame | src/provider/openai.rs:1528-1545 | the line-by-line loop keeps the last event name and joins the data lines; a frame without data is no event |
| SseFrames.FrameMeans | src/provider/openai.rs:1528-1545 | a frame means its last `event:` line and its `data:` lines in order; other lines, comments among them, change nothing |
| SseDecoding.SseDecoder.TryPush | src/provider/openai.rs:1464-1506 | the outcome, the events and the new buffer are those of one-shot splitting of buffer and chunk; at most three old positions are looked at again |
| SseTheorems.ChunkingIsInvisible | src/provider/openai.rs:1464-1506 | a run succeeds exactly when no buffer and no frame is too large, and then its frames and tail are those of splitting the whole input |
| SseTheorems.DecodeAll | src/provider/openai.rs:304-310 | the receiving loop gives the events of the whole input, with total positions inspected at most the bytes plus three per chunk |
| SseTheorems.BoundaryIsStable | src/provider/openai.rs:1514-1526 | later bytes never move a delimiter already found |
| SseTheorems.SplitResumes | src/provider/openai.rs:1464-1506 | splitting can stop anywhere and go on from the tail it left |
| SseTheorems.SplitLosesNothing | src/provider/openai.rs:1476-1497 | frames and delimiters glued together are the input, byte for byte |
| SseTheorems.SplitEncoded | src/provider/openai.rs:1514-1526 | frames written with LF LF between them are split back |
| SseTheorems.ParseRendered | src/provider/openai.rs:1528-1545 | an event written as lines is parsed back; only an LF, leading white space, and a CR just before an LF are lost |
| EventBridge.EventBridge.Push | src/bridge.rs:209-235 | appends to the log under the next cursor and keeps the ring, its byte total and its last cursor exact |
| EventBridge.EventBridge.ReplayAfter | src/bridge.rs:263-284 | resync exactly when a later event was evicted, else precisely the log after the cursor |
| EventBridge.EventBridge.Snapshot | src/bridge.rs:299-361 | the snapshot of either subscription owes the same |
| EventBridge.EventBridge.EventsAfter | src/bridge.rs:366-385 | the same, cut to the first max(limit, 1) events |
| EventBridge.RingIsLongestSuffix | src/bridge.rs:209-240 | after every push the ring is the longest suffix of the whole history within both limits, with contiguous cursors ending at the last one assigned |
| EventText.PayloadCoversText | src/bridge.rs:97-167 | an event is charged for at least all the text it carries |
| EventText.RingTextIsBounded | src/bridge.rs:224-233 | all text in the ring, and sixteen bytes for each envelope, is within the byte limit |
| Bounded.NewestIsIncremental | src/bridge.rs:224-233 | evicting after every append keeps what evicting from the whole history once would |
| LiveChannel.ExactlyOnceInOrder | src/bridge.rs:299-330 | with one pushing task, in every interleaving, a consumer that skips seen cursors applies after+1, after+2, ... each once and in order, and all of them once nothing is in flight |
| LiveChannel.TwoPushersLoseAnEvent | src/bridge.rs:236-238 | with two pushing tasks an interleaving in which the consumer loses an event for good |
| CursorWatch.BatchesAreGapless | src/bridge.rs:336-385 | with any number of pushers and consumers, each consumer's batches join to the log from its start without gap or repetition |
| CursorWatch.NoWakeUpIsLost | src/bridge.rs:236-240 | a waiting consumer behind the log has its watch flag set, or some push is between append and signal |
| CursorWatch.QuietMeansCaughtUp | src/bridge.rs:336-385 | when every push has signalled and nothing wakes a consumer, it has everything |
| Conformance.CheckStreamInvariants | src/conformance.rs:602-726 | the loop reports exactly the violations of the stream, in order |
| Conformance.AcceptsIffLegal | src/conformance.rs:602-726 | the automaton accepts a stream if and only if each envelope obeys the rule told from the events before it in its round |
| StreamRules.FirstViolationIs | src/conformance.rs:602-726 | the first envelope that is reported is reported for exactly what it breaks: the order of cursors, and the one rule told from the events before it |
| Conformance.SuffixIsAccepted | src/conformance.rs:24-25 | every suffix of an accepted stream is accepted |
| Conformance.ReplayIsAccepted | src/bridge.rs:263-284 | what the bridge replays of a conformant session, from any retained cursor, is conformant |
| Conformance.TextWithinReasoningIsAccepted | src/conformance.rs:650-690 | the checker accepts text between two reasoning deltas |
| Utf8.PrefixIsLongest | src/agent.rs:70-80 | a bounded cut is the longest prefix of whole characters within the limit |
| Utf8.AppendTextBounded | src/agent.rs:70-80 | appends the longest such prefix of the delta that still fits |
| Utf8.BoundaryAtMost | src/agent.rs:545-551 | the backward search for a character boundary finds that prefix |
| Utf8.ChunksRejoin | src/agent.rs:536-581 | queue payloads join to the delta and each is non-empty and within the limit, or one wide character |
| Utf8.Chunk | src/agent.rs:536-581 | the draining loop produces those payloads |
| StreamCollecting.AppendReasoningBounded | src/agent.rs:54-68 | keeps the longest suffix of the reasoning within the limit |
| StreamCollecting.MergeDelta | src/agent.rs:312-353 | every outcome of merging an argument delta; the byte counter changes by what the slots hold more, and neither limit is passed |
| StreamCollecting.DeltaFitsIff | src/agent.rs:311-343 | a delta is taken if and only if the calls stay within the limits of number, of one call and of all together with it |
| PartialCalls.JoinedNext | src/agent.rs:303-373 | whatever events are taken, each slot holds the last id and name and the arguments, joined in order of arrival, of its deltas since it began or since the complete call with its id |
| PartialCalls.FinishedAreMade | src/agent.rs:399-421 | at the end every named slot whose id no complete call bears becomes one call, with the parse of exactly those arguments, and there are no others |
| PartialCalls.StreamedCalls | src/agent.rs:399-421 | so of a stream without complete calls each named slot becomes a call with the parse of all its arguments |
| StreamCollecting.StreamCollector.OnText | src/agent.rs:275-303 | the text grows by what still fits of the delta; until one is refused it is the longest prefix of what arrived within the limit, and afterwards exactly as long as nothing more would fit |
| StreamCollecting.StreamCollector.OnToolCallComplete | src/agent.rs:355-390 | the completed call replaces a partial one of its id; counter, total and call count stay exact and within limits, on errors too |
| StreamCollecting.StreamCollector.OnEvent | src/agent.rs:273-397 | over any event the counter equals partial plus completed bytes, within its limit, and calls never exceed their number; which events are refused |
| StreamCollecting.StreamCollector.FinishPartials | src/agent.rs:399-421 | every named partial call becomes one call, in some order, and calls still do not exceed their number |
| StreamCollecting.TextAfterRefusalIsNoPrefix | src/agent.rs:275-303 | a collector that is given more text after a refused delta, and ends with one that is no prefix of what arrived |
| CanonicalJsonTheorems.CanonicalIffEquivalent | src/agent.rs:583-615 | two arguments have the same canonical text if and only if they are equal up to key order at every depth |
| CanonicalJsonTheorems.RenderPrefixFree | src/agent.rs:587-615 | rendered values are read back uniquely from any text they begin |
| CanonicalJsonTheorems.SortSorts | src/agent.rs:589-591 | the fields come out sorted and are the same fields |
| Conversation.ReplaySafeItems | src/agent.rs:117-145 | the loop over items with its set of known calls computes the replay |
| ReplayTheorems.ReplaySafeIsSelect | src/agent.rs:117-145 | the replay keeps in place exactly the calls some output names and the outputs some earlier kept call names |
| ReplayTheorems.KeptOutputHasKeptCall | src/agent.rs:117-145 | no output is kept without an earlier kept call |
| ReplayTheorems.KeptIsLargest | src/agent.rs:117-145 | any choice of calls and outputs in which outputs follow and calls are answered is contained in what is kept |
| ReplayTheorems.KeptIsValidIff | src/agent.rs:117-145 | what is kept is such a choice if and only if no call has all its outputs before it |
| ReplayTheorems.ReplayIsLargestValid | src/agent.rs:117-145 | the replay is the history cut down to the largest such choice, exactly under that condition, and so wherever outputs follow their calls |
| ReplayTheorems.ReplayTwiceIff | src/agent.rs:117-145 | a second application changes nothing if and only if every id that is called and answered is answered after some call of it |
| ReplayTheorems.StaleOutputIsNotStable | src/agent.rs:117-145 | a history on which the second application changes something |
| Compaction.CalibratedAdds | src/agent/runner.rs:104-106 | the rounded-up calibrated estimate is subadditive |
| Compaction.RecentStart | src/agent/runner.rs:176-189 | where the longest suffix begins whose summed calibrated estimates fit the budget |
| Compaction.FindCut | src/agent/runner.rs:176-206 | the two backward walks find that suffix and move its start back |
| Compaction.RecentFitsJointly | src/agent/runner.rs:176-189 | the recent part, if there is one, also fits the budget when estimated as a whole |
| Compaction.CutBackStops | src/agent/runner.rs:199-206 | the cut moves to the nearest user message at or before it, or the start, and stays at the end |
| Compaction.CutSplitsNoPair | src/agent/runner.rs:199-206 | the cut separates no call from its output if no user message lies between them |
| Compaction.CompactContext | src/agent/runner.rs:176-304 | every outcome: what is replaced by the summary, what is sent, and that a failure changes nothing |
| CompactionBudget.RecentBudgetIs | src/agent/runner.rs:168-173 | the recent part leaves 1024 tokens of the target; without a count of its own it gets a quarter of the window, between 4000 and 16000 |
| CompactionBudget.RecentLeavesRoom | src/agent/runner.rs:168-189 | the recent part, estimated as a whole, and those 1024 tokens fit the target |
| CompactionBudget.ShrinkingMeans | src/agent/runner.rs:140-304 | for every plan and outcome what the conversation becomes and what is told: summary and recent part, nothing, or cut to the input capacity behind a note |
| Compaction.TrimToBudget | src/session.rs:744-769 | the two front-trimming loops compute the trimmed conversation |
| Compaction.TrimFits | src/session.rs:744-769 | what is left is a suffix within the budget that begins with no orphaned output |
| Compaction.ReplacingShrinksIff | src/agent/runner.rs:607-613 | putting one item in the place of the first ones shrinks bytes and estimate exactly if it has fewer of them; four bytes fewer are enough |
| Compaction.TrimShrinksIff | src/session.rs:744-769 | trimming makes bytes and estimate smaller if and only if something went and the note has fewer bytes, or makes fewer tokens, than what went |
| Compaction.LargeTrimShrinks | src/session.rs:744-769 | it does when the note is four bytes shorter than what went |
| Compaction.CompactionShrinksIff | src/agent/runner.rs:607-613 | compaction does if and only if the summary does against the prefix it replaces |
| Compaction.CalibratedShrinks | src/agent/runner.rs:104-106 | the calibrated estimate becomes smaller only if the plain one does, and if that drops by two tokens |
| Compaction.CalibratedPaysMeans | src/agent/runner.rs:104-106 | from a factor of one up the two conditions are the same |
| Compaction.TrimCanGrow | src/agent/runner.rs:607-613 | a conversation whose estimate trimming raises |
| Compaction.CompactionCanGrow | src/agent/runner.rs:607-613 | a summary no shorter than what it replaces never makes the estimate smaller |
| Forwarding.Throttle | src/agent/runner.rs:538-572 | merges argument deltas into progress reports |
| Forwarding.Forward | src/agent/runner.rs:423-574 | what is sent, kept and remembered for each model event |
| Forwarding.StreamOnce | src/agent.rs:456-531 | how far a round gets and why it ends there; what it sent and kept is exactly what the delivered events call for, and the collector holds what they add up to |
| ForwardedWords.RoundShowsWords | src/agent/runner.rs:497-526 | joined, the text and the reasoning that a round shows are those that were delivered |
| ForwardedWords.SearchesAreBounded | src/agent/runner.rs:430-495 | a round shows at most ten search results, of at most 64 KiB together |
| ForwardedItems.RoundKeeps | src/agent/runner.rs:430-495 | a round keeps an item for every search result that it shows and for every provider item of at most 64 KiB, and nothing else |
| ForwardedItems.ReportsAreTrue | src/agent/runner.rs:538-572 | a progress report tells the argument bytes and the tool name so far, and the first delta and a name that becomes known are always reported |
| ForwardedItems.RoundPasses | src/agent/runner.rs:423-574 | every retry, started search and usage is told, in order |
| ForwardedWords.RunShowsWords | src/agent/runner.rs:307-877 | joined, the words that a run shows are those that its rounds delivered |
| RoundTheorems.RoundIsAcceptedIff | src/agent/runner.rs:417-575 | what a round sends is accepted by the checker if and only if its events were delivered in order |
| RoundTheorems.RunIsAcceptedIff | src/agent/runner.rs:365-575 | the same for any number of rounds with tool, child and compaction events between them |
| RoundTheorems.PhasedIsInOrder | src/conformance.rs:18-22 | non-empty reasoning, then text, then tool deltas is always in order |
| RoundTheorems.EmptyReasoningIsRejected | src/agent/runner.rs:497-526 | an empty reasoning delta before text makes the round's stream a violation |
| RoundTheorems.OneBarrierPerRound | src/agent/runner.rs:510-526 | a round sends one reasoning barrier if text followed reasoning, else none |
| RoundTheorems.ReportsAreBounded | src/agent/runner.rs:538-572 | progress reports number at most one per KiB of arguments, plus one, plus the deltas before the first byte |
| RoundTheorems.OnlyLastIsTerminal | src/agent/runner.rs:307-316 | nothing sent before the end of a run is a terminal event |
| ToolDispatch.CompleteTool | src/agent/tool_loop.rs:138-166 | one announced result, one output and one recorded signature, and how far each storage failure lets it get |
| ToolDispatch.DispatchCall | src/agent/runner.rs:711-855 | each verdict's events, output and log entry, and what an error leaves |
| ToolDispatch.DispatchedRan | src/agent/runner.rs:711-855 | what was executed is what the started events say |
| ToolResults.ResultIs | src/agent/runner.rs:711-856 | a call finished at once appends one output: the redacted result of the tool if it may run, else the text that says why not, for a repetition, a role, the policy's reason, the user and a child of a child each its own |
| ToolResults.DispatchTells | src/agent/runner.rs:711-856 | that is also the one result announced, and its signature is what is remembered |
| ToolRounds.HandledStep | src/agent/runner.rs:711-855 | each handled call keeps one output or one running child per call, and the log free of repetitions |
| ToolRounds.DispatchAll | src/agent/runner.rs:710-877 | if no call fails, each call of the round has exactly one output, announced in the same order, children finishing in any order; otherwise some call's storage or approval failed |
| ToolRounds.FinishChildren | src/agent/runner.rs:860-877 | every deferred child agent is answered once |
| ToolRounds.HeardStep | src/agent/runner.rs:711-856 | each handled call leaves every announced result that of one of the calls, and every running child one that was permitted |
| ToolBlocks.TrimKeepsBlocks | src/session.rs:744-769 | cutting anywhere and dropping orphaned outputs leaves every call with its outputs |
| ToolBlocks.BlocksAreReplayed | src/agent.rs:117-145 | whatever precedes it, a balanced part of the history is replayed unchanged |
| ToolBlocks.BlocksBalance | src/agent/runner.rs:701-877 | in it as many outputs as calls carry each id |
| RunLoop.ShrinkingKeepsWhole | src/agent/runner.rs:587-606 | compaction, and the trim where it fails, keep the run's own calls and outputs balanced and drop only from the front |
| RunLoop.TrimKeepsWhole | src/session.rs:744-769 | so does trimming by itself |
| RunLoop.Recover | src/agent/runner.rs:579-639 | every outcome of an overflow: what the conversation becomes, what is sent, and that a retry is granted only if the calibrated estimate became smaller |
| RunLoop.RetryIsGrantedIff | src/agent/runner.rs:579-639 | shrinking makes the calibrated estimate smaller if and only if something was replaced by an item that costs less at the calibration |
| RunLoop.ModelRound | src/agent/runner.rs:421-668 | the reply is all the text delivered, the newest reasoning, the complete calls, and behind them the calls that the remaining slots ask for with the arguments delivered for them; without it some such arguments do not parse |
| RunLoop.FinishRound | src/agent/runner.rs:668-877 | what a reply adds to the conversation, balanced, and how the pass ends; the run completes when the model made no call |
| RunLoop.RunRound | src/agent/runner.rs:365-877 | one pass of the loop: how it ends for every way its model stream can end, its log as its events tell it, and that it goes on only with a balanced conversation and retries within their limit |
| RunLoop.Run | src/agent/runner.rs:307-877 | every run, for any number of rounds: each pass, how they follow each other, all events sent, the final conversation, the tool log and the retries |
| RunTheorems.StreamIsAcceptedIff | src/agent/runner.rs:307-877 | a run's events are accepted by the checker if and only if every round delivered in order; a terminal event is only ever last |
| RunTheorems.OrderlyRunIsAccepted | src/conformance.rs:18-25 | where the provider keeps the promised order, every run is accepted |
| RunTheorems.NetworkRunIsAccepted | src/provider/openai.rs:328-552 | so it is behind the redacting provider wherever the parsed events come in order |
| RunTheorems.OneBarrierPerAnsweredRound | src/agent/runner.rs:425-429 | a run sends one barrier for each round in which text followed reasoning, and no other |
| RunTheorems.OwnPartIsReplayed | src/agent/runner.rs:365-370 | at every loop head the run's own calls and outputs balance, and the request replays its own part unchanged |
| RunTheorems.CompletedRunIsBalanced | src/agent/runner.rs:691-699 | a completed run leaves them balanced |
| RunTheorems.NothingRunsTwice | src/agent/runner.rs:711-731 | no tool but `agent_spawn`, and that only within one round, is executed twice with arguments equal up to key order |
| RunTheorems.RunIsAnnounced | src/agent/runner.rs:755-855 | whatever is executed was announced as started, after the user was asked if the policy required it |
| RunTheorems.RunsIff | src/agent/runner.rs:711-855 | a handled call is in the log of executions if and only if it was not run before, its role has the tool, and policy or user allowed it |
| RunTheorems.ResultsAreClean | src/agent/tool_loop.rs:138-166 | in a whole run no announced result holds a credential, those of child agents included, and each is appended as announced |
| RunTheorems.OutputsAreClean | src/agent/tool_loop.rs:138-166 | no output that a pass appended holds one |
| AnswerTheorems.TrimIs | src/agent/runner.rs:669 | trimming takes away white space at both ends and no more |
| AnswerTheorems.KeptReplyIs | src/agent/runner.rs:669-709 | a kept reply appends the trimmed reasoning unless blank, the text unless empty, then the calls and their outputs |
| AnswerTheorems.CompletedRunEndsInAnswer | src/agent/runner.rs:678-699 | a run that completes has the text of its last round as its last item |
| AnswerTheorems.AnswerIsRequested | src/agent/runner.rs:365-370 | the request after a round with calls ends in its text, its calls and their outputs |
| AnswerTheorems.AnswerStays | src/agent/runner.rs:365-370 | an answer stands in every later request until something is shrunk |
| AnswerTheorems.ResultsSay | src/agent/runner.rs:710-877 | in a whole run every announced result is that of a call of its round and says what the tool gave or why it was not run; repetitions are of calls answered before |
| AnswerTheorems.EveryCallIsTold | src/agent/runner.rs:710-877 | after a round that goes on, each call with an id of its own has had its result announced and appended |
| ChildAgents.StepKeeps | src/agent/child.rs:636-970 | every step of every child, cancellation included, keeps slots, lock, prompts and reports accounted for |
| ChildAgents.SlotsAreConserved | src/agent/child.rs:663-667 | in every interleaving permits and holders add up to the slots, and all come back |
| ChildAgents.OneApprovalAtATime | src/agent/child.rs:456-524 | at most one child waits for the user or runs what was approved; other prompts belong to children that are over |
| ChildAgents.PromptsAreKnown | src/agent/child.rs:456-524 | before the user are the prompts of waiting children and of those cancelled while they waited, and no others |
| ChildAgents.OnePromptIff | src/agent/child.rs:456-524 | there is at most one if and only if at most one lingers and, if one does, no child waits |
| ChildAgents.OnePromptAtATime | src/agent/child.rs:456-524 | where no child is cancelled while it waits there is at most one |
| ChildAgents.SecondPromptLingers | src/agent/child.rs:468-510 | of two prompts one is left by a child cancelled while it waited and not dismissed since |
| ChildAgents.OneTerminalReport | src/agent/child.rs:298-325 | while the channel is open each child that is over has reported exactly one terminal status, or a detached task holds its cancellation; no other has |
| ChildReports.OnlyApprovedRuns | src/agent/child.rs:488-515 | a tool that needs approval is run only if the last thing its child met was the user's approval |
| ChildReports.ReportIsTrue | src/agent/child.rs:298-325 | the status that a child reports is the one it ended with |
| ChildReports.MessagesStayInOrder | src/agent/child.rs:456-524 | while the channel is open the user receives all messages in the order in which they were sent |
| ChildAgents.CancelledPromptLingers | src/agent/child.rs:468-510 | an interleaving, the second child spawned after the first was aborted, after which two prompts are before the user |
| ParkedSessions.FindVictim | src/app/runtime.rs:388-393 | an idle session parked no later than any other idle one, or none is idle |
| ParkedSessions.App.EvictBackgroundOverflow | src/app/runtime.rs:385-401 | only idle sessions go, least recently parked first, and no more than have to |
| ParkedSessions.App.MakeRoom | src/app/runtime.rs:336-354 | room is made by stopping the least recently parked idle session; a refusal changes nothing |
| ParkedSessions.App.ActivateSession | src/app/runtime.rs:315-383 | exactly when activation is refused, that it then changes nothing, and otherwise the new active and parked sessions |
| ParkedSessions.App.Operate | src/app/runtime.rs:315-401 | over any sequence of activations, evictions and changes of work, parked sessions stay within capacity, the active one is not parked, and only idle ones were stopped |
| ParkedSessions.NoOverflowNoEviction | src/app/runtime.rs:385-387 | sessions that fit are left alone |

## Left out

- ProviderArguments.ArgumentsAreClean: says nothing of slots that redaction makes alike; the consumer would join their arguments.
- ProviderStream.StreamAttempt: the parser of the events, and whether the buffers of the tool calls are full, are parameters; the redactors of the tool calls are values in a sorted list. A receiver that closes stops it anywhere.
- Invalid UTF-8 in a frame: decoding bytes to text is a parameter.
- Saturation of 64-bit counters: no ring, buffer or estimate in the model comes near it.
- What follows an error of the decoder: nothing is claimed about its buffer then.
- Storage, HTTP, tokio, the keyring, the file system and the workspace: their calls are successes or failures given by the caller; the visible history, undo and redo are not modelled.
- Best-effort storage whose failure the code ignores (partial answers, snapshots) has no effect in the model.
- A closed event channel in the main run: the run then stops without a terminal event that anyone could see.
- The partial output sink of a child's collector, which only the cancelled child's stored message uses.
- Aborting the main run's task: a run in the model ends by itself or is still going on.
- Resuming with `previous_response_id`, which is off by default: every request is a full replay.
- The usage anchor and the compaction threshold: whether the first compaction is wanted is a parameter.
- Floating point: the calibration is a rational between one half and two, and the compaction target a number.
- The text of the compaction prompt and the bounding of old outputs in it, system prompts, tool definitions and request bodies.
- RunLoop.Run: the rounds the world will offer are given as a finite sequence, of any length, in place of a loop that may not end.
- Deserializing child arguments, choosing a child's provider and model, and its turn loop's texts: only the awaits of a child and what they hold are modelled. Children of one runner are modelled, with one semaphore; runners of other sessions share only the approval lock.
- A cancellation dropped outside any runtime cannot be sent from a detached task; the model has a runtime.
- Fairness of the semaphore and the lock: any waiter may be next.
- Deleting a session stops it whatever it is doing; the parked sessions are followed over the other operations.
- ParkedSessions.App.ActivateSession: key unlocking, modes, input and status texts are not modelled, and a built runtime is given.
- Request builders, model tables, DTOs, configuration files and the user interface would only add easy members.
