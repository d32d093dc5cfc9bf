# A verified model of a conversational-memory backend

This project models the deterministic core of a Python chat backend that
remembers facts about its users. It has eight parts:

- **the memory agent** (`MemoryAgent`): a regular-expression cascade that
  turns a sentence into a `(slot, value)` update or a question into a
  requested slot, a fold over the conversation history that builds the slot
  map, and the recall and acknowledgement texts;
- **the slot-filling task engine** (`ActiveTaskManager`): the
  `in_progress` / `completed` / `expired` task lifecycle of a ticket booking;
- **the conversation state manager** (`ConversationStateManager`): per
  message it chooses between update, recall and chat, validates the
  extraction results, updates the loaded document in place and sanitises
  the chat output;
- **the embedding key index** (`EmbeddingIndexManager`): a normalised-key
  cache of vectors, threshold search with a descending stable sort, and
  in-place index completion;
- **the terminal command agent** (`SafetyValidator`, `ExecutionPlanner`,
  `TerminalCommandAgent`): a layered command-line validator, a keyword
  planner, an environment wrapper (ssh, docker, aws, venv, psql) and the
  agent reply;
- **the regular-expression ticket service**: an in-memory booking per
  (user, conversation), with name and email overwritten and date and time
  written once;
- **the second-generation memory document**: the default document, the
  guarded merge of extracted items, best-match recall and the summary
  string;
- **the research agent's source merge**: URL de-duplication, the top-five
  cut and the fallback entry.

Calls into language models, the embedding model, the search tools, the
clock and the file store are parameters. The model receives what they
returned: a parsed JSON value, a vector, a list of hits, an integer time,
or the loaded document.

Module layout:

- `base.dfy` (`Base`): `Option`, `Outcome` (a value or a raised exception),
  insertion-ordered dictionaries `Dict<V>` with `Get`/`Put`, the `Json`
  value type and Python truthiness.
- `text.dfy` (`Text`): `str` methods on ASCII text (`lower`, `strip`,
  `split`, `title`, `capitalize`, `join`, `in`).
- `patterns.dfy` (`Patterns`): the regular-expression shapes the core uses
  (literal alternatives followed by a rest-of-line, an up-to-suffix, a
  digit run or a `[\w\s]+` run), with `re.search` leftmost-match semantics.
- One file per core source file. The classes `TaskState`,
  `ConversationState`, `ConversationStateManager`, `EmbeddingIndexManager`
  and `TicketDesk` hold the state the source updates in place. Each loop
  of the source is a `while` loop in a method proved equal to a
  specification function.

The model follows the code in places where a reader of the backend's
docstrings and comments might expect otherwise:

- `handle_message` has no task branch, and its update branch answers with
  a fixed text rather than an acknowledgement.
- `is_expired` only examines `in_progress` tasks, so `ProcessTask`, like
  `process_task`, revives a task already marked `expired` (see Findings);
  the corrected turn `Turn` is stated beside it.
- `certificate` and `certification` are mirrored only when one of them is
  missing after the fold. Two stored values that differ stay different.
- `update_index` embeds only the keys that are not yet in the index.
- One sentence yields at most one memory update. For "My name is Parv Gaur
  and I live in Delhi." the location rule fires first and the name is not
  stored.

## Model

| member | source | states |
|---|---|---|
| MemoryAgent.CleanValue | app/agents/memory_agent.py:38 | a captured value has no space or period at either end |
| MemoryAgent.SlotName | app/agents/memory_agent.py:48 | the generic slot name contains no space |
| MemoryAgent.GenericUpdate | app/agents/memory_agent.py:46-52 | the generic "my X is Y" rule never yields problem, issue, question, request or goal |
| MemoryAgent.KindMatchShape | app/agents/memory_agent.py:35-42 | a value a category accepts is clean, and an accepted name has at most two words and contains neither "working" nor "living" |
| MemoryAgent.FirstAccepting | app/agents/memory_agent.py:34-42 | the index of the first category in table order whose patterns accept the text; every category before it rejects it |
| MemoryAgent.RuleMatchSkip | app/agents/memory_agent.py:34-41 | rejecting categories are passed over and the cascade continues |
| MemoryAgent.RuleMatchFirst | app/agents/memory_agent.py:24-42 | the first accepting category in declared order decides the update |
| MemoryAgent.RuleMatchSource | app/agents/memory_agent.py:34-42 | the cascade reports exactly the first accepting category and its value, or nothing when none accepts |
| MemoryAgent.UpdateRulesOk | app/agents/memory_agent.py:24-32 | no category of the rule table is a stop-listed slot or contains a space |
| MemoryAgent.DetectWithShape | app/agents/memory_agent.py:16-54 | for any rule table whose categories are acceptable, a detected update has an acceptable kind, a clean value and the original text |
| MemoryAgent.DetectUpdateShape | app/agents/memory_agent.py:16-54 | a detected update's kind is not stop-listed and has no space, its value is clean, and `original` is the unmodified input |
| MemoryAgent.DetectedNameAccepted | app/agents/memory_agent.py:40-41 | a reported name never has more than two words and never contains "working" or "living" |
| MemoryAgent.DetectWithOriginal | app/agents/memory_agent.py:42 | the original text has no influence on whether an update is found or on its kind and value |
| MemoryAgent.DetectUpdateIgnoresCase | app/agents/memory_agent.py:21 | lower-casing the input first changes neither the outcome nor the kind and value |
| MemoryAgent.AgeSentenceNormal | app/agents/memory_agent.py:21 | "i am D years old" with digits D is unchanged by normalisation |
| MemoryAgent.AgeDigitRun | app/agents/memory_agent.py:25 | the digit run after "i am " is exactly D |
| MemoryAgent.AgePatternMatches | app/agents/memory_agent.py:25 | the first age pattern captures D |
| MemoryAgent.KindMatchFirstPattern | app/agents/memory_agent.py:35-38 | when a non-name category's first pattern matches, its cleaned group is the value |
| MemoryAgent.DetectWithFirst | app/agents/memory_agent.py:34-42 | when the first category accepts, the update is that category's |
| MemoryAgent.AgeKindAccepts | app/agents/memory_agent.py:25 | the age category accepts "i am D years old" with value D |
| MemoryAgent.AgeBeforeName | app/agents/memory_agent.py:24-42 | "i am D years old" yields the age update D and never a name |
| MemoryAgent.KeywordSlot | app/agents/memory_agent.py:76-86 | a slot the keyword table reports is one of the table's slots |
| MemoryAgent.FuzzySlotName | app/agents/memory_agent.py:119-120 | the fuzzy-recall slot contains no space |
| MemoryAgent.RecallBeforeFuzzy | app/agents/memory_agent.py:61-111 | a slot found before the fuzzy pattern contains no space |
| MemoryAgent.RecallSlotHasNoSpace | app/agents/memory_agent.py:56-123 | every requested slot contains no space |
| MemoryAgent.LiteralPhrasesFirst | app/agents/memory_agent.py:63-73 | an identity phrase yields "name", then an age phrase "age", then a location phrase "location", ahead of the keyword table and every generic pattern |
| MemoryAgent.RecallAsWrittenAgrees | app/agents/memory_agent.py:113-121 | the detector as written agrees with the model whenever it returns, and raises exactly when only the fuzzy pattern matches and its group holds no word |
| MemoryAgent.FuzzyOutcome | app/agents/memory_agent.py:113-121 | when only the fuzzy pattern matches, the as-written detector raises on a group without a word and otherwise returns the fuzzy slot name |
| MemoryAgent.RecallCrashExample | app/agents/memory_agent.py:116 | "know  ." makes the as-written detector raise `IndexError`; the model returns the slot "" |
| MemoryAgent.CollectSlots | app/agents/memory_agent.py:130-137 | the loop leaves the fold of the history in `slots` |
| MemoryAgent.ExtractSlotsFromMessages | app/agents/memory_agent.py:125-145 | the result is the fold followed by the certificate mirroring |
| MemoryAgent.FoldSnoc | app/agents/memory_agent.py:131-137 | one more message changes the slot map by exactly one loop step |
| MemoryAgent.OnlyUserMessagesCount | app/agents/memory_agent.py:132 | a message whose role is not "user" changes nothing |
| MemoryAgent.LastWriteWins | app/agents/memory_agent.py:133-137 | a user message with an update stores its value under its normalised key and changes no other key |
| MemoryAgent.MirrorBothOrNeither | app/agents/memory_agent.py:140-143 | afterwards `certificate` and `certification` are both present or both absent |
| MemoryAgent.FoldUniqueKeys | app/agents/memory_agent.py:130-145 | the slot map never holds a key twice |
| MemoryAgent.FirstOverlap | app/agents/memory_agent.py:157-161 | the fuzzy lookup returns an entry of the map whose key contains or is contained in the lookup key, and none only when no key overlaps |
| MemoryAgent.NoOverlapFound | app/agents/memory_agent.py:157-161 | with no overlapping key the fuzzy lookup finds nothing |
| MemoryAgent.Answer | app/agents/memory_agent.py:166-182 | every answer template is a non-empty sentence starting "Y" |
| MemoryAgent.GenerateRecallResponse | app/agents/memory_agent.py:147-182 | the method returns the recall reply for the slot and the map |
| MemoryAgent.RecallNeverFabricates | app/agents/memory_agent.py:152-164 | the reply is "I don't have that information yet." exactly when no non-empty value resolves; otherwise it answers with a value that is in the map |
| MemoryAgent.NoOverlapNoInfo | app/agents/memory_agent.py:152-164 | with no value under the exact key and no overlapping key the reply is the fixed no-information text |
| MemoryAgent.ExactHit | app/agents/memory_agent.py:152-155 | a non-empty value under the exact lookup key is the one answered |
| MemoryAgent.AcknowledgementQuotesValue | app/agents/memory_agent.py:184-198 | the acknowledgement shows the value (capitalised or title-cased as the kind requires) |
| MemoryAgent.AcknowledgementOther | app/agents/memory_agent.py:198 | for a kind other than name, age and location the reply is "I've noted that your ", the kind with underscores read as spaces, " is ", the value and "." |
| TaskManager.MergeSlots | app/services/task_manager.py:43-45 | the loop leaves the merged slot dictionary |
| TaskManager.MissingIff | app/services/task_manager.py:49 | a slot is missing exactly when it is required and its value is absent or falsy |
| TaskManager.MissingHead | app/services/task_manager.py:49 | the first missing slot is the first unfilled slot in declared order |
| TaskManager.MergeKeepsFilled | app/services/task_manager.py:43-45 | merging never empties a filled slot |
| TaskManager.MergeSource | app/services/task_manager.py:43-45 | after the merge each slot holds its old value or a truthy value the extractor returned for it |
| TaskManager.MissingShrinks | app/services/task_manager.py:43-49 | a slot missing after the merge was missing before |
| TaskManager.NothingMissingStays | app/services/task_manager.py:43-58 | with nothing missing, nothing is missing after any merge |
| TaskManager.UnknownSlotQuestion | app/services/task_manager.py:103 | a slot without a canned question gets "Please provide the {slot}.", which names the slot |
| TaskManager.SummaryQuotesRoute | app/services/task_manager.py:107 | the ticket summary contains the stored origin and destination |
| TaskManager.ExpiredTurn | app/services/task_manager.py:25-33 | when `is_expired` holds, the turn only sets the status to `expired` and returns the expiry message with `is_complete` False and `expired` True, whatever the extractor returned |
| TaskManager.LiveTurn | app/services/task_manager.py:35-70 | when `is_expired` does not hold (a task marked `expired` included) and the extractor returned an object, the turn stamps `last_active`; it completes exactly when nothing is missing after the merge, and otherwise sets `in_progress` and asks for the first missing slot |
| TaskManager.NonObjectRaises | app/services/task_manager.py:35-45 | when the extractor returned anything but an object, the turn raises after stamping `last_active`, with nothing else changed |
| TaskManager.CompletedStaysCompleted | app/services/task_manager.py:43-58 | a completed task with every slot filled stays completed on every later turn |
| TaskManager.ExpiredIsFinal | app/services/task_manager.py:25-33 | with the corrected check, a turn on a task marked expired changes nothing and reports expiry |
| TaskManager.TurnAgrees | app/services/task_manager.py:25-33 | the corrected turn and the turn as written agree on every task not marked expired |
| TaskManager.ExpiredTaskResumes | app/services/task_manager.py:131-132 | with the check as written, an expired task with missing slots returns to `in_progress` and is asked for its first missing slot |
| TaskManager.ExpiryMonotone | app/services/task_manager.py:127-141 | a task that `is_expired` rejects is still rejected at any later time |
| TaskManager.FreshNotExpired | app/services/task_manager.py:127-141 | a task whose `last_active` is `now` has not expired at `now` |
| TaskManager.TaskState.ProcessTask | app/services/task_manager.py:19-70 | the record after the call and the result (or the raised error) are those of one turn with the expiry check as written |
| TaskManager.EmptySlots | app/services/task_manager.py:114 | the initial state has the required slots in order, each `None` |
| TaskManager.EmptySlotsUnfilled | app/services/task_manager.py:114 | no slot of the initial state is filled |
| TaskManager.InitializeTask | app/services/task_manager.py:110-125 | a new task is the initial record after exactly one turn on the triggering text; its message, or the turn's error, is returned |
| TaskManager.FirstTurn | app/services/task_manager.py:110-125 | the first turn of a new task never reports expiry; a booking with nothing extracted asks for the ticket type first |
| StateManager.CanonicalKeyFacts | app/services/state_manager.py:18-22 | a key outside the table is kept, a key in it is renamed to a key outside it, and renaming twice is renaming once |
| StateManager.Payload | app/services/state_manager.py:290-298 | the text handed to the JSON parser never contains a fence, and is the stripped content when there was none |
| StateManager.ItemUpdatesSound | app/services/state_manager.py:131-143 | each update comes from an item of its category with a non-blank string value; the value is stripped and the key canonical |
| StateManager.ItemUpdatesComplete | app/services/state_manager.py:131-143 | every item with a non-blank string value yields its update |
| StateManager.CategoryUpdatesSound | app/services/state_manager.py:128-143 | every update belongs to one of the scanned categories and comes from its object |
| StateManager.CategoryUpdatesComplete | app/services/state_manager.py:128-143 | every eligible item of a scanned category object yields its update |
| StateManager.ExtractedSound | app/services/state_manager.py:121-145 | updates come only from the identity, preferences and facts objects of a JSON object reply |
| StateManager.ExtractedComplete | app/services/state_manager.py:121-145 | every eligible item of those three objects is extracted |
| StateManager.SetDefaultLoop | app/services/state_manager.py:85-86 | the `setdefault` loop leaves the sections with the defaults applied |
| StateManager.SetDefaultsKeeps | app/services/state_manager.py:85-86 | an existing section keeps its value |
| StateManager.SetDefaultsAdds | app/services/state_manager.py:85-86 | only the listed categories are added |
| StateManager.SetDefaultsFills | app/services/state_manager.py:85-86 | every listed category is present, and empty when it was missing |
| StateManager.LoadedComplete | app/services/state_manager.py:81-89 | a loaded state always has the three categories and an embedding index |
| StateManager.LoadedKeeps | app/services/state_manager.py:81-89 | loading keeps every existing section, an existing index and every other member |
| StateManager.LoadedDefault | app/services/state_manager.py:81-89 | a missing category loads empty, and other missing keys stay missing |
| StateManager.ConversationState.SetDefaults | app/services/state_manager.py:85-88 | the in-place defaults give the loaded document |
| StateManager.StoreReads | app/services/state_manager.py:161 | after a write, the written key of the written category holds the value |
| StateManager.StoreKeeps | app/services/state_manager.py:161 | a write changes no other entry of any category |
| StateManager.AppliedStored | app/services/state_manager.py:154-166 | the sections after the updates are those of the category writes alone |
| StateManager.StoredLastWins | app/services/state_manager.py:156-161 | the last update for a (category, key) decides its value |
| StateManager.StoredUntouched | app/services/state_manager.py:156-161 | entries no update names are unchanged |
| StateManager.AppliedLastWins | app/services/state_manager.py:154-166 | after the updates each updated key holds its last value |
| StateManager.AppliedUntouched | app/services/state_manager.py:154-166 | no other category entry changes |
| StateManager.AppliedIndexed | app/services/state_manager.py:163-166 | every updated key is in the embedding index afterwards |
| StateManager.AppliedKeepsVectors | app/services/state_manager.py:163-166 | vectors already in the index are kept |
| StateManager.AppliedKeepsCategories | app/services/state_manager.py:154-161 | the updates add no top-level section |
| StateManager.UpdateWithGet | app/services/state_manager.py:175 | `dict.update`: a key of the new mapping takes its value, any other key keeps the old one |
| StateManager.UpdateWithNonEmpty | app/services/state_manager.py:175 | an update result is empty exactly when both mappings are |
| StateManager.MergedValue | app/services/state_manager.py:173-175 | in the merged memory, facts override preferences, which override identity |
| StateManager.MergedEmpty | app/services/state_manager.py:173-178 | the merged memory is empty exactly when all three categories are |
| StateManager.Gate | app/services/state_manager.py:211-222 | an accepted recall answer is non-empty and stripped |
| StateManager.GateIff | app/services/state_manager.py:211-222 | an answer is accepted exactly when the reply is relevant, its confidence is at least 0.6 and its stripped answer is that non-empty text |
| StateManager.SemanticRecall | app/services/state_manager.py:171-226 | a recall answer needs non-empty stored memory, and is non-empty and stripped |
| StateManager.RecallIff | app/services/state_manager.py:171-226 | recall answers exactly when memory is non-empty, the model call returned and the parsed reply is accepted |
| StateManager.FirstUsable | app/services/state_manager.py:280-283 | a usable field value is stripped and longer than five characters |
| StateManager.FirstUsableIs | app/services/state_manager.py:280-283 | the first usable field in priority order is the one returned |
| StateManager.FirstUsableNone | app/services/state_manager.py:280-285 | with no usable field nothing is found |
| StateManager.Sanitized | app/services/state_manager.py:270-285 | the chat output is one of the three fixed fallbacks or a stripped text longer than five characters |
| StateManager.SanitizedFirst | app/services/state_manager.py:275-283 | the first usable of answer, final_recommendation and executive_summary is returned, stripped |
| StateManager.SanitizedNone | app/services/state_manager.py:275-285 | with no usable field the answer is "No answer generated." |
| StateManager.GeneralChat | app/services/state_manager.py:254-265 | the chat answer is never empty, also when the graph raises |
| StateManager.BuildResponse | app/services/state_manager.py:309-322 | the response echoes the question in both places and carries the action and answer, no sources and mode "chat" |
| StateManager.HandleBranches | app/services/state_manager.py:38-76 | the action is memory_update when updates were extracted, else memory_recall when recall answers, else general_chat; only the update branch persists, stamping `last_updated` |
| StateManager.PersistedUpdates | app/services/state_manager.py:46-58 | the persisted document stores each update's last value and indexes its key |
| StateManager.ConversationStateManager.LoadState | app/services/state_manager.py:81-89 | the loaded state is the stored document with its defaults |
| StateManager.ConversationStateManager.ExtractMemory | app/services/state_manager.py:101-149 | the nested loops collect exactly the validated updates |
| StateManager.ConversationStateManager.ItemsOf | app/services/state_manager.py:131-143 | the inner loop collects a category's validated updates |
| StateManager.ConversationStateManager.ApplyMemoryUpdates | app/services/state_manager.py:154-166 | the sections, the index and the embedding cache afterwards are those of applying the updates in order |
| StateManager.ConversationStateManager.PersistState | app/services/state_manager.py:94-96 | only `last_updated` changes, and the saved document is the state |
| StateManager.ConversationStateManager.HandleMessage | app/services/state_manager.py:38-76 | the response, the persisted document and the cache are those of handling the message |
| Embeddings.LowerStrip | app/services/embedding_manager.py:39 | lower-casing and stripping commute |
| Embeddings.CacheKeyNormalises | app/services/embedding_manager.py:39 | texts differing in case or surrounding whitespace share a cache key |
| Embeddings.CacheNeverEvicts | app/services/embedding_manager.py:40-44 | a lookup keeps every cached entry and leaves the returned vector under the text's key |
| Embeddings.SecondLookupHits | app/services/embedding_manager.py:37-46 | a second lookup of an equivalent text hits the cache, returns the same vector and changes nothing |
| Embeddings.DotSymmetric | app/services/embedding_manager.py:49 | the dot product is symmetric |
| Embeddings.CosineSymmetric | app/services/embedding_manager.py:48-54 | the similarity is symmetric |
| Embeddings.ZeroVectorScoresZero | app/services/embedding_manager.py:52-53 | a zero vector scores 0.0 against any vector, on either side |
| Embeddings.ScoredSound | app/services/embedding_manager.py:68-71 | every match is an index key with its score, at or above the threshold |
| Embeddings.ScoredComplete | app/services/embedding_manager.py:68-71 | every index key scoring at or above the threshold is a match |
| Embeddings.Insert | app/services/embedding_manager.py:73 | insertion adds exactly one element |
| Embeddings.InsertSorted | app/services/embedding_manager.py:73 | insertion into a descending list keeps it descending |
| Embeddings.SortDesc | app/services/embedding_manager.py:73 | the sort is a permutation |
| Embeddings.SortDescSorted | app/services/embedding_manager.py:73 | the sort's result is in non-increasing score order |
| Embeddings.SearchSpec | app/services/embedding_manager.py:56-73 | the ranking is sorted and holds exactly the index keys at or above the threshold, each with its score |
| Embeddings.IndexAfterHasKeys | app/services/embedding_manager.py:79-81 | every requested key is in the index afterwards |
| Embeddings.IndexAfterKeeps | app/services/embedding_manager.py:79-81 | keys already present keep their vectors |
| Embeddings.IndexAfterIdempotent | app/services/embedding_manager.py:75-82 | a second completion with the same keys changes neither the index nor the cache |
| Embeddings.AllPresentUnchanged | app/services/embedding_manager.py:79-82 | completing with keys already present changes nothing |
| Embeddings.EmbeddingIndexManager.GetEmbedding | app/services/embedding_manager.py:37-46 | returns the cached or fresh vector; the embedder is called exactly on a miss |
| Embeddings.EmbeddingIndexManager.Search | app/services/embedding_manager.py:56-73 | returns the ranking, after one cache lookup of the query |
| Embeddings.EmbeddingIndexManager.UpdateIndex | app/services/embedding_manager.py:75-82 | the loop leaves the completed index and cache |
| Terminal.ContextOf | app/agents/terminal_agent.py:21-117 | the context properties take their documented defaults when the keys are absent |
| Terminal.MetaFromIff | app/agents/terminal_agent.py:149 | the meta scan finds a blocked character exactly when one occurs |
| Terminal.BlacklistFromIff | app/agents/terminal_agent.py:153-155 | the pattern scan fires exactly when a blacklisted pattern matches at some position |
| Terminal.AllAllowedIff | app/agents/terminal_agent.py:162-171 | the token loop passes exactly when no token has ".." or lies under a restricted path |
| Terminal.StripHasMeta | app/agents/terminal_agent.py:146-149 | stripping neither adds nor removes a blocked character |
| Terminal.StripNoWord | app/agents/terminal_agent.py:146-160 | a command is blank exactly when its stripped form is |
| Terminal.IsSafeIff | app/agents/terminal_agent.py:141-182 | `is_safe` holds exactly when all five layers accept |
| Terminal.BlankUnsafe | app/agents/terminal_agent.py:143-160 | an empty or whitespace-only command is unsafe |
| Terminal.MetaUnsafe | app/agents/terminal_agent.py:149-150 | a command with a blocked meta-character is unsafe |
| Terminal.TokenUnsafe | app/agents/terminal_agent.py:162-171 | a token with ".." or under a restricted path makes the command unsafe |
| Terminal.SafeAllowlisted | app/agents/terminal_agent.py:174-182 | a safe command starts with an allowlisted word, and a safe `cp` has no -r or -R |
| Terminal.NotAllowlistedUnsafe | app/agents/terminal_agent.py:174-176 | a command whose first word is not allowlisted is unsafe |
| Terminal.ForkBombHasMeta | app/agents/terminal_agent.py:134-150 | any text the fork-bomb pattern matches already holds a blocked character |
| Terminal.ExtractSubject | app/agents/terminal_agent.py:390-392 | an extracted subject is a non-empty run of word, dot and dash characters |
| Terminal.ExtractRawPath | app/agents/terminal_agent.py:394-396 | the raw path is a non-empty word without spaces, and absent exactly when the query without its final punctuation is blank |
| Terminal.SearchTerm | app/agents/terminal_agent.py:276-277 | the search term never spans a line break |
| Terminal.DjangoCommand | app/agents/terminal_agent.py:240-247 | a Django request always yields a command |
| Terminal.FileCommand | app/agents/terminal_agent.py:254-281 | a file request always yields a command |
| Terminal.PythonCommand | app/agents/terminal_agent.py:284-289 | a Python request always yields a command |
| Terminal.RunIsNotClarify | app/agents/terminal_agent.py:291-296 | a "run:" command never reads as the clarification marker |
| Terminal.ClarifyIff | app/agents/terminal_agent.py:236-298 | the base command is the clarification marker exactly when no rule recognises the request |
| Terminal.ConfidenceRange | app/agents/terminal_agent.py:363-388 | the confidence is between 0.65 and 0.95 |
| Terminal.CalculateConfidence | app/agents/terminal_agent.py:363-388 | the accumulated and clamped confidence lies in [0, 1] |
| Terminal.Plan | app/agents/terminal_agent.py:200-234 | returns the planner's result for the query |
| Terminal.RequestNoUpper | app/agents/terminal_agent.py:204 | the normalised query has no upper-case letter |
| Terminal.CodeKeywordWins | app/agents/terminal_agent.py:207-215 | a code keyword gives CODE_REQUEST with confidence 1.0 |
| Terminal.UnrecognisedClarifies | app/agents/terminal_agent.py:217-225 | without a code keyword, NEEDS_CLARIFICATION with confidence 0.0 comes exactly when nothing is recognised |
| Terminal.ExecuteConfidence | app/agents/terminal_agent.py:227-234 | an EXECUTE plan has a real command and a confidence between 0.65 and 0.95 |
| Terminal.WrapForEnvironment | app/agents/terminal_agent.py:300-361 | the step-by-step wrapping gives the wrapped command |
| Terminal.RestrictedRefuses | app/agents/terminal_agent.py:308-312 | under the restricted policy a privileged word gives SECURITY_REFUSED |
| Terminal.RemoteForm | app/agents/terminal_agent.py:317-326 | remote wrapping is the ssh line, with `-p` only when the port is not 22 |
| Terminal.SshUnsafe | app/agents/terminal_agent.py:317-326 | an ssh-wrapped command is unsafe |
| Terminal.AwsUnsafe | app/agents/terminal_agent.py:334-341 | an aws-wrapped command is unsafe |
| Terminal.ActivatedUnsafe | app/agents/terminal_agent.py:344-350 | a venv-activated command is unsafe |
| Terminal.DockerUnsafe | app/agents/terminal_agent.py:328-332 | a docker-wrapped command is unsafe |
| Terminal.WrappingUnsafe | app/agents/terminal_agent.py:300-361 | any remote, docker, cloud or venv wrapping that is not refused is unsafe |
| Terminal.ExplainedProgram | app/agents/terminal_agent.py:495-497 | the explanation lookup raises exactly on a blank command, and otherwise uses its first word |
| Terminal.Query | app/agents/terminal_agent.py:411-493 | returns the agent's reply for the query |
| Terminal.ChainingRejected | app/agents/terminal_agent.py:423-429 | a query with a chaining character is answered unsafe with `echo "Invalid request"` before planning |
| Terminal.RespondSafe | app/agents/terminal_agent.py:468-485 | a safe reply comes from an EXECUTE plan whose wrapped command passes the validator, and is that command stripped |
| Terminal.SafeOnlyIfValid | app/agents/terminal_agent.py:431-485 | the agent answers "safe" only when `is_safe` holds for the final command |
| Terminal.SafeExplained | app/agents/terminal_agent.py:482-497 | a safe command always has an explanation |
| Terminal.RespondNoInternalError | app/agents/terminal_agent.py:431-485 | the reply after planning is never the internal-error reply |
| Terminal.NoInternalError | app/agents/terminal_agent.py:421-493 | no query reaches the exception handler |
| Terminal.WrappedNeverSafe | app/agents/terminal_agent.py:457-485 | in a remote, docker, cloud or venv context no query is answered "safe" |
| Tickets.KeyCollision | app/services/ticket_agent_service.py:27-28 | two different (user, conversation) pairs share a key |
| Tickets.KeyOfInjective | app/services/ticket_agent_service.py:27-28 | the corrected key separates every pair |
| Tickets.NameFoundIff | app/services/ticket_agent_service.py:31-33 | a name is found exactly when the lowered text contains "name is " |
| Tickets.NameIsRestOfLine | app/services/ticket_agent_service.py:31-33 | the name is the rest of the line after the first "name is ", title-cased |
| Tickets.EmailAt | app/services/ticket_agent_service.py:37 | a match at a position ends past it |
| Tickets.EmailFrom | app/services/ticket_agent_service.py:37 | the search reports a match that starts at or after the position |
| Tickets.ExtractEmail | app/services/ticket_agent_service.py:36-38 | an extracted email is a run of word, dot and dash characters around an "@" |
| Tickets.EmailShape | app/services/ticket_agent_service.py:37 | each match has that shape |
| Tickets.EmailFromReaches | app/services/ticket_agent_service.py:37 | a match at a later position means the search finds one |
| Tickets.EmailFromNone | app/services/ticket_agent_service.py:37 | when the search fails, no later position matches |
| Tickets.EmailFoundAt | app/services/ticket_agent_service.py:36-38 | an "@" with an email character on each side means an email is found |
| Tickets.EmailFoundHasAt | app/services/ticket_agent_service.py:36-38 | a found email means such an "@" exists |
| Tickets.EmailFoundIff | app/services/ticket_agent_service.py:36-38 | an email is found exactly when such an "@" occurs |
| Tickets.DigitsEnd | app/services/ticket_agent_service.py:42 | `\d{1,2}` takes one or two digits |
| Tickets.DateAt | app/services/ticket_agent_service.py:42 | a date starts exactly at a digit |
| Tickets.DateFrom | app/services/ticket_agent_service.py:42 | the search reports the leftmost digit, and none exactly when no digit follows |
| Tickets.ExtractDate | app/services/ticket_agent_service.py:41-43 | a date is found exactly when the text has a digit, and starts with one |
| Tickets.TimeAt | app/services/ticket_agent_service.py:47 | a time match ends in "am" or "pm" |
| Tickets.TimeFrom | app/services/ticket_agent_service.py:47 | the search reports the leftmost time match, and none only when no position matches |
| Tickets.TimeSpan | app/services/ticket_agent_service.py:47 | the text of a time match starts with a digit and ends in am or pm |
| Tickets.ExtractTime | app/services/ticket_agent_service.py:46-48 | a time starts with a digit and ends with am or pm, and is absent exactly when no position matches |
| Tickets.Merge | app/services/ticket_agent_service.py:74-89 | a found name or email overwrites; date and time are written only when empty; confirmed holds exactly when it held before or all four are set |
| Tickets.Absorb | app/services/ticket_agent_service.py:74-89 | the four in-place field writes give the merged booking |
| Tickets.TurnKeepsFilled | app/services/ticket_agent_service.py:74-89 | a filled field stays filled |
| Tickets.TurnConfirmedIff | app/services/ticket_agent_service.py:74-107 | after a turn the booking is confirmed exactly when all four fields are set |
| Tickets.FirstDate | app/services/ticket_agent_service.py:83-85 | the first date of a conversation, absent exactly when no message has one |
| Tickets.LastName | app/services/ticket_agent_service.py:75-77 | the last name of a conversation, absent exactly when no message has one |
| Tickets.TurnsSnoc | app/services/ticket_agent_service.py:55-117 | a conversation is turn after turn |
| Tickets.DateWriteOnce | app/services/ticket_agent_service.py:83-85 | over a conversation the date is the stored one, or else the first one extracted |
| Tickets.TimeWriteOnce | app/services/ticket_agent_service.py:87-89 | a stored time never changes |
| Tickets.NameLastWins | app/services/ticket_agent_service.py:75-77 | over a conversation the name is the last one extracted |
| Tickets.TurnsConsistent | app/services/ticket_agent_service.py:94-107 | confirmation stays equivalent to the four fields being set |
| Tickets.AnswerFor | app/services/ticket_agent_service.py:94-117 | the reply asks for name, email, date and time in that order, and confirms exactly when all are set, quoting them |
| Tickets.ConfirmationIffConfirmed | app/services/ticket_agent_service.py:94-117 | the confirmation text is sent exactly when the booking is confirmed |
| Tickets.TicketDesk.constructor | app/services/ticket_agent_service.py:12 | the store starts empty |
| Tickets.TicketDesk.HandleTicket | app/services/ticket_agent_service.py:55-117 | only the request's own booking changes, starting from an empty booking, and the reply is that booking's answer |
| MemoryV2.Empties | app/services/memory_v2_service.py:30-35 | the empty categories in order |
| MemoryV2.DefaultKeys | app/services/memory_v2_service.py:30-37 | the default document has the five categories then the summary, and nothing else |
| MemoryV2.DefaultCategories | app/services/memory_v2_service.py:30-35 | every default category is an empty object |
| MemoryV2.DefaultSummary | app/services/memory_v2_service.py:36 | the default summary is "" |
| MemoryV2.GetEmpties | app/services/memory_v2_service.py:30-37 | a default category reads as an empty object |
| MemoryV2.ExtractionPayload | app/services/memory_v2_service.py:66-70 | a fenced reply loses its fences, and any other reply is only stripped |
| MemoryV2.MergeItem | app/services/memory_v2_service.py:76-80 | an item that may not be written leaves the document unchanged; no item adds a top-level key |
| MemoryV2.MergeItemWrites | app/services/memory_v2_service.py:79-80 | a written item is found under its type and key, and every other member is unchanged |
| MemoryV2.MergeKeepsKeys | app/services/memory_v2_service.py:75-80 | the merge keeps the document's top-level keys |
| MemoryV2.MergeNothingWritable | app/services/memory_v2_service.py:75-80 | with no writable item the document is unchanged |
| MemoryV2.StructuredUpdateKeepsKeys | app/services/memory_v2_service.py:63-82 | the saved document has the loaded document's keys |
| MemoryV2.ExtractStructuredMemory | app/services/memory_v2_service.py:47-84 | saves the merged document exactly when the reply is a list and the merge completes |
| MemoryV2.EntriesRaise | app/services/memory_v2_service.py:98-99 | a category that raises ends the scan |
| MemoryV2.EntriesEmpty | app/services/memory_v2_service.py:98-99 | with all categories empty there is nothing to scan |
| MemoryV2.Scan | app/services/memory_v2_service.py:103-105 | without a match the best score stays -1.0, and a match's score clears the threshold |
| MemoryV2.ScanBest | app/services/memory_v2_service.py:94-107 | nothing is found exactly when no key's score is above the threshold; otherwise the value of the earliest key with the highest such score |
| MemoryV2.ScanNoneIff | app/services/memory_v2_service.py:94-105 | the scan finds nothing exactly when no key scores above both the threshold and -1.0 |
| MemoryV2.ScanChosen | app/services/memory_v2_service.py:94-105 | a successful scan holds the earliest entry of highest score, and that score |
| MemoryV2.RecallDefault | app/services/memory_v2_service.py:91-107 | recall on a missing document finds nothing |
| MemoryV2.ScanItems | app/services/memory_v2_service.py:99-105 | the inner loop extends the scan by one category's items |
| MemoryV2.ScanCategories | app/services/memory_v2_service.py:98-107 | the nested loops give the recall result |
| MemoryV2.RecallMemory | app/services/memory_v2_service.py:86-107 | returns the recall result |
| MemoryV2.Pairs | app/services/memory_v2_service.py:122 | one `k=v` per item |
| MemoryV2.Part | app/services/memory_v2_service.py:122 | a part is the capitalised category followed by ":" |
| MemoryV2.Parts | app/services/memory_v2_service.py:119-123 | every part contains ":" |
| MemoryV2.CollectParts | app/services/memory_v2_service.py:119-123 | the loop gives the parts |
| MemoryV2.PartsStep | app/services/memory_v2_service.py:119-123 | one more category adds its part exactly when its items are truthy |
| MemoryV2.NoCategorySnoc | app/services/memory_v2_service.py:119-121 | no category has items exactly when no earlier one has and the last has none |
| MemoryV2.PartsEmpty | app/services/memory_v2_service.py:119-123 | there are no parts exactly when no category has items |
| MemoryV2.PartsRaise | app/services/memory_v2_service.py:119-123 | a category that raises ends the summary |
| MemoryV2.PartsNone | app/services/memory_v2_service.py:119-123 | with no category items there are no parts |
| MemoryV2.PartsFirst | app/services/memory_v2_service.py:119-123 | the first category's part comes first |
| MemoryV2.JoinedParts | app/services/memory_v2_service.py:125-128 | the joined text is "No memory stored." only when there is no part and no summary |
| MemoryV2.SummaryEmptyIff | app/services/memory_v2_service.py:116-128 | the summary is "No memory stored." exactly when all categories and the summary are empty |
| MemoryV2.SummaryLast | app/services/memory_v2_service.py:125-126 | a stored summary ends the text as "Summary: ..." |
| MemoryV2.SummaryIdentityFirst | app/services/memory_v2_service.py:116-128 | the identity part starts the text |
| MemoryV2.SummaryOfNothing | app/services/memory_v2_service.py:125-128 | an empty document summarises as "No memory stored." |
| MemoryV2.GetMemorySummary | app/services/memory_v2_service.py:116-128 | returns the summary of the loaded document |
| MemoryV2.UpdateConversationSummary | app/services/memory_v2_service.py:130-133 | saves the loaded document with the new summary |
| MemoryV2.UpdateOnlySummary | app/services/memory_v2_service.py:132 | only `conversation_summary` changes, and it is appended when absent |
| MemoryV2.UpdatedSummaryShown | app/services/memory_v2_service.py:125-133 | a non-empty new summary ends the next summary text |
| Research.OrDefault | app/agents/research_agent.py:38 | `get(key, default)` on a string field |
| Research.WikiEntry | app/agents/research_agent.py:35-41 | the Wikipedia entry exists exactly when the summary and the URL are non-empty, and carries the summary |
| Research.WebSource | app/agents/research_agent.py:46-51 | a web entry has kind web, the hit's URL and a content |
| Research.Values | app/agents/research_agent.py:54 | the values in insertion order |
| Research.Top | app/agents/research_agent.py:54 | at most five sources, a prefix of the list, and the whole list when it is shorter |
| Research.MergeSources | app/agents/research_agent.py:33-67 | the loop and the fallback give the final sources, and the synthesis text of the merged sources |
| Research.StepWellKeyed | app/agents/research_agent.py:43-51 | one step keeps every entry under its own URL and extends the dictionary |
| Research.CollectWellKeyed | app/agents/research_agent.py:43-51 | the loop keeps every entry under its own URL |
| Research.CollectExtends | app/agents/research_agent.py:43-51 | the loop only appends |
| Research.CollectAppend | app/agents/research_agent.py:43-51 | the loop over two lists is the loop over each in turn |
| Research.UnlinkedDropped | app/agents/research_agent.py:44-45 | a hit without a URL is dropped |
| Research.DuplicateDropped | app/agents/research_agent.py:44-45 | a hit with a URL already present is dropped |
| Research.FirstWith | app/agents/research_agent.py:43-45 | the first hit with a given URL |
| Research.FirstWins | app/agents/research_agent.py:33-51 | a URL's entry is the existing one, or else the first hit with that URL |
| Research.MergedUrls | app/agents/research_agent.py:33-54 | merged URLs are non-empty and pairwise distinct |
| Research.WikiFirst | app/agents/research_agent.py:35-54 | the Wikipedia entry, when present, is the first source |
| Research.CollectKinds | app/agents/research_agent.py:43-51 | every entry the loop adds is a web entry |
| Research.MergedKinds | app/agents/research_agent.py:43-54 | every source after the Wikipedia entry is a web source |
| Research.FallbackIff | app/agents/research_agent.py:54-67 | one to five sources; exactly the fallback when nothing merged; the merged list otherwise |
| Research.WebLines | app/agents/research_agent.py:58 | at most one line per source |
| Research.WebLinesAppend | app/agents/research_agent.py:58 | the lines of a concatenation are the concatenated lines |
| Research.WebLinesOnlyWeb | app/agents/research_agent.py:58 | a Wikipedia source contributes no line and a web source its own |

## Left out

- LLM calls (the extraction, recall, slot-extraction and chat prompts) are parameters whose results the model receives already parsed; `json.loads` is a `loads` parameter.
- The task manager's `_extract_slots`, including its fence stripping and its `{}` on failure, is the `extracted` parameter of a turn.
- The embedding model and the file-backed embedding cache (`_load_cache`, `_save_cache`) are left out; `embed` is a function parameter and `requests` records the embedder calls.
- Cosine similarity uses real arithmetic with `sqrt` as a parameter. Floating-point rounding is not modelled.
- The memory store, the file paths, atomic saving and the lock are left out; operations take the loaded document and return the one they save.
- Timestamps are integers (seconds) or an opaque `now` string passed in; `uuid4` is a `taskId` parameter.
- Logging, the FastAPI router, the request models and the `print` of the ticket endpoint are left out.
- `handle_message` builds an `ActiveTaskManager` it never uses; the model has no task branch.
- The orchestration graph of the chat branch is the parameter `chat`, an outcome that `GeneralChat` sanitises.
- Case mapping, `\w`, `\d` and `title` follow ASCII. Python applies them to all of Unicode; `isspace` is written out.
- Terminal.ContextOf: context values are strings, and the port is asked for separately; a value of another type in the context dictionary is not modelled.
- Terminal: `platform.system()` is the parameter `system`; `os.getcwd()` and the `cwd` and `shell` properties are not read by the modelled operations.
- Terminal: the fork-bomb blacklist entry can never be what rejects a command, because the meta-character check rejects all such text first (Terminal.ForkBombHasMeta).
- MemoryV2.MergeItem: a truthy key that is a number or a Boolean is treated as raising. Python would store the value under that key, which a JSON object with string keys cannot hold.
- MemoryV2.MergeItem: a target category that is a list is treated as raising. Python would assign into the list for an integer key.
- MemoryV2: the stored document is assumed to be a JSON object.
- MemoryV2.Scan: the best score starts at -1.0, so with a threshold below -1.0 a score must also exceed -1.0 to match; the model keeps that condition.
- StateManager: a stored category that is not an object is not modelled; a loaded category is an object after `setdefault`.
- Research: a hit or page field is either absent or a string. A JSON `null` value is not modelled.
- Research: `wikipedia_search` and `duckduckgo_search` are parameters; the LLM synthesis after line 67 and its prompt are left out.
- Research: the fallback entry has no "content" key. That key is never read, because the synthesis text is built before the fallback is added.
- Tickets: the booking store is the `bookings` map of class `TicketDesk`, keyed by the (user, conversation) pair rather than the joined string (see Findings).
- Tickets.ExtractName: `title` follows ASCII word boundaries.
- TaskManager: `memory_task_expiry_minutes` is the constant 30, its configured default.
- Base.Str: a float, list or object value is rendered as the fixed text "<value>". Python's `str()` would print it, e.g. `22.5` or `['a', 'b']`; float and container formatting is not modelled.
- SummaryQuotesRoute: the summary it quotes from, TaskManager.CompletionSummary, shows a float, list or object slot as "<value>" (see Base.Str).
- Pairs: a float, list or object value is rendered as "<value>" rather than its Python `str()` (see Base.Str).
- GetMemorySummary: a stored float, list or object value appears as "<value>" rather than its Python `str()` (see Base.Str).

## Findings

| source | as written | input that shows it | evidently intended | confidence | as-written member | corrected member |
|---|---|---|---|---|---|---|
| app/agents/memory_agent.py:116 | the fuzzy recall takes `group(1).split()[0]` before line 119 recomputes the slot | "know  ." normalises to "know  ", whose group is " ", so `split()[0]` raises `IndexError` | the line-116 value is overwritten anyway, so the detector should return the slot from line 119 ("" here) | not executed | MemoryAgent.RecallCrashExample | MemoryAgent.RecallAsWrittenAgrees |
| app/services/task_manager.py:131-132 | `is_expired` is False for every status other than `in_progress`, including `expired` | a task with status `expired` and slots still missing: the next `process_task` merges the extraction and sets status back to `in_progress` | a task marked expired stays expired | not executed | TaskManager.ExpiredTaskResumes | TaskManager.ExpiredIsFinal |
| app/services/ticket_agent_service.py:27-28 | the booking key joins user and conversation with ":" | user "a:b" in conversation "c" and user "a" in conversation "b:c" both get the key "a:b:c", so they share one booking | each (user, conversation) pair has its own booking | not executed | Tickets.KeyCollision | Tickets.KeyOfInjective |
