# Sentiment chatbot memory, in Dafny

This project models the memory subsystem of a sentiment-aware chatbot, together with the pure
rules its two front ends apply to agent output. It covers:

- the short-term buffer of the five most recent chats, and the log of mood shifts detected
  between neighbouring chats;
- the summary archive of up to ten summaries, filled whenever the buffer fills. It includes the
  markdown-fence stripping applied to the model's reply, the defaults for missing fields, and the
  dominant-label fallback used when the model call fails;
- the long-term profile store written by `save_memory`: user-id validation and a right-biased
  shallow merge into a `(namespace, key text) -> profile` map, where the key text is the id's `str()`;
- the three dynamic prompts, with their placeholder choice and fixed section order;
- what the agents' memory tools write while a front end answers one message;
- the command-line front end: command dispatch, the read loop, and the extraction of the reply
  text and of the sentiment label and score from agent results;
- the chat page: its emoji and colour maps, the creation of its session context, the rule by
  which each prompt extends the displayed history, and the tool calls made while it is answered.

Every Python module-level global is a value of an immutable datatype, threaded through pure
functions. Some things are inputs rather than computations:

- The hosted model's reply is an input, `Summaries.CallOutcome = Ok(text) | Fail`.
- Which tools an agent calls, with which arguments, is the model's choice: each line of the CLI
  and each turn of the page carries the list of tool calls made while it was answered
  (`AgentTools.ToolUse`). What each call does to the stores is the tool's own code, modelled here.
- Python object identity matters in one place: a mood-shift record holds the very chat objects
  of the buffer, so a reply later written into the newest chat shows in the newest record too.
  The store carries a flag saying whether the buffer's newest chat is the newest record's second
  chat.
- `json.loads` is a function parameter returning `Parsed`.
- `json.dumps` is a record of item encoders (`PromptMiddleware.JsonCodec`). A dumped list is
  `[` + items joined by `, ` + `]` and a dumped object is wrapped in braces, so a dump is
  provably never a placeholder.
- Timestamps (`datetime.now()`) and the page's `random.randint` draw are parameters.
- The iteration order of a Python `set` is a parameter.

Building a prompt is a pure function of the three stores, so it changes none of them.
`ShortTerm.GetChats`, `ShortTerm.GetMoodShifts` and `Summaries.GetHistory` are plain reads of
the corresponding store. Only `GetChats` is used by other members (the summariser's input);
the other two are defined for completeness and carry no claim.

Modules, one file each:

- `Wrappers`: Option and Result.
- `Text`: the Python `str` operations the code uses.
- `Fifo`: the bounded append with `pop(0)` eviction, which both buffers share.
- `Models`: the records.
- `ShortTerm`, `Summaries`, `LongTerm` and `PromptMiddleware`: the memory and prompt modules.
- `AgentTools`: the stores the tools write, and the effect of one tool call and of a turn's calls.
- `AgentOutput`: the reply-text and sentiment parsers and the emoji table, which are identical in both front ends.
- `Cli` and `ChatPage`: the two front ends.

Behaviour of the code that its names, docstrings or interface text suggest otherwise:

- `get_summaries` is documented at chatapp/memory/summarymemory.py:21 as getting all summaries,
  but it returns only the OLDEST five.
- The help text at page_modules/streamlit_router.py:75 promises mood shifts on a score change
  above 0.35, but scores are never compared: shifts are detected on the exact labels `POS`/`NEG`
  only, whatever label the agent passes to the tool. The full labels
  `POSITIVE`/`NEGATIVE`/`NEUTRAL` never record one.
- `add_assistant_to_memory` is documented at chatapp/memory/shorttermmemory.py:97 as adding the
  reply to the last chat. It looks only at the newest chat, its fallback raises instead of
  adding anything, and the reply tool lets that exception escape (see Findings).
- Neither front end ever writes a long-term profile, although the agents are given
  `save_memory`: the CLI gives its agents no runtime context and the page gives a plain dict
  inside the run configuration, so `save_memory` always raises (see Findings).

## Model

| member | source | states |
|---|---|---|
| Fifo.Push | chatapp/memory/shorttermmemory.py:41-43 | Appending evicts at most the single oldest element. The result is the newest suffix of old+new, within capacity if the old list was, and it ends with the new element. |
| Fifo.PushAllWindow | chatapp/memory/summarymemory.py:16-18 | Over any run of appends starting within capacity, the list holds exactly the newest `cap` elements seen. |
| ShortTerm.InitialStore | chatapp/memory/shorttermmemory.py:23-24 | The module starts with an empty buffer of capacity 5 and the loaded log; the buffer invariant holds. |
| ShortTerm.AppendChatBuffer | chatapp/memory/shorttermmemory.py:41-43 | Appending keeps at most 5 chats and puts the new chat last. Every older chat is kept, except the oldest one when the buffer was full. |
| ShortTerm.AddChatToMemory | chatapp/memory/shorttermmemory.py:26-43 | The new chat carries the given text, score and label and no reply. A shift record is added iff the buffer was non-empty and the previous newest and new labels are POS/NEG in either order. That record is [previous newest, new], and the new chat is marked as shared with it exactly when it was added. The log only grows. |
| ShortTerm.FullLabelsNeverShift | chatapp/memory/shorttermmemory.py:32 | A chat labelled POSITIVE, NEGATIVE or NEUTRAL never records a shift. |
| ShortTerm.ScoresNeverCompared | chatapp/memory/shorttermmemory.py:32 | Whether a shift is recorded does not depend on the score. |
| ShortTerm.ShiftCount | chatapp/memory/shorttermmemory.py:30-43 | Over any run of appends, the log gains exactly one record per POS/NEG flip between consecutive labels: eviction never hides a neighbour. |
| ShortTerm.ShiftStep | chatapp/memory/shorttermmemory.py:30-43 | One append grows the log by one exactly on a flip from the previous newest label, keeps the old records, and makes the appended label the newest. |
| ShortTerm.ClearMemory | chatapp/memory/shorttermmemory.py:50-52 | The buffer becomes empty; its capacity and the mood-shift log are unchanged. |
| ShortTerm.ClearMoodShifts | chatapp/memory/shorttermmemory.py:86-91 | The log becomes empty and no chat is shared with a record any more; the buffer is unchanged and its invariant kept. |
| ShortTerm.AddToShortTermMemory | chatapp/memory/shorttermmemory.py:55-74 | After appending, a buffer of 5 or more is summarised once and emptied, and the archive is what summarising produced. Otherwise the chat is appended, the archive is untouched and the count is reported. Either way at most 4 chats remain, and every earlier record of the log is kept in place. |
| ShortTerm.AssistantIgnored | chatapp/memory/shorttermmemory.py:55-66 | The tool's `assistant` argument never affects any store or the confirmation. |
| ShortTerm.CallTool | chatapp/memory/shorttermmemory.py:66-74 | One call keeps the buffer valid and below capacity, and moves the sizes one step: the buffer grows by one, or a buffer reaching 5 is emptied and the history gains one buffer. |
| ShortTerm.RunTool | chatapp/memory/shorttermmemory.py:66-72 | Over n tool calls the buffer size is (start + n) mod 5, and the history gains (start + n) div 5 buffers. |
| ShortTerm.ToolStep | chatapp/memory/shorttermmemory.py:66-74 | One call either grows the buffer by one, or empties a buffer reaching 5 and adds one buffer to the history. |
| ShortTerm.AddAssistantToMemory | chatapp/memory/shorttermmemory.py:96-101 | It succeeds iff the newest chat is the same user's unanswered one. Then only that chat's reply changes, and when that chat object is also the newest mood-shift record's second chat, the record shows the same reply. In every other case it raises the arity error. |
| ShortTerm.AttachReply | chatapp/memory/shorttermmemory.py:98-99 | The in-place write, seen through every reference: the newest chat gets the reply, and so does the newest record's second chat when it is the same object. The other chats, the capacity and every record up to its replies are kept, and the buffer invariant holds. |
| ShortTerm.ReplyReachesShiftRecord | chatapp/memory/shorttermmemory.py:33-99 | After a POS chat and a NEG chat by "b", attaching "hi" to "b" also changes the logged record's second chat to carry "hi". |
| ShortTerm.AssistantOnEmptyBufferRaises | chatapp/memory/shorttermmemory.py:101 | On an empty buffer the fallback path raises the arity error. |
| ShortTerm.AddAssistantIntended | chatapp/memory/shorttermmemory.py:96-101 | The corrected attach never fails. The fallback appends a NEUTRAL 0.5 chat carrying the reply. Capacity is kept and no shift is ever logged. |
| ShortTerm.AddAssistantReply | chatapp/memory/shorttermmemory.py:103-114 | The tool confirms with its fixed message iff the reply attaches to the same user's unanswered newest chat, and then changes only that reply. Otherwise the helper's arity error escapes the tool and nothing is written. |
| ShortTerm.AddAssistantReplyIntended | chatapp/memory/shorttermmemory.py:103-114 | Over the corrected helper the tool always confirms. Afterwards the newest chat is the user's and carries the reply, the buffer keeps its invariant and never shrinks, and no record is added. |
| Summaries.AddSummaryEntry | chatapp/memory/summarymemory.py:9-18 | The new entry goes last, with the given text, mood and time. The oldest entry is evicted only when the archive was at or over capacity, so an archive within capacity stays within it. |
| Summaries.GetSummaries | chatapp/memory/summarymemory.py:20-22 | The result is a prefix of the archive of length min(5, n). |
| Summaries.GetSummariesMissesNewest | chatapp/memory/summarymemory.py:20-22 | With more than 5 distinct entries, the newest one is not among those read. |
| Summaries.ClearSummaries | chatapp/memory/summarymemory.py:116-123 | The archive becomes empty; its capacity and the history are kept. |
| Summaries.Unfence | chatapp/memory/summarymemory.py:66-71 | The text left after the three fence removals is a contiguous substring of its input. |
| Summaries.StripFences | chatapp/memory/summarymemory.py:64-73 | The stripped text is a contiguous substring of the model's text and has no surrounding whitespace. |
| Summaries.UnfenceJson | chatapp/memory/summarymemory.py:66-71 | Removing the fences from a json-tagged code block leaves its body between two newlines. |
| Summaries.UnfencePlain | chatapp/memory/summarymemory.py:68-71 | Removing the fences from an untagged code block leaves its body between two newlines. |
| Summaries.FencedJsonStrips | chatapp/memory/summarymemory.py:64-73 | A json-fenced trimmed body strips back to exactly that body. |
| Summaries.FencedPlainStrips | chatapp/memory/summarymemory.py:64-73 | A plain-fenced trimmed body strips back to exactly that body. |
| Summaries.UnfencedStrips | chatapp/memory/summarymemory.py:64-73 | A trimmed reply with no fence at either end is unchanged. |
| Summaries.ParseSummary | chatapp/memory/summarymemory.py:57-81 | The success path yields a pair iff all of these hold: the call succeeded, the stripped text parses to an object, and each of the two fields is absent or a string. A missing summary becomes "No summary available" and a missing mood becomes "NEUTRAL". |
| Summaries.Labels | chatapp/memory/summarymemory.py:95 | The labels are the chats' sentiment types, in order. |
| Summaries.FirstMax | chatapp/memory/summarymemory.py:96 | `max(..., key=count)` returns one of the candidates, and no candidate has a larger count. |
| Summaries.FirstMaxEarliest | chatapp/memory/summarymemory.py:96 | Ties go to the earliest: every candidate before the pick has a strictly smaller count. |
| Summaries.IterationOrderTie | chatapp/memory/summarymemory.py:96 | When `order` enumerates the label set, the pick is already the first maximal label in that order. |
| Summaries.DominantMood | chatapp/memory/summarymemory.py:95-96 | With no chats the mood is "NEUTRAL". Otherwise it is a label of maximal count; under a genuine set iteration order it is the first such label. |
| Summaries.Summarize | chatapp/memory/summarymemory.py:33-106 | The buffer is always appended to the history. A parsed reply adds an entry with eviction. Otherwise a fallback entry is appended without eviction, with the fixed text and the dominant label. The note reports the new archive size. |
| Summaries.SummarizeSize | chatapp/memory/summarymemory.py:83-104 | Each call adds one entry. It also evicts one, but only on the success path with a full archive. |
| Summaries.FallbackOverflows | chatapp/memory/summarymemory.py:104 | A failed call on a full archive leaves it one entry over capacity. |
| LongTerm.SaveMemory | chatapp/memory/longtermmemory.py:30-60 | It fails, writing nothing, iff the context or `user_id` is missing or the id is falsy. On success: the keys become the old keys plus the written ones, and written keys take the new values. Unwritten old keys survive and other entries are untouched. The reply says "updated" iff the old profile was non-empty. |
| LongTerm.OverrideSaved | chatapp/memory/longtermmemory.py:46-54 | Writing the existing profile overridden by the dict under the user's key meets every success condition of `save_memory`, for either confirmation. |
| LongTerm.StoredIsOverride | chatapp/memory/longtermmemory.py:46-54 | Both branches store the existing profile (or the empty one) overridden by the written dict. |
| LongTerm.NoneOverwrites | chatapp/memory/longtermmemory.py:44-49 | A key the agent sends as None is stored as None, overwriting the old value, while the other old keys survive. |
| LongTerm.SaveIdempotent | chatapp/memory/longtermmemory.py:48 | Writing the same dict twice gives the same store as writing it once. |
| LongTerm.SaveTwice | chatapp/memory/longtermmemory.py:46-49 | Two writes for one user compose as one override by the first dict and then by the second. |
| LongTerm.IdText | chatapp/memory/longtermmemory.py:42-54 | The key an id is filed under is its text: the string itself, "None", or the decimal digits of the integer (after a minus sign when negative), which read back to that integer. |
| LongTerm.SharedKey | chatapp/memory/longtermmemory.py:42-54 | Two ids share one profile iff their texts are equal. Distinct integers never share one; an integer and the string of its digits always do. |
| LongTerm.ZeroTextIds | chatapp/memory/longtermmemory.py:37-38 | Exactly the integer 0 and the string "0" print as "0", and of the two only the string passes the truthiness check. |
| LongTerm.DefaultKeyNeverWritten | chatapp/memory/longtermmemory.py:37-38 | A successful write whose id does not print as "0" leaves the entry of the default id 0 as it was. One whose id does print as "0" is the string "0", and it merges its dict into that very entry. |
| LongTerm.ZeroStringReachesDefault | chatapp/promptmiddleware.py:31-32 | Saving a name under the string id "0" succeeds and files it under the key the prompts read for the default id 0. |
| LongTerm.NameThenAge | chatapp/memory/longtermmemory.py:42-56 | Saving a name and then an age stores both fields. The replies are "stored new", then "updated". |
| LongTerm.SaveAllKeepsDefault | chatapp/memory/longtermmemory.py:11-13 | After any sequence of writes, none under an id printing as "0", the entry under id 0 is as it was. |
| AgentTools.Use | chatapp/agents.py:8-15 | One tool call runs that tool's code on the stores: a stored chat or reply keeps every record of the log, only `save_memory` can change the profiles, and only when it succeeds; a read, or a save, leaves the buffer and archive, and a reply that does not attach changes nothing. The invariants are kept. |
| AgentTools.UseAll | main.py:153-156 | A turn's calls run in order, keep the invariants, and never remove a record of the mood-shift log. |
| AgentTools.ProfilesUntouched | chatapp/memory/longtermmemory.py:32-33 | Without a `user_id` attribute in the runtime context, no call of a turn changes the profile store. |
| AgentTools.ReadOnlyTurn | chatapp/memory/shorttermmemory.py:76-84 | A turn whose calls only read, or only save profiles, leaves the buffer, the log and the archive unchanged. |
| PromptMiddleware.DumpList | chatapp/promptmiddleware.py:26 | A dumped list is bracketed, and an empty list dumps as "[]". |
| PromptMiddleware.DumpObject | chatapp/promptmiddleware.py:33 | A dumped profile is wrapped in braces. |
| PromptMiddleware.ShortTermBody | chatapp/promptmiddleware.py:25-26 | The section is "No recent conversations" iff the buffer is empty; otherwise it is the buffer's dump. |
| PromptMiddleware.SummaryBody | chatapp/promptmiddleware.py:28-29 | The section is "No summaries available" iff the entries read are empty; otherwise it is their dump. |
| PromptMiddleware.LongTermBody | chatapp/promptmiddleware.py:31-33 | The section is "No long-term memory" iff the profile under the class-attribute id 0 is absent or empty; otherwise it is that profile's dump. |
| PromptMiddleware.MemoryPrompt | chatapp/promptmiddleware.py:25-49 | The sections are short-term, summary and long-term, in that order. The summary section is built from the oldest five summaries only. |
| PromptMiddleware.ReplierPrompt | chatapp/promptmiddleware.py:9-51 | The rendered replier prompt has these parts in order: its instructions, the CONTEXT MEMORY banner, the three headed sections, and the closing request. |
| PromptMiddleware.SentimentPrompt | chatapp/promptmiddleware.py:53-93 | The rendered sentiment prompt has the same parts in the same order, with the sentiment agent's instructions. |
| PromptMiddleware.GlobalPrompt | chatapp/promptmiddleware.py:96-127 | The sections are summary, then short-term; there is no long-term section. The summary body dumps every archived summary and is never a placeholder. |
| PromptMiddleware.RenderThree | chatapp/promptmiddleware.py:35-49 | Each heading is rendered on its own line above its body, with blank lines between sections. |
| PromptMiddleware.RenderTwo | chatapp/promptmiddleware.py:118-125 | The same layout holds for a two-section prompt. |
| PromptMiddleware.MemoryPromptText | chatapp/promptmiddleware.py:77-91 | The memory prompt's rendered text equals the source template with the three bodies filled in. |
| PromptMiddleware.GlobalPromptText | chatapp/promptmiddleware.py:118-125 | The global prompt's rendered text equals its template with both bodies filled in. |
| PromptMiddleware.NewSummaryUnseen | chatapp/promptmiddleware.py:28 | Once 5 summaries exist, adding one that evicts nothing leaves the replier and sentiment prompts unchanged. |
| PromptMiddleware.LongTermAlwaysPlaceholder | chatapp/promptmiddleware.py:31-33 | For a store written only through `save_memory`, under ids none of which prints as "0", the prompts' long-term section is always the placeholder. |
| AgentOutput.LastDecisive | main.py:166-178 | The index found is the newest message with type 'ai' or role 'assistant'; none is found iff no such message exists. |
| AgentOutput.ExtractReplyText | main.py:163-190 | The newest-first scan with its block loop computes the reply-text rule. |
| AgentOutput.LastDecisiveSuffix | main.py:166-188 | Non-decisive messages after a prefix do not move the newest decisive one. |
| AgentOutput.NewestDecisiveWins | main.py:166-177 | The newest decisive message decides the text, whatever precedes it. |
| AgentOutput.LaterOthersIgnored | main.py:166-188 | Trailing messages that are neither 'ai' nor 'assistant' change nothing. |
| AgentOutput.OutputOnlyWithoutMessages | main.py:164-190 | 'output' is read only when 'messages' is absent; an empty message list keeps the apology. |
| AgentOutput.BlockTextsAppend | main.py:169-174 | Block texts are collected in order across a split of the list. |
| AgentOutput.ContentTextAppend | main.py:169-176 | The text of a list content is the concatenation of the texts of its parts, in order. |
| AgentOutput.DigitPrefix | main.py:201 | The digit run is the longest leading run of digits. |
| AgentOutput.MatchStart | main.py:201 | A match can only start at the key "'score':". |
| AgentOutput.NumberAfterKey | main.py:201 | A matched number has at least one integer digit; fraction digits appear only after a point. |
| AgentOutput.SplitDigits | main.py:201 | The input splits into its leading digits and the rest. |
| AgentOutput.SignReads | main.py:201 | An optional minus is read back as written. |
| AgentOutput.DigitsRead | main.py:201 | A digit run ended by a non-digit is read back as written. |
| AgentOutput.PointReads | main.py:201 | An optional point is read back as written. |
| AgentOutput.NoMatchWithoutQuote | main.py:201 | No match starts at a character other than a quote. |
| AgentOutput.FirstMatch | main.py:201 | The search returns the leftmost matching position, or nothing iff no position matches. |
| AgentOutput.Magnitude | main.py:203 | The absolute value of a matched number is non-negative. |
| AgentOutput.StringScore | main.py:201-205 | A string output's score is non-negative; it is 0.8 when nothing matches. |
| AgentOutput.DigitPrefixOf | main.py:201 | Greedy digit matching stops exactly at the first non-digit. |
| AgentOutput.SignOfToken | main.py:201 | After the key, whitespace and the sign are consumed, leaving the digits. |
| AgentOutput.TailOfToken | main.py:201 | The digits, the point and the fraction of a written number read back as written. |
| AgentOutput.NumberReadsToken | main.py:201 | The text after the key reads back exactly the number written there. |
| AgentOutput.MatchReadsToken | main.py:201-203 | "'score': <number>" followed by a delimiter matches that exact number. |
| AgentOutput.FirstMatchAfterPlainPrefix | main.py:201-203 | After a quote-free prefix, the first match is the written score. |
| AgentOutput.FirstMatchReaches | main.py:201 | If no match starts before a matching position, the search returns that position. |
| AgentOutput.ExtractSentiment | main.py:192-223 | Without a dict result holding 'output', the result is NEUTRAL/0.5, and so it is for an output that is neither a string nor a dict. A string output is POSITIVE iff it mentions POSITIVE (checked first), NEGATIVE iff it mentions only NEGATIVE, and otherwise NEUTRAL; a labelled string output takes the string's score. The score is never negative. |
| AgentOutput.DictReadsBack | main.py:214-216 | A dict output with a string label and a numeric score reads back as the upper-cased label and the score's magnitude; a missing label or score takes NEUTRAL or 0.5. |
| AgentOutput.DictRecovers | main.py:214-223 | When a dict field raises, POSITIVE in the dict's text wins with 0.8, then NEGATIVE with 0.8; otherwise the label already assigned stays, with 0.5. |
| AgentOutput.PositiveReportReadsBack | main.py:198-205 | A POSITIVE report carrying a written score reads back as POSITIVE with that score's magnitude. |
| Cli.Dispatch | main.py:303-325 | A blank line is skipped. Commands are matched on the stripped, lower-cased line. /exit and /quit end the session and /clear clears. Any other text is sent as the stripped message. |
| Cli.CommandFor | main.py:308-325 | The eight commands are matched case-insensitively; everything else is a chat. |
| Cli.DispatchIgnoresPadding | main.py:303 | Surrounding whitespace never changes what a line asks for. |
| Cli.DispatchIgnoresCase | main.py:308-321 | Two lines that are the same command up to case and padding dispatch identically. |
| Cli.Dispatched | main.py:303-325 | Each line is dispatched on its own, in order. |
| Cli.Step | main.py:146-161 | A chat message raises the message count by one and applies the agents' tool calls to the stores without a runtime context. /clear empties the buffer and keeps the log, the archive and the profiles. Every other command changes nothing. |
| Cli.ReadLength | main.py:301-310 | The loop reads up to and including the first exit, or every line when there is no exit. |
| Cli.Run | main.py:296-330 | The loop consumes the lines up to the first exit. Its state is the step-by-step replay of the commands before it: the count rises once per chat message, no record of the mood-shift log is ever removed, and no profile is written. |
| Cli.RunCommands | main.py:301-325 | The loop ends at the first exit, reporting whether it saw one. Its state is the replay of the commands read before it, each with its tool calls. |
| Cli.ReplayCounts | main.py:148 | The message count rises exactly once per chat message. |
| Cli.ReplayKeepsLog | main.py:321-325 | Neither /clear nor any tool call removes or reorders a record of the mood-shift log. |
| Cli.ReplayKeepsProfiles | main.py:153-156 | The profile store never changes: the agents get no runtime context, so every `save_memory` raises. |
| Cli.ClearThenDisplayEmpties | main.py:321-322 | After a /clear followed only by display commands, the buffer is empty. |
| Cli.NonChatIgnoresUses | main.py:310-325 | Tool calls matter only for a chat message. |
| Cli.LinesAfterExitIgnored | main.py:308-310 | Lines after an exit are never read. |
| Cli.ReadThrough | main.py:308-310 | The first exit stops the loop whatever follows. |
| Cli.SentimentColor | main.py:225-229 | The colour map is total: unknown labels are white. |
| AgentOutput.SentimentEmoji | main.py:231-235 | The emoji map is total: POSITIVE and NEGATIVE get their faces, every other label the neutral one. The page's `get_sentiment_emoji` (page_modules/chat.py:7-14) is the same table. |
| ChatPage.ColorOf | page_modules/chat.py:16-23 | The colour map is total: unknown labels get #6c757d. |
| ChatPage.PageSentiment | page_modules/chat.py:160-204 | An exception from the sentiment agent resets to NEUTRAL/0.5. Otherwise the shared extraction rule applies, and the score is non-negative. |
| ChatPage.Submit | page_modules/chat.py:151-261 | The user entry is appended first and always. The assistant entry, carrying the label and score, follows only when the reply call returned. So the history grows by 1 or 2 and keeps its old entries. |
| ChatPage.NoBadgeEver | page_modules/chat.py:141-155 | The per-message badge and caption never render. The history holds one entry per prompt plus one per returned reply. |
| ChatPage.StartSession | page_modules/chat.py:32-35 | The context is created once, with a 4-digit id spelling the draw from [1000, 9999]. Only then is the mood-shift log cleared; the buffer, the archive and the profiles are untouched, and later renders change nothing. |
| ChatPage.ShowPage | page_modules/chat.py:25-166 | As written, a render keeps the session context it started and never writes a profile, and every record the session start left in the log is kept. |
| ChatPage.Render | page_modules/chat.py:151-263 | A non-empty prompt extends the history by the submit rule and applies the turn's tool calls under the runtime context given; without one only the session start applies. |
| ChatPage.ReadOnlyRender | page_modules/chat.py:160-166 | A turn whose tool calls only read leaves every store as the session start left it. |
| ChatPage.ShiftsSurviveLaterRenders | page_modules/chat.py:32-35 | Once the context exists, a render keeps the context and every record of the mood-shift log, and with no prompt it changes no store. |
| ChatPage.PageSaveRefused | page_modules/chat.py:165 | As written, every `save_memory` call made for the page raises the missing-user-id error. |
| ChatPage.SessionIdAccepted | page_modules/chat.py:33-34 | With the runtime context evidently intended, a profile saved on the first prompt is written under the page's string id, meeting every success condition of `save_memory`, and its key is never the key of the id 0 the prompts read, since four digits never print as "0". |

## Left out

- File persistence of the mood-shift log (`load_mood_shifts`, `save_mood_shifts`, the file removal in `clear_mood_shifts`): file I/O. `ShortTerm.InitialStore` takes the loaded log as a parameter.
- The hosted-model calls, the agents' choice of tool calls, web search, and the transformers sentiment pipeline: network and foreign code. Their outcomes, and the list of tool calls made, are inputs. The agents' tool-call limit of five is not modelled, since the calls are given. `chatapp/tools/index.py`, which lists each agent's tools, is not part of this model; the tools it can name are those of `AgentTools.ToolUse`.
- `json.loads`, `json.dumps` and `model_dump`: a foreign library, represented by parameters. Python's key order in dumps and the exact JSON text are not modelled.
- The return strings of `add_to_short_term_memory` and `save_memory` are modelled as data. The tool note is the count or the summary note. The `save_memory` reply is the user and the set of keys written, not the printed list with its order.
- Float arithmetic: scores are `real`. `float()` rounding and the `:.2f` display are not modelled.
- `Text.Upper`, `Text.Lower`, `Text.IsDigit`: ASCII only. Python's Unicode case mapping and its Unicode `\d` are not modelled. Whitespace does follow `str.isspace()`.
- AgentOutput.ExtractSentiment: a boolean 'score' (which `abs` accepts) is treated like any other non-numeric value. The exception-recovery scan reads the dict's `str()`, which is a parameter of the model.
- Non-string 'text' entries of content blocks are treated as strings, because `''.join` would raise on them.
- History aliasing: `summarize_memory` appends the live buffer list to `history`, and the later in-place `clear_memory` empties that same list. The model records the buffer by value, as a snapshot. Sharing of chat objects between the buffer and the mood-shift log is modelled (`ShortTerm.AttachReply`); sharing between the log and the history is not, because no code writes into a chat after it leaves the buffer.
- `end_session`, `show_help`, `show_memory`, `show_summaries`, `show_mood_shifts` and `show_stats` only display. The reply text and sentiment `process_message` prints are the parsers' results and are not part of the loop state. `KeyboardInterrupt` and the exception handler of the loop are not modelled; an agent that raises still leaves the effects of the tool calls it made, which arrive with the line.
- The Streamlit and Rich rendering, the sidebar buttons of the chat page, `page_modules/sentiments.py`, `page_modules/streamlit_router.py`, `app.py` and `settings.py`: display and wiring.
- The langgraph store is not part of this model. Its `get` and `put` are modelled as a map keyed by the key's `str()` text (`LongTerm.IdText`), which is how that store files keys; the store's other operations are not used by the code.
- LongTerm.SaveAllKeepsDefault: promises nothing for writes under an id printing as "0". The string "0" passes the truthiness check and its text is the key of the default id 0, so such a write does change that entry (`LongTerm.ZeroStringReachesDefault`).
- PromptMiddleware.LongTermAlwaysPlaceholder: promises nothing for writes under an id printing as "0", for the same reason: after one, the prompts show that profile.
- Whether the agent runtime turns the page's configuration dict into no context at all or into a context without a `user_id` attribute is the library's business. Both make `save_memory` raise the same way; the model uses the second (`ChatPage.PageRuntime`).

## Findings

| source | as written | input that shows it | evidently intended | confidence | as-written member | corrected member |
|---|---|---|---|---|---|---|
| chatapp/memory/shorttermmemory.py:101 | the fallback calls the three-parameter `add_chat_to_memory` (line 26) with four arguments, so it raises TypeError | an empty buffer, or a newest chat from another user or already answered | append a NEUTRAL 0.5 chat that carries the reply | not executed | ShortTerm.AssistantOnEmptyBufferRaises | ShortTerm.AddAssistantIntended |
| page_modules/chat.py:165 | the session id is passed as `{'context': {"user_id": ...}}` in the run configuration, not as a runtime context with a `user_id` attribute, so `save_memory` raises on every call and no profile is ever written | any prompt on which the sentiment agent calls `save_memory` | pass the session's `Context` as the agent's runtime context, so the profile is filed under the session id | not executed | ChatPage.PageSaveRefused | ChatPage.SessionIdAccepted |
