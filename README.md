# Chat client core: sample-dialogue splitting and the web stores

This project models four pieces of a character-chat application and proves
properties about them:

- **The sample-dialogue splitter** (`splitSampleChat`). A character's example
  dialogue is one block of text. The splitter reads it line by line and
  produces role-tagged turns:
  - a `<START>` line, in any letter casing, becomes a system notice turn;
  - a `Name:` line opens a turn for the user, the character or `System`;
  - any other line continues the open turn, or the preamble before the first
    turn.
  An optional budget then keeps the longest run of most recent turns whose
  summed cost fits. Modules: `Text`, `SampleChat`, `BudgetFit`, `Splitter`,
  with the test transcripts in `SampleChatExamples`.
- **The message-list store** (`web/store/message.ts`), class
  `Messages.MessageStore`. It covers edit, delete, retry, resend and send, and
  the four socket handlers.
- **The saga repository** (`web/store/data/saga.ts`), class
  `Saga.SagaStore`. It keeps templates and sessions as whole lists, each under
  its own storage key.
- **The chat store** (`web/store/chat.ts`), class `Chats.ChatStore`. It covers
  opening and creating chats, retry, and `send`, which folds a streamed reply
  into `partial` and the message list.

Things outside the model become parameters:

- What the server answers is a parameter, and what the client sends is an
  out-parameter. A streamed reply is a sequence of `StreamItem`s.
- The `<START>` notice text is a parameter, and so is the per-turn cost
  (`Turn -> nat`).
- The uuid generator is a counter: its n-th id is `Saga.Uuid(n)`.
- `now()` is a parameter.

`Lists` gives JavaScript's `slice`, `findIndex` and `filter` with their
exact semantics: negative and clamped bounds, and `slice(-0)` being the whole
array.

## Model

| member | source | states |
|---|---|---|
| SampleChat.Classify | tests/chat-model-sample-chat.spec.ts:92-107 | A marker line reads `<start>` in some casing once trimmed. A speaker line starts with its label and a colon, and the label belongs to the role. |
| SampleChat.Segment | tests/chat-model-sample-chat.spec.ts:7-90 | A transcript never yields more turns than it has lines. |
| SampleChat.SegmentText | tests/chat-model-sample-chat.spec.ts:92-104 | Any line ending separates lines. A transcript of white space alone yields no turns. |
| Text.NormalizeNewlines | tests/chat-model-sample-chat.spec.ts:92-104 | No carriage return is left, and every other character comes from the input. |
| Text.SplitAtLineEnding | tests/chat-model-sample-chat.spec.ts:92-104 | After normalising, `\r\n`, a lone `\r` and `\n` all end the first line in the same way. |
| SampleChat.ClassifySpec | tests/chat-model-sample-chat.spec.ts:92-107 | A line is a marker exactly when it reads `<start>` in some casing once trimmed. A speaker line starts with its label and a colon, and its text is what follows the colon. Labels are tried in the order `System`, user name, character name. An unlabelled line is carried as its trimmed text. |
| SampleChat.MarkerSplits | tests/chat-model-sample-chat.spec.ts:40-50 | A `<START>` line splits the transcript. The result is the turns before it, then the notice turn, then the turns after it. So every marker, including later ones, yields its own notice in order. |
| SampleChat.SpeakerSplits | tests/chat-model-sample-chat.spec.ts:18-23 | A speaker line closes whatever came before it. Consecutive speaker lines are never merged. |
| SampleChat.SplitsBeforeOpening | tests/chat-model-sample-chat.spec.ts:52-64 | Classified lines split into two independently segmented halves before any speaker line or marker. |
| SampleChat.OneKind | tests/chat-model-sample-chat.spec.ts:80-89 | A lone marker is the notice turn. A lone speaker line with text is one turn for that role and name. A lone text line is a system turn. A blank line yields nothing. |
| SampleChat.BlankBefore | tests/chat-model-sample-chat.spec.ts:66-68 | A blank line before a line that opens a turn yields nothing. |
| SampleChat.OneTurnPerLine | tests/chat-model-sample-chat.spec.ts:10-16 | When every line opens a turn or follows a marker, and each yields a turn, there is exactly one turn per line, in order. |
| SampleChat.SpeakerThenText | tests/chat-model-sample-chat.spec.ts:52-64 | A speaker line followed by a text line is one turn. Its content is the two texts joined by a line break. |
| SampleChat.PreambleIsSystemTurn | tests/chat-model-sample-chat.spec.ts:25-38 | Text with no marker and no speaker line becomes one system turn holding its trimmed text, or nothing when blank. |
| SampleChat.SpeakerTurn | tests/chat-model-sample-chat.spec.ts:52-64 | A speaker line and the unlabelled lines under it form exactly one turn for that speaker. |
| SampleChat.LabelledLine | tests/chat-model-sample-chat.spec.ts:92-107 | `Name: text`, for the user, character or `System` name, classifies as that speaker with seed `text`. |
| SampleChat.MarkerLine | tests/chat-model-sample-chat.spec.ts:10-16 | A trimmed line reading `<start>` in any casing is a marker. |
| SampleChat.UnlabelledLine | tests/chat-model-sample-chat.spec.ts:25-31 | A line that is neither a marker nor labelled continues the open buffer unchanged. |
| SampleChat.SingleSpeakerTurn | tests/chat-model-sample-chat.spec.ts:18-23 | A lone speaker line with text is one turn. |
| SampleChat.OneTurnPerSpeakerLine | tests/chat-model-sample-chat.spec.ts:18-23 | A run of speaker lines with text yields exactly one turn per line, in order. |
| SampleChat.RunConcat | tests/chat-model-sample-chat.spec.ts:40-50 | Scanning lines in two pieces is the same as scanning them whole. |
| SampleChat.MarkerSplitsKinds | tests/chat-model-sample-chat.spec.ts:40-50 | At the level of classified lines, a marker splits the sequence around the notice turn. |
| SampleChat.SegmentWellFormed | tests/chat-model-sample-chat.spec.ts:7-90 | For any transcript, every emitted turn has non-empty trimmed content, and its label belongs to its role. |
| SampleChatExamples.StartCasings | tests/chat-model-sample-chat.spec.ts:10-16 | `<STaRT>`, `<START>` and `<start>` are all markers. |
| SampleChatExamples.SamSays | tests/chat-model-sample-chat.spec.ts:92-107 | `Sam: x` is the user's line with text `x`. |
| SampleChatExamples.VaderSays | tests/chat-model-sample-chat.spec.ts:92-107 | `Vader: y` is the character's line with text `y`. |
| SampleChatExamples.SystemSays | tests/chat-model-sample-chat.spec.ts:80-89 | `System: t` is a system line with text `t`. |
| SampleChatExamples.StartThenSpeakers | tests/chat-model-sample-chat.spec.ts:10-16 | `<STaRT>`, `Sam:`, `Vader:` gives the notice, the user turn and the character turn. |
| SampleChatExamples.SpeakersWithoutStart | tests/chat-model-sample-chat.spec.ts:18-23 | Without `<START>`, the two speaker lines give one turn each. |
| SampleChatExamples.PreambleBeforeSpeakers | tests/chat-model-sample-chat.spec.ts:25-31 | Text before the first speaker line becomes a leading system turn. |
| SampleChatExamples.PreambleBeforeStart | tests/chat-model-sample-chat.spec.ts:32-37 | Text before `<START>` becomes a system turn, followed by the notice and the speaker turns. |
| SampleChatExamples.EveryStartKinds | tests/chat-model-sample-chat.spec.ts:40-50 | The classified lines of the two-marker transcript give preamble, notice, two turns, notice, two turns. |
| SampleChatExamples.EveryStartIsANotice | tests/chat-model-sample-chat.spec.ts:40-50 | Both `<START>` lines become notice turns, in transcript order. |
| SampleChatExamples.TextAfterStartKinds | tests/chat-model-sample-chat.spec.ts:52-64 | The classified lines of that transcript give the expected turn sequence. |
| SampleChatExamples.TextAfterStartIsSystem | tests/chat-model-sample-chat.spec.ts:52-64 | `test` after `<STaRT>` becomes its own system turn. The trailing unlabelled line joins the last speaker's turn. |
| SampleChatExamples.LeadingBlankKinds | tests/chat-model-sample-chat.spec.ts:66-75 | The classified lines of the budget transcript, whose first line is blank, give the expected turns. |
| SampleChatExamples.LeadingBlankLine | tests/chat-model-sample-chat.spec.ts:66-75 | The leading blank line yields no turn; the rest is one turn per line, with `test` as a system turn. |
| SampleChatExamples.TrimmedIntoBudget | tests/chat-model-sample-chat.spec.ts:66-78 | With budget 25, when the last turn fits and the long turn before it alone costs more than 25, only the last turn is kept, whole, and the 7 turns before it are dropped. |
| SampleChatExamples.ExplicitSystemKinds | tests/chat-model-sample-chat.spec.ts:80-89 | The classified lines of that transcript give the expected turns. |
| SampleChatExamples.ExplicitSystemLine | tests/chat-model-sample-chat.spec.ts:80-89 | `System: ...` becomes a separate system turn whose content is the text after the colon. |
| BudgetFit.TurnCostBounded | tests/chat-model-sample-chat.spec.ts:74-76 | No turn costs more than a run of turns that contains it. |
| BudgetFit.TotalCostAppend | tests/chat-model-sample-chat.spec.ts:66-78 | The cost of two runs of turns joined is the sum of their costs. |
| BudgetFit.SuffixCostGrows | tests/chat-model-sample-chat.spec.ts:66-78 | A longer trailing run never costs less than a shorter one. |
| BudgetFit.KeepCount | tests/chat-model-sample-chat.spec.ts:66-78 | Walking back from the newest turn, the count kept fits the budget, and one more turn would overflow it. |
| BudgetFit.KeepExactly | tests/chat-model-sample-chat.spec.ts:66-78 | A trailing run fits if and only if it starts at or after the cut. |
| BudgetFit.Fit | tests/chat-model-sample-chat.spec.ts:66-78 | No budget keeps everything. A negative budget is `InvalidArgument`, and only then is there an error. Otherwise the result is a trailing run of whole turns that fits, and the next longer run does not. |
| BudgetFit.FitExactly | tests/chat-model-sample-chat.spec.ts:66-78 | The kept suffix is the longest trailing run that fits: a suffix fits if and only if it is no longer. |
| BudgetFit.OverBudgetTurnDropped | tests/chat-model-sample-chat.spec.ts:74-76 | A turn costing more than the whole budget is dropped, together with everything before it. It is never cut. |
| BudgetFit.FitsWhole | tests/chat-model-sample-chat.spec.ts:66-78 | Turns that already fit are all kept. |
| BudgetFit.FitIdempotent | tests/chat-model-sample-chat.spec.ts:66-78 | Fitting the kept turns again keeps them all. |
| BudgetFit.FitMonotone | tests/chat-model-sample-chat.spec.ts:66-78 | A larger budget never drops more turns. |
| Splitter.SplitSampleChat | tests/chat-model-sample-chat.spec.ts:92-104 | There is an error if and only if the budget is negative. No budget gives all segmented turns. Otherwise the result is the segmented turns with the `dropped` oldest cut off, so whole turns in their order. The kept turns fit the budget, and keeping one more would overflow it. Every kept turn is well formed. |
| Splitter.SegmentJoined | tests/chat-model-sample-chat.spec.ts:92-104 | A transcript written as lines joined by line breaks is segmented line by line. |
| SampleChatExamples.SpeakersAnyLineEnding | tests/chat-model-sample-chat.spec.ts:18-23 | The two speaker lines give two turns whether they are separated by `\r\n`, a lone `\r` or `\n`. |
| Lists.Slice | web/store/message.ts:44-49 | The result has the length between the clamped bounds, or is empty when they cross. It is the contiguous run of elements starting at the clamped start. |
| Lists.SliceLast | web/store/message.ts:73 | `slice(-k)` for k > 0 is the last k elements, or all of them. |
| Lists.SliceDropLast | web/store/message.ts:45 | `slice(0, -k)` drops exactly the last k elements. |
| Lists.SliceWindow | web/store/message.ts:49 | `slice(-(w+k), -k)` is the at most w elements just before the last k. |
| Lists.SliceSplit | web/store/message.ts:83-89 | `slice(i)` and `slice(0, i)` split the list at i. |
| Lists.Recent | web/store/message.ts:73 | The window has length min(available, w) and is the elements just before the last k. |
| Lists.FirstIndex | web/store/message.ts:53-56 | The result is -1 if and only if no element has the key; otherwise it is the first position holding it. |
| Lists.WithoutKey | web/store/message.ts:110-111 | The kept elements are exactly the original elements whose key differs. |
| Lists.WithoutKeyAppend | web/store/data/saga.ts:108 | Filtering works piece by piece, so the relative order of the kept elements is preserved. |
| Lists.WithoutAbsentKey | web/store/data/saga.ts:158-171 | Removing a key no element holds leaves the list unchanged. |
| Lists.WithoutKeyIdempotent | web/store/data/saga.ts:158-171 | Removing the same key twice is removing it once. |
| Lists.Keys | web/store/message.ts:83 | The keys keep the length and order of the elements. |
| Messages.Edited | web/store/message.ts:25-27 | Same length. Only messages with the given id get the new text, and nothing else in any message changes. |
| Messages.EditedKeepsKeys | web/store/message.ts:26 | Editing never changes which messages there are, or their order. |
| Messages.EditedTwice | web/store/message.ts:20-28 | Editing the same message twice leaves the later text. |
| Messages.Regenerated | web/store/message.ts:106-113 | The regenerated reply, with its new text, is last. Every other element is an old message without the replaced id, and every such message is kept. |
| Messages.EditedLast | web/store/message.ts:106-113 | Editing a last message whose id is unique replaces its text and nothing else. |
| Messages.RetryRoundTrip | web/store/message.ts:30-51 | With distinct ids, dropping the last reply for a retry and then receiving the regenerated one gives the old list with only the last reply's text replaced. |
| Messages.RetrySlices | web/store/message.ts:44-49 | On three or more messages, the retry's slices are the last two, the twenty before them, and all but the last. |
| Messages.MessageStore.constructor | web/store/message.ts:15-18 | No active chat and no messages. |
| Messages.MessageStore.EditMessage | web/store/message.ts:20-28 | On success the list is `Edited`, otherwise it is unchanged. No other field changes. |
| Messages.MessageStore.Retry | web/store/message.ts:30-51 | Fewer than 3 messages changes nothing. An empty chat id only clears `partial`. Otherwise the last message moves to `retrying` and the rest stay. The text of the second-to-last is sent, with at most 20 earlier messages excluding the last two. |
| Messages.MessageStore.Send | web/store/message.ts:62-76 | An empty chat id clears `partial` and sends nothing. Otherwise `waiting` is the chat id and the history is the last 20 messages. The list never changes. |
| Messages.MessageStore.Resend | web/store/message.ts:52-61 | An unknown id changes nothing. Otherwise the first message with that id is sent again as a retry. |
| Messages.MessageStore.DeleteMessages | web/store/message.ts:77-90 | An unknown id sends nothing. Otherwise the ids sent are those from the index on. The list becomes the prefix before the index only if the server agrees. |
| Messages.MessageStore.OnPartial | web/store/message.ts:94-99 | Only `partial` changes, and only for the active chat. |
| Messages.MessageStore.OnRetry | web/store/message.ts:101-114 | Nothing happens unless a retry is pending for the active chat. Otherwise the list is `Regenerated` and `partial`, `retrying` and `waiting` are cleared. |
| Messages.MessageStore.OnCreated | web/store/message.ts:116-126 | A message of the active chat is appended, exactly once. `partial` and `waiting` clear only for a message without a user. |
| Messages.MessageStore.OnError | web/store/message.ts:128-131 | `partial` and `waiting` are cleared; the list is untouched. |
| Chats.StreamStep | web/store/chat.ts:113-120 | One more chunk extends the text and is shown. One more finished message is appended, and the text stays the same. |
| Chats.StreamTextAppend | web/store/chat.ts:115 | The reply text of a stream read in two parts is the two texts joined. |
| Chats.StreamMessagesAppend | web/store/chat.ts:117-120 | The messages of a stream read in two parts are the two lists joined. |
| Chats.PartialsGrow | web/store/chat.ts:113-116 | Every value `partial` shows is a prefix of the later ones and of the whole reply. The last one is the whole reply. |
| Chats.ChatStore.constructor | web/store/chat.ts:29-33 | Not responding, no messages, and the remembered chat id. |
| Chats.ChatStore.GetChat | web/store/chat.ts:35-53 | On success the store opens the returned chat with its character and messages and remembers the id. On failure nothing changes. |
| Chats.ChatStore.GetChats | web/store/chat.ts:54-68 | On success the character's chat list is loaded; otherwise nothing changes. |
| Chats.ChatStore.CreateChat | web/store/chat.ts:69-85 | On success the new chat is opened with the character of the loaded chat list, and its id is reported. On failure nothing changes. |
| Chats.ChatStore.ActiveChatId | web/store/chat.ts:98 | The id is non-empty only when a chat is open, and then it is that chat's id. |
| Chats.ChatStore.Send | web/store/chat.ts:97-123 | Without an open chat nothing is sent and `partial` ends unset. Otherwise the last 10 messages go as history, the streamed messages are appended, and `partial` shows the growing reply. At the end it is not responding and `partial` is unset. |
| Chats.ChatStore.ReadStream | web/store/chat.ts:106-121 | After the stream, `partial` is the concatenation of all chunks, in order. The finished messages are appended in order. The values shown are `Partials`. |
| Chats.ChatStore.Retry | web/store/chat.ts:87-96 | Fewer than 3 messages changes nothing. Otherwise the last two messages are dropped and the earlier of them is sent again, with history taken from the shortened list. Without an open chat `responding` is untouched; with one it ends false. |
| Saga.Uuid | web/store/data/saga.ts:119-121 | A fresh id is never empty and never `new`. |
| Saga.UuidInjective | web/store/data/saga.ts:118-122 | Different draws give different ids. |
| Saga.WithLists | web/store/data/saga.ts:96 | A missing `lists` becomes the empty map, an existing `lists` is kept, and nothing else changes. |
| Saga.Loaded | web/store/data/saga.ts:92-98 | Same length. Every template has `lists`, an existing `lists` is kept, and nothing else changes. |
| Saga.LoadedFixed | web/store/data/saga.ts:95-97 | Templates that all have `lists` read back unchanged. |
| Saga.SavedTemplateLast | web/store/data/saga.ts:101-110 | After a save, the template is last. Every other template is an old one with a different id, and every old template with a different id is kept. |
| Saga.RemoveTemplateTwice | web/store/data/saga.ts:158-164 | Removing a template a second time changes nothing. |
| Saga.UnsetCountGrows | web/store/data/saga.ts:118-122 | Each unset id before position j counts toward the draws made before j. |
| Saga.Renumber | web/store/data/saga.ts:119-121 | The id is set afterwards. An unset id becomes the given fresh id, a set id leaves the session unchanged, and only the id ever changes. |
| Saga.Renumbered | web/store/data/saga.ts:114-124 | Reading sessions keeps their number. |
| Saga.RenumberedAt | web/store/data/saga.ts:118-122 | The i-th session gets the fresh id drawn after those given to the unset ids before it. |
| Saga.RenumberedIds | web/store/data/saga.ts:114-124 | After reading, no id is empty or `new`. Sessions with an id are unchanged, and the others differ only in their id. |
| Saga.RenumberedDistinct | web/store/data/saga.ts:118-122 | The fresh ids given while reading are pairwise different. |
| Saga.RenumberedFixed | web/store/data/saga.ts:114-124 | Sessions without unset ids read back unchanged and draw nothing, so reading twice is reading once. |
| Saga.RemoveSessionTwice | web/store/data/saga.ts:166-172 | Removing a session a second time changes nothing and draws no ids. |
| Saga.SavedSessionsStable | web/store/data/saga.ts:129-139 | The list a save writes reads back unchanged and draws no ids. |
| Saga.SagaStore.constructor | web/store/data/saga.ts:70-79 | The repository starts over whatever storage holds, with no ids drawn yet. |
| Saga.SagaStore.NewId | web/store/data/saga.ts:84 | Returns the next fresh id and advances the draw count by one. |
| Saga.SagaStore.GetTemplates | web/store/data/saga.ts:92-99 | Returns `Loaded` of the stored templates, which is empty when nothing is stored. Nothing is written. |
| Saga.SagaStore.SaveTemplate | web/store/data/saga.ts:101-112 | A fresh id is drawn only for an empty id. The stored list is the read list without the original id, plus the saved copy last. The template is returned as given. |
| Saga.SagaStore.CreateTemplate | web/store/data/saga.ts:81-90 | The template always gets a fresh id and is stored last. |
| Saga.SagaStore.GetSessions | web/store/data/saga.ts:114-127 | The returned and written-back list is `Renumbered`, with one draw per unset id. |
| Saga.SagaStore.SaveSession | web/store/data/saga.ts:129-140 | The update gets a fresh id if and only if its id is empty or `new`, drawn before reading. The list is the read list without the original id, with the update pushed last. |
| Saga.SagaStore.CreateSession | web/store/data/saga.ts:142-156 | A new session is appended. It has a fresh id, format `Alpaca`, the game id, empty overrides and responses, and the given time. It comes after the read list. |
| Saga.SagaStore.RemoveTemplate | web/store/data/saga.ts:158-164 | The stored and returned list is the read list without the id. |
| Saga.SagaStore.RemoveSession | web/store/data/saga.ts:166-172 | The stored and returned list is the read list without the id. |

## Left out

- The implementation of `splitSampleChat` (`srv/adapter/chat-completion`) is not part of this model. The segmenter follows the names of the tests in `tests/chat-model-sample-chat.spec.ts`; the snapshot outputs are not part of this model either.
- Where the tests leave the segmenter's behaviour open, the model decides as follows:
  - label priority is `System`, then the user, then the character;
  - labels match case-sensitively;
  - a continuation line is joined to its turn with a line break;
  - a blank turn is dropped;
  - a negative budget is refused with `InvalidArgument`.
- `neat` (`common/util`) is not part of this model. The example lemmas take the lines already de-indented and split.
- The `{{char}}` placeholder in the 40-50 transcript is not substituted. It is ordinary preamble text.
- Token counting is the `cost` parameter, and the notice wording is the `notice` parameter.
- Network calls, toasts, `localStorage` (the `lastChatId` write in `getChat`), `storage` I/O and `JSON.parse`/`stringify` are left out. Responses are parameters; storage items are `Option<seq<...>>` fields.
- Async generators are modelled by their final state only.
  - The intermediate patches of `retry`/`send` in the message store (`partial: ''` before the request) are not observable in the model.
  - In the chat store, the sequence of `partial` values is returned as `shown`.
- Concurrency is left out: no other event interleaves with a stream, and `get()` during a stream sees only the stream's own appends.
- `Saga.Uuid`: ids are distinct from each other but not from ids already in storage. Freshness against stored ids is random in the source and is not modelled.
- Record types keep only the fields the stores read or write. `SagaResponse`'s extra fields and `SagaField`'s type-specific fields are omitted.
- `deleteChats` (`web/store/chat.ts:124`) has an empty body. `web/pages/Home/index.tsx` and `common/default-preset.ts` are presentation and constant tables.
- The second argument `'system'` that the tests pass to `splitSampleChat` (line 100) is not modelled. Its meaning is not visible in the code available.
- `Text.IsSpace` treats only space, tab, carriage return and line feed as white space. JavaScript's `trim` also removes the vertical tab, the form feed, the no-break space, U+2028 and the other Unicode spaces; lines padded with those are not trimmed in the model.
- `Messages.MessageStore.Send`: the optional `retry?: boolean` is a `bool`, so `undefined` and `false` are the same value in the request.
- `Chats.ChatStore.CreateChat`: the character is absent when no chat list is loaded. The source's non-null assertion does not hold then, and the model records `None`.
