# A verified model of the chat front end's core

This project models the logic of a browser chat client for large language
models in Dafny:

- **The virtual list** (`src/hooks/useVirtualList.ts`). It keeps a table of
  position records (index, height, top, bottom) for a list of items whose
  heights are measured only after rendering. It finds the first visible item
  by binary search, scans forward to the last one, widens the window by an
  overscan, and re-chains the table in place when one item is measured. It
  also tracks whether the view is pinned to the bottom.
- **The message handler** (`src/utils/message.ts`). It builds message
  records and delivers a complete reply with one callback. It also paces a
  streamed reply: every `data: ` record is parsed, its content and reasoning
  are queued one character at a time, and each animation frame moves one
  character per channel into the accumulated text and notifies the caller.
  When the stream ends, one final notification is sent.
- **The chat store** (`src/stores/chats/chats.ts`). Chats live in a map
  keyed by id, with a newest-first order list, an active chat and a loading
  flag. The store creates, selects, retitles and deletes chats, appends and
  overwrites messages, and sends a message. It is persisted as the list of
  the map's entries.
- **The settings store** (`src/stores/setting/setting.ts`): defaults plus a
  partial-record merge.
- **The id generator** (`src/utils/addId.ts`): `<prefix>-<counter>`.
- **The mock conversation generator** (`src/utils/generateMockMessage.ts`).

Code that updates state step by step is modelled as classes with
`modifies` clauses: the stores, the virtual list, the stream session and
the id generator. Their methods are proved against specification functions
on values. Properties that span several calls are lemmas about those
functions. Browser events, the clock, randomness, `JSON.parse` and the
network become parameters. A streamed response is an explicit schedule of
events: a chunk was read, an animation frame fired, or the read failed.

Files:

- `wrappers.dfy`: `Option`.
- `decimal.dfy`: `${n}` for naturals.
- `id_gen.dfy`
- `virtual_list.dfy`
- `stream_lines.dfy`: the text handling of one chunk.
- `chat_types.dfy`
- `message_handler.dfy`
- `chat_store.dfy`
- `settings.dfy`
- `mock_messages.dfy`

## Model

| member | source | states |
|---|---|---|
| Decimal.NatToString | src/utils/addId.ts:11 | `${n}` of a natural is a non-empty digit string with no leading zero |
| Decimal.ParseNatToString | src/utils/addId.ts:11 | reading the printed digits back gives the number |
| Decimal.NatToStringInjective | src/utils/addId.ts:11 | two naturals print the same exactly when they are equal |
| IdGen.IssuedIds | src/utils/addId.ts:9-12 | after `count` calls the ids handed out are `<prefix>-0` … `<prefix>-(count-1)`, in order |
| IdGen.IdStringInjective | src/utils/addId.ts:11 | an id determines both its prefix and its counter value (both directions) |
| IdGen.IssuedIdsDistinct | src/utils/addId.ts:10-12 | the ids produced in one session are pairwise distinct |
| IdGen.NextIdFresh | src/utils/addId.ts:10-12 | the next id differs from every id produced before it |
| IdGen.IdGenerator.constructor | src/utils/addId.ts:4-7 | the prefix is fixed and in [0, 9999]; the counter starts at 0; nothing has been issued |
| IdGen.IdGenerator.Next | src/utils/addId.ts:9-13 | the id is `<prefix>-<counter before>`; the counter grows by exactly one; the id is fresh and is recorded as issued |
| VirtualList.Heights | src/hooks/useVirtualList.ts:19-24 | the heights column of a position table, one per record |
| VirtualList.Layout | src/hooks/useVirtualList.ts:75-88 | the table folded from a list of heights has one record per height |
| VirtualList.LayoutSnoc | src/hooks/useVirtualList.ts:78-85 | one more height appends one record, `gap` below the previous bottom (at 0 when first) |
| VirtualList.LayoutChained | src/hooks/useVirtualList.ts:75-88 | a layout satisfies the chain invariant and carries exactly the given heights |
| VirtualList.ChainedIsLayout | src/hooks/useVirtualList.ts:137-140 | a table satisfying the chain invariant is exactly the layout of its own heights |
| VirtualList.LayoutPrefix | src/hooks/useVirtualList.ts:137-140 | laying out a prefix of the heights gives the prefix of the table |
| VirtualList.SumUpdate | src/hooks/useVirtualList.ts:134-135 | changing one height changes the sum by the difference |
| VirtualList.BottomIsPrefixSum | src/hooks/useVirtualList.ts:78-85 | in a chained table, record k's bottom is the sum of heights 0..k plus k gaps |
| VirtualList.TotalHeightIsSum | src/hooks/useVirtualList.ts:35-38 | the total height is 0 for an empty table, else all heights plus one gap between each pair of neighbours |
| VirtualList.ReflowTotalHeight | src/hooks/useVirtualList.ts:130-140 | re-laying out with one height changed moves the total height by the height difference |
| VirtualList.ReflowDone | src/hooks/useVirtualList.ts:137-140 | a chained table with the old heights and one replaced is their layout, keeps the earlier records, and its bottom moved by the difference |
| VirtualList.ChainedSnoc | src/hooks/useVirtualList.ts:138-139 | one more record placed `gap` below its predecessor extends the chain invariant |
| VirtualList.ReflowFirst | src/hooks/useVirtualList.ts:134-135 | the measured record with its new height and bottom keeps the chain up to itself |
| VirtualList.Reflow | src/hooks/useVirtualList.ts:134-140 | the re-chaining loop yields the chained layout of the updated heights; records before the index are unchanged; the total height moves by the difference |
| VirtualList.Uniform | src/hooks/useVirtualList.ts:79 | every item starts at the estimated height |
| VirtualList.UniformTop | src/hooks/useVirtualList.ts:75-88 | before any measurement item i spans [i·(h+gap), i·(h+gap)+h] |
| VirtualList.BinarySearch | src/hooks/useVirtualList.ts:90-106 | the result is in [0, n]; it is 0 when every bottom lies above scrollTop; on strictly increasing bottoms that reach scrollTop it splits the table into records with bottom ≤ scrollTop and records with bottom > scrollTop (an exact hit advances past the item) |
| VirtualList.ChainedIncreasing | src/hooks/useVirtualList.ts:134-140 | a chained table with positive heights and a non-negative gap has strictly increasing bottoms |
| VirtualList.LayoutIncreasing | src/hooks/useVirtualList.ts:75-88 | the table laid out from positive heights, as initPositions and the re-chaining loop of updatePosition build it, has strictly increasing bottoms |
| VirtualList.UniformIncreasing | src/hooks/useVirtualList.ts:75-88 | the uniform table of initPositions with a positive item height has strictly increasing bottoms, so its start is exact |
| VirtualList.StartMonotone | src/hooks/useVirtualList.ts:90-106 | with strictly increasing bottoms, scrolling further down never moves the start up |
| VirtualList.ExactBoundaryStart | src/hooks/useVirtualList.ts:97 | on bottoms 50/100/150 with scrollTop 50 the start is record 1 |
| VirtualList.WindowInBounds | src/hooks/useVirtualList.ts:118-119 | with at least one record and overscan ≥ 1, the widened window is 0 ≤ start ≤ end ≤ n-1 |
| VirtualList.PinnedScrollDown | src/hooks/useVirtualList.ts:125 | the view is pinned iff at most 100 pixels of content lie below the viewport, and a pinned view stays pinned when scrolled further down |
| VirtualList.SliceBound | src/hooks/useVirtualList.ts:42 | a `slice` bound: a negative one counts from the end and stops at 0, a non-negative one stops at len |
| VirtualList.JsSlice | src/hooks/useVirtualList.ts:42 | `slice(from, to)` is `xs[from..to]` for in-range bounds, and a contiguous run starting at `from` otherwise |
| VirtualList.VirtualList.constructor | src/hooks/useVirtualList.ts:26-33 | overscan and gap fall back to 5 and 0 when absent or 0; the table is empty, the window is [0, 0], and the view is pinned |
| VirtualList.VirtualList.WrapperHeight | src/hooks/useVirtualList.ts:35-38 | the spacer height is all heights plus the gaps between items (0 when empty) |
| VirtualList.VirtualList.VisibleData | src/hooks/useVirtualList.ts:40-46 | nothing for an empty table; each slot pairs item `startIndex + k` with that index; a window inside the data yields exactly end-start+1 slots |
| VirtualList.VirtualList.ItemTop | src/hooks/useVirtualList.ts:54-65 | an index with a record gets a top (0 for the first, else previous bottom + gap); any other index gets none |
| VirtualList.VirtualList.InitPositions | src/hooks/useVirtualList.ts:75-88 | the table becomes the uniform layout, one record per item; the window is untouched |
| VirtualList.VirtualList.CalculateRange | src/hooks/useVirtualList.ts:108-120 | no-op without a container or records; otherwise the start satisfies BinarySearch's contract, end is the first record at/after start whose top reaches the viewport's bottom edge, and the window is both widened and clamped |
| VirtualList.VirtualList.Mount | src/hooks/useVirtualList.ts:147-159 | with an element: bind it, lay out uniformly, and (for a non-empty list) set the window to the start and end that calculateRange finds for the element's metrics, widened by the overscan; without one, nothing |
| VirtualList.VirtualList.OnScroll | src/hooks/useVirtualList.ts:122-128 | with a container: record the metrics, set pinned iff scrollTop+clientHeight ≥ scrollHeight-100, and set the window to the widened start and end for the new metrics (kept for an empty table); without one, nothing |
| VirtualList.VirtualList.UpdatePosition | src/hooks/useVirtualList.ts:130-144 | no-op for a missing record or an unchanged height; otherwise the table is the re-chained layout, earlier records are unchanged, the total height moves by the difference, and a bottom scroll is requested iff pinned |
| VirtualList.VirtualList.SetData | src/hooks/useVirtualList.ts:166-175 | a new length rebuilds the uniform table (measurements are lost) and, with a container and a non-empty list, sets the window to the widened start and end for the last recorded metrics; a bottom scroll is requested iff the list grew; the same length changes nothing |
| StreamLines.Split | src/utils/message.ts:233 | `split('\n')` yields at least one piece, none containing the separator |
| StreamLines.JoinSplit | src/utils/message.ts:233 | joining the pieces gives the chunk back |
| StreamLines.SplitJoin | src/utils/message.ts:233 | splitting joined separator-free pieces gives them back |
| StreamLines.SplitPrefix | src/utils/message.ts:233 | a separator-free prefix extends the first piece |
| StreamLines.SplitNoSeparator | src/utils/message.ts:233 | a chunk without '\n' is one line |
| StreamLines.TrimStart | src/utils/message.ts:233 | drops exactly the leading ECMAScript whitespace |
| StreamLines.TrimEnd | src/utils/message.ts:233 | drops exactly the trailing ECMAScript whitespace |
| StreamLines.TrimEmptyIffBlank | src/utils/message.ts:233 | `line.trim() === ''` holds exactly for all-whitespace lines |
| StreamLines.KeepNonBlank | src/utils/message.ts:233 | the filter never grows the list and keeps no blank line |
| StreamLines.KeepNonBlankMember | src/utils/message.ts:233 | a line survives iff it occurs in the input and is not blank |
| StreamLines.KeepNonBlankAppend | src/utils/message.ts:233 | the filter preserves order: it distributes over concatenation |
| StreamLines.Classify | src/utils/message.ts:236-238 | `data: [DONE]` is skipped; a line starting `data: ` carries the rest as payload; anything else is ignored (each an iff) |
| StreamLines.ClassifyRecord | src/utils/message.ts:236-238 | a line written `data: <json>` reads back as that payload |
| MessageHandler.FormatMessage | src/utils/message.ts:10-17 | the message has the given role, content and reasoning, the clock reading as id, and no token count |
| MessageHandler.HandleUnstreamResponse | src/utils/message.ts:19-25 | exactly one notification with the first choice's content and reasoning and the completion token count; none (a throw) when there is no choice |
| MessageHandler.AllTicksSnoc | src/utils/message.ts:188-221 | a well-formed tick appended to a log of ticks keeps it a log of ticks |
| MessageHandler.InitialConsistent | src/utils/message.ts:180-186 | the initial session (empty strings and queues, keys 0, no frame) is consistent |
| MessageHandler.OnFrameConsistent | src/utils/message.ts:188-221 | a frame keeps the session consistent: a tick with key n is the n-th notification and shows the previous text plus at most one character per channel |
| MessageHandler.AfterLinesConsistent | src/utils/message.ts:235-250 | ingesting lines keeps the session consistent |
| MessageHandler.DriveConsistent | src/utils/message.ts:227-251 | any schedule of reads and frames keeps the session consistent |
| MessageHandler.StreamNotifications | src/utils/message.ts:188-257 | a stream's log is non-empty; all but the last entry are ticks marked not final; the last entry is the only final one, has no chunks, and repeats the last tick's content and reasoning |
| MessageHandler.TextAppend | src/utils/message.ts:243-246 | the text of the deltas distributes over concatenation |
| MessageHandler.OnFrameConserves | src/utils/message.ts:196-203 | a frame moves characters from the queues to the text without loss or reordering |
| MessageHandler.AfterLinesConserves | src/utils/message.ts:235-250 | ingesting lines appends exactly the decoded deltas' characters to text+queue, and throws exactly when a record fails to parse |
| MessageHandler.DriveConserves | src/utils/message.ts:227-251 | over any schedule, accumulated text plus queue is everything decoded, in order |
| MessageHandler.StreamConservation | src/utils/message.ts:252-257 | the final notification shows exactly what was received minus the characters still queued |
| MessageHandler.OneRecordChunk | src/utils/message.ts:233-238 | the chunk `data: X` is one line carrying payload `X` |
| MessageHandler.FinalDoesNotFlush | src/utils/message.ts:252-257 | "Hi" received with one frame shows "H", and the final notification still shows "H" |
| MessageHandler.StreamSession.constructor | src/utils/message.ts:180-186 | the closure variables start as the initial session |
| MessageHandler.StreamSession.EnsureRendering | src/utils/message.ts:223-225 | a frame is requested; nothing else changes |
| MessageHandler.StreamSession.Push | src/utils/message.ts:242-247 | the delta's characters are queued per channel (empty ones skipped) and a frame is requested |
| MessageHandler.StreamSession.Render | src/utils/message.ts:188-221 | one tick: at most one character per channel moves to the text, both keys grow by one, one notification is sent, and another frame is requested; with empty queues the frame request lapses instead |
| MessageHandler.StreamSession.IngestLine | src/utils/message.ts:235-250 | one line as AfterLine: the marker and ignored lines change nothing; a record is parsed and queued, or throws |
| MessageHandler.StreamSession.IngestChunk | src/utils/message.ts:232-250 | the chunk's non-blank lines are ingested in order, stopping at the first throw |
| MessageHandler.StreamSession.Finish | src/utils/message.ts:252-257 | the pending frame is cancelled and one final notification with the current text is sent |
| MessageHandler.HandleStreamResponse | src/utils/message.ts:175-257 | the notifications and the throw flag are those of the stream function over the same schedule |
| MessageHandler.HandleResponseNotifies | src/utils/message.ts:259-265 | a streamed body ends with exactly one final notification, whether or not it threw; a reply with a choice gives exactly one notification; a body of the wrong kind throws and sends nothing |
| ChatStore.IndexOf | src/stores/chats/chats.ts:65-66 | `findIndex`: -1 iff absent, otherwise the first position holding the id |
| ChatStore.Lookup | src/stores/chats/chats.ts:28-30 | the chats named by the order, position for position |
| ChatStore.RemoveAtMembers | src/stores/chats/chats.ts:69 | `splice` removes exactly that id and introduces no duplicate |
| ChatStore.ReselectNeighbour | src/stores/chats/chats.ts:71-74 | deleting the active chat activates its predecessor, or the new first chat when it was first, or nothing when it was the last chat; never the deleted id |
| ChatStore.ActiveChatOf | src/stores/chats/chats.ts:25-27 | a chat exactly when the active id is non-empty and in the map, and then that chat |
| ChatStore.AppendToActive | src/stores/chats/chats.ts:81-86 | messages are appended to the active chat only; other chats and ids and titles are unchanged |
| ChatStore.OverwriteLast | src/stores/chats/chats.ts:95-106 | only the active chat's last message changes: content, reasoning and tokens are replaced, while id, role and the earlier messages stay; no-op without a last message |
| ChatStore.Retitle | src/stores/chats/chats.ts:58-63 | only that chat's title changes; an unknown id changes nothing |
| ChatStore.TitleStep | src/stores/chats/chats.ts:139-144 | runs only for a 'new chat' with exactly two messages; throws iff the request failed or returned no choice; otherwise the title becomes TitleOf the reply; messages never change |
| ChatStore.TitleOf | src/stores/chats/chats.ts:141 | the first choice's content when it is non-empty, otherwise 'new chat' (also for an empty reply); never empty |
| ChatStore.WithPlaceholders | src/stores/chats/chats.ts:114-115 | the active chat gains the user message and then an empty assistant message; no active chat means no change |
| ChatStore.ApplyNotificationsShape | src/stores/chats/chats.ts:110-112 | the callback changes only the active chat's last message, keeping its id and role |
| ChatStore.ApplyNotificationsLast | src/stores/chats/chats.ts:110-112 | after the callbacks the last message shows the last notification's content, tokens and reasoning |
| ChatStore.ApplyNotificationsUnchanged | src/stores/chats/chats.ts:100-101 | without an active chat the callbacks change nothing |
| ChatStore.SettleShape | src/stores/chats/chats.ts:121-147 | after the reply: same chat id and message count, earlier messages kept, last message's id and role kept, title kept unless the title step ran |
| ChatStore.SettleFailure | src/stores/chats/chats.ts:145-147 | a reply that throws leaves the failure text with no tokens or reasoning, and the title unchanged |
| ChatStore.SettleSuccess | src/stores/chats/chats.ts:121-144 | with no throw the last message shows the last notification |
| ChatStore.KeptPrefix | src/stores/chats/chats.ts:114-115 | agreeing with `a + [x, y]` up to the last element means starting with `a` then `x` |
| ChatStore.SendAppendsTwo | src/stores/chats/chats.ts:114-115 | sending appends exactly two messages after the existing ones (the user's with the text, then the assistant's); other chats are untouched |
| ChatStore.SendFailureShown | src/stores/chats/chats.ts:145-147 | a failed request or a throwing reply ends with the assistant message showing the failure text, and the title unchanged |
| ChatStore.SendTitleFailureShown | src/stores/chats/chats.ts:139-147 | a failed title request on a new chat also leaves the failure text, and the title stays 'new chat' |
| ChatStore.SendShowsReply | src/stores/chats/chats.ts:110-144 | when nothing throws, the assistant message shows the last notification's content, tokens and reasoning |
| ChatStore.SendSetsTitle | src/stores/chats/chats.ts:139-143 | on a 'new chat' without messages, when neither request throws, the chat ends with TitleOf the title reply |
| ChatStore.SendTitleOnlyForNewChats | src/stores/chats/chats.ts:139-144 | the title changes only for a 'new chat' that had no messages |
| ChatStore.SendWithoutActiveChat | src/stores/chats/chats.ts:81-86 | with no active chat, sending changes no chat |
| ChatStore.EnumerationFront | src/stores/chats/chats.ts:192 | dropping the last entry enumerates the map without that key |
| ChatStore.EnumerationSnoc | src/stores/chats/chats.ts:186 | listing one more unlisted entry enumerates the extended map |
| ChatStore.FromEnumeration | src/stores/chats/chats.ts:190-194 | `new Map(entries)` over any listing of a map's entries rebuilds that map |
| ChatStore.Store.constructor | src/stores/chats/chats.ts:17-20 | empty map and order, no active chat, not loading; the invariant holds |
| ChatStore.Store.ActiveChat | src/stores/chats/chats.ts:25-27 | the active chat iff the active id is truthy and known |
| ChatStore.Store.OrderedChats | src/stores/chats/chats.ts:28-30 | one chat per ordered id, in order |
| ChatStore.Store.CurrentMessages | src/stores/chats/chats.ts:32-37 | the active chat's messages, or none |
| ChatStore.Store.GetChatById | src/stores/chats/chats.ts:55-57 | the chat iff the id is a key |
| ChatStore.Store.GetLastMessage | src/stores/chats/chats.ts:88-93 | the last current message iff there is one |
| ChatStore.Store.AddChat | src/stores/chats/chats.ts:39-49 | a fresh id is put first in the order, maps to an empty 'new chat', and becomes active; the invariant holds |
| ChatStore.Store.SelectChat | src/stores/chats/chats.ts:51-53 | any id becomes active; the active id is listed iff the id is |
| ChatStore.Store.UpdateChatTitle | src/stores/chats/chats.ts:58-63 | the map becomes Retitle of the old map |
| ChatStore.Store.DeleteChat | src/stores/chats/chats.ts:64-75 | an unlisted id changes nothing; otherwise the id leaves the map and the order, and an active deleted chat hands over to the reselected neighbour; the invariant and a listed active id are preserved |
| ChatStore.Store.ToggleLoading | src/stores/chats/chats.ts:77-79 | the flag takes the value |
| ChatStore.Store.AddMessage | src/stores/chats/chats.ts:81-86 | the map becomes AppendToActive of one message |
| ChatStore.Store.AddMockMessages | src/stores/chats/chats.ts:153-157 | the map becomes AppendToActive of the messages |
| ChatStore.Store.UpdateLastMessage | src/stores/chats/chats.ts:95-106 | the map becomes OverwriteLast of the old map |
| ChatStore.Store.ApplyReply | src/stores/chats/chats.ts:110-112 | each notification in turn goes through the update callback |
| ChatStore.Store.RetitleNewChat | src/stores/chats/chats.ts:139-144 | the map and the throw flag are those of TitleStep |
| ChatStore.Store.AddPlaceholders | src/stores/chats/chats.ts:114-115 | the map becomes WithPlaceholders |
| ChatStore.Store.SettleReply | src/stores/chats/chats.ts:121-147 | the map becomes Settle of the reply |
| ChatStore.Store.SendMessage | src/stores/chats/chats.ts:108-151 | the map becomes SendEffect of the request outcomes; the order and the active id are unchanged; loading is off at the end |
| ChatStore.Store.Serialize | src/stores/chats/chats.ts:182-194 | the entries list every chat once, and deserializing gives back the same state |
| Setting.Merge | src/stores/setting/setting.ts:22 | every listed field (even `undefined`) is copied over; every left-out field keeps its value |
| Setting.MergeIdempotent | src/stores/setting/setting.ts:22 | merging the same record twice equals merging it once |
| Setting.MergeNoChanges | src/stores/setting/setting.ts:22 | the empty record changes nothing |
| Setting.MergeEverything | src/stores/setting/setting.ts:22 | a record listing every field replaces the settings |
| Setting.MergeThen | src/stores/setting/setting.ts:22 | two merges in a row are one merge where the later record's fields win |
| Setting.SettingStore.constructor | src/stores/setting/setting.ts:7-19 | the store starts at the defaults: 'deepseek-ai/DeepSeek-R1', '', false, 0.5 |
| Setting.SettingStore.UpdatesSettings | src/stores/setting/setting.ts:21-23 | the settings become Merge of the old settings and the partial record |
| MockMessages.GenerateMockMessages | src/utils/generateMockMessage.ts:133-147 | exactly `messageCount` messages (none for 0 or less); message i has role user for even i and assistant for odd i, sample floor(i/2) mod 6, the tag ` (消息 #i+1)`, and no reasoning or tokens |
| MockMessages.QuestionAnswerPairs | src/utils/generateMockMessage.ts:134-138 | messages 2k and 2k+1 are the question and the answer of the same sample k mod 6 |
| MockMessages.TagDetermines | src/utils/generateMockMessage.ts:143 | two texts with different tags differ, whatever their base texts |
| MockMessages.ContentsDistinct | src/utils/generateMockMessage.ts:143 | all generated contents are pairwise distinct |

## Left out

- Browser and framework machinery is replaced by explicit calls: the DOM container, `ResizeObserver`, the scroll listener and its 16 ms throttle, `nextTick`, `requestAnimationFrame`, `computed`/`watch`, and unmounting. `scrollToBottom` is reduced to a returned "scroll requested" flag, and `observeItem`/`unObserveItem` are not modelled. The container's scroll metrics are the last recorded `Viewport`: `calculateRange` reads the element's live `scrollTop` and `clientHeight`, and after a resize or a content change without a scroll event the two can differ.
- Pixel values are integers; the source's floating-point pixel arithmetic and rounding are not modelled.
- Strings are sequences of Unicode characters. The source's UTF-16 code units, `TextDecoder` and the character split of `content.split('')` on surrogate pairs are not modelled.
- `JSON.parse(...).choices[0].delta` is a parameter (`Parser`) that returns `None` where the source would throw.
- A record split across two network chunks is not reassembled, exactly as in the source: each piece is handled as its own line.
- `Date.now()` (message ids) and `Math.random()` (the id prefix) are parameters.
- The two network requests of `sendMessage` are parameters carrying their outcome. The messages sent with them and the `console` output are not modelled.
- `sendMessage` runs as one uninterrupted step. User actions interleaved with its `await`s are not modelled, nor are callbacks delivered while other store operations run.
- The chunk descriptors and the final flag that `handleStreamResponse` passes to the update callback are modelled, but `sendMessage`'s callback ignores them, as the source does.
- Chats are values. The source mutates chat objects shared between the map and the computed values, and that aliasing is not modelled.
- The persistence plugin, `localStorage`, `JSON.stringify` and rehydration beyond the map-to-entries round trip are not modelled. So is the id counter restarting at 0 in a new session, which can collide with persisted ids.
- `src/stores/setting/types.ts` is not part of this model; the four settings fields are those of the defaults.
- The mock sample tables are `MockMessages.Samples`, passed to `GenerateMockMessages` as the default of a parameter. That they hold six entries each is part of the table, not a proved fact.
- MockMessages.GenerateMockMessages: requires non-empty sample tables, which the default tables satisfy.
- VirtualList.BinarySearch: the split into "bottom ≤ scrollTop" and "bottom > scrollTop" is promised only for strictly increasing bottoms (zero-height items break it in the source too). `VirtualList.LayoutIncreasing` shows that every table built from positive heights with a non-negative gap has them.

Points of the code's behaviour that the model keeps as written:

- The drain moves one character per channel per frame. The commented-out variants in `src/utils/message.ts:27-172` drain one character per tick as well.
- At end of stream the pending frame is cancelled and the final notification is sent at once. Characters still queued are dropped, not drained (`MessageHandler.FinalDoesNotFlush`, `MessageHandler.StreamConservation`).
- A record that fails to parse ends the stream with a throw, which `sendMessage` turns into the failure text.
- An exact hit in `binarySearch` returns the index after the matching record, the first record that has not been fully scrolled past. With bottoms 50/100/150 and scrollTop 50 the start is record 1 (`VirtualList.ExactBoundaryStart`).
- When scrollTop lies below every bottom, `binarySearch` returns 0.
