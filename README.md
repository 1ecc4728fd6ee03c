# Telegram file-vault bot: a Dafny model of its channel store and sessions

The bot keeps its data as messages in one or more Telegram storage channels.
Admins create categories, upload files into them and set deletion timers.
As designed, users open a category through a `t.me/<bot>?start=cat_<id>` deep
link, and the bot sends them the files, then deletes what it sent once the timer
runs out. As written, the deep link does nothing for a non-admin. For an admin it
opens a category menu, whose `view_` button sends the files
(see "## Left out" for where the code raises first).

This project models, in Dafny, the core of that bot:

- **The message format of the store.**
  - A `CATEGORIES_BLOCK:` message takes records until its text would pass 4096
    characters. A block with no `CATEGORY:` line yet is taken only while it has
    fewer than ten lines after the header.
  - Each record is five lines: `CATEGORY:<id>`, `NAME:`, `CREATED_BY:`, `TIMER:` and
    `FILES:`. Its file lines `<file_id>|<file_type>|<caption>` follow.
  - A `===== GLOBAL TIMER =====` message holds the default timer.
  - Module `Records` has the per-message edit and parse functions.
  - Module `BlockFacts` proves what each edit preserves and what the parsers read
    back from what the edits wrote.
  - Module `LineScan` has the index loops of the `ChannelStorage` methods. Each loop
    is a `while` loop proved equal to the function that specifies it. The
    `Storage` methods apply those specifying functions to each message, so the
    `LineScan` methods stand beside them rather than being called by them.
- **`ChannelStorage`** (module `Storage`).
  - The store is a class with the source's fields: timer cache, global timer,
    channel round-robin index and `loaded` flag.
  - It works over an in-memory `Chats.Backend`: a map from chat to messages, most
    recent first, with send, edit and delete.
  - A history read returns the 100 most recent messages of a channel.
  - Every history walk is one of two kinds, each a method with loops proved
    against a recursive function:
    - a first-hit scan: `ScanFirst` against `FirstHit`;
    - an accumulating walk: `ScanAll` against `FoldAll`.
  - An exception raised inside a channel's `try` ends that channel's walk. The
    walk then goes on with the next channel (`Step.Abort`).
- **`delete_messages_after_delay`** (module `Countdown`).
  - It is modelled as the log of its sleeps, status edits and deletions.
  - A cancellation point says after how many awaited calls `cancel()` reaches the
    task.
- **The `BotManager` registry** (module `Sessions`).
  - It holds `pending_uploads`, `pending_channels`, `pending_timers` and
    `delete_tasks`, and the handlers that change them.
  - `send_category_files` sends the files and schedules the countdown.
  - `is_user_member` retries at most three times.
- **Pure helpers** (module `Handlers`):
  - callback-data prefixes;
  - the `cat_` deep link and `generate_link`;
  - clamping a timer to zero;
  - truncating a caption to 1024 characters;
  - the attachment priority of `extract_file_info`.

The model keeps these behaviours of the code exactly as written:

- `_find_message_for_category` counts positions in the lines after the header. Its
  capacity test counts those lines, not records.
- `get_category` reads the timer from the second line after `CATEGORY:`. In the
  format `add_category` writes, that line is the `CREATED_BY:` line, so a saved
  per-category timer is never read back.
- `save_category_timer` rewrites every `TIMER:` line of the message.
- `split(':')[1]` takes the middle field.
- A category id matches by prefix (`startswith("CATEGORY:<id>")`).
- `send_category_files` files its countdown under `message.from_user.id`. Its only
  caller, the `view_` button, passes the menu message, which the bot sent itself,
  so the countdown is filed under the bot's id. `cancel` looks for the admin's own id
  and does not find it.

## Model

| member | source | states |
|---|---|---|
| Text.Split | TelegramIploaderbot.py:166 | `str.split(c)` yields at least one piece, and no piece contains the separator |
| Text.ParseIntOfIntToString | TelegramIploaderbot.py:272 | `int()` of the decimal text the bot writes for a number gives that number back |
| Records.FirstMatch | TelegramIploaderbot.py:257-260 | the first line at or after `from` that starts with the prefix; no earlier line in range does; `None` exactly when no line in range does |
| Records.InsertAt | TelegramIploaderbot.py:196 | `list.insert(k, x)`: one more line, `x` at `k`, the lines before `k` unchanged and the rest shifted by one |
| Records.FilesLineIndex | TelegramIploaderbot.py:307-319 | the `FILES:` line `add_file` uses is the first `FILES:` line at or after the first `CATEGORY:<id>` line; `None` (the `continue` of 318-319) exactly when there is no such `CATEGORY:` line or no `FILES:` line at or after it |
| Records.AddFileText | TelegramIploaderbot.py:321-328 | a new body is produced only when it fits in 4096 characters |
| Records.RangeFrom | TelegramIploaderbot.py:347-352 | the range the `delete_category` loop settles on from a given start: it begins at a line with the prefix, holds no other `CATEGORY:` line, and ends at a `CATEGORY:` line of another id or at the end of the message |
| Records.CategoryRange | TelegramIploaderbot.py:345-361 | `None` exactly when no line carries the prefix; otherwise a range that starts at a prefixed line, contains no other `CATEGORY:` line, and stops at the next `CATEGORY:` line of another id or at the end |
| Records.SlotIn | TelegramIploaderbot.py:160-178 | a block gets a position only if it starts with the header; lines up to it lack the prefix; the line after it has the prefix; if it is the append position there are fewer than 10 lines after the header; `None` for a block means more than 10 lines and no prefixed line |
| Records.IndexOf | TelegramIploaderbot.py:240 | `list.index(x)`: the first position holding `x` |
| LineScan.FindLine | TelegramIploaderbot.py:150-153 | the `enumerate` loop returns the first matching line at or after `from` |
| LineScan.LocateFilesLine | TelegramIploaderbot.py:307-316 | the nested loops of `add_file` find `FilesLineIndex` |
| LineScan.LocateCategoryRange | TelegramIploaderbot.py:345-352 | the `delete_category` loop, a later prefixed line restarting the range, computes `CategoryRange` |
| LineScan.RewriteTimerLines | TelegramIploaderbot.py:137-153 | the two loops of `save_category_timer` compute `TimerEdit` |
| LineScan.CollectFiles | TelegramIploaderbot.py:276-288 | the file loop of `get_category` computes `ParseFiles` |
| LineScan.ReadCategory | TelegramIploaderbot.py:253-294 | `get_category` on the lines of one message computes `CategoryInLines` |
| LineScan.LocateSlot | TelegramIploaderbot.py:165-174 | the per-message part of `_find_message_for_category` computes `SlotIn` |
| LineScan.CatalogLines | TelegramIploaderbot.py:236-242 | the `get_categories` line loop computes `CatalogFrom` |
| LineScan.MetaTimerLines | TelegramIploaderbot.py:94-104 | the `load_category_timers` line loop computes `MetaTimersFrom` |
| BlockFacts.MetaRecordLines | TelegramIploaderbot.py:94-104 | the lines `===== META =====`, `CATEGORY:<id>`, `TIMER:<n>` set the timer of `id` to `n` and change no other entry |
| BlockFacts.MetaRecordReadBack | TelegramIploaderbot.py:92-104 | a META message with one `CATEGORY:<id>` / `TIMER:<n>` pair, split on newlines, sets the timer of `id` to `n` and no other |
| BlockFacts.ParseFileLineNone | TelegramIploaderbot.py:280-281 | a line yields no file exactly when it has no `\|` |
| BlockFacts.FileLineRoundTrip | TelegramIploaderbot.py:322 | a file line `add_file` writes is read by `get_category` as the same file record |
| BlockFacts.TwoFieldFileLine | TelegramIploaderbot.py:285 | a file line without a caption field reads back with an empty caption |
| BlockFacts.AddCategoryPlacement | TelegramIploaderbot.py:191-196 | in an existing block the record goes right before the first existing `CATEGORY:` line, or at the end of a block that has none |
| BlockFacts.PlacedText | TelegramIploaderbot.py:195-199 | the edited block splits into the old lines with the record's five lines spliced in, and contains the record's prefix |
| BlockFacts.AddCategoryReadBack | TelegramIploaderbot.py:191-205 | a category added to an existing block reads back through `get_category` with its name, the global timer and no files |
| BlockFacts.PlacedReadBack | TelegramIploaderbot.py:253-294 | on spliced lines in which the new record is the first with its prefix, `get_category` finds the record |
| BlockFacts.NewBlockLines | TelegramIploaderbot.py:213-214 | a new block's lines are the header followed by the five record lines, and the text is the one the block edit builds from the bare header |
| BlockFacts.NewBlockReadBack | TelegramIploaderbot.py:213-214 | a category in a new block reads back through `get_category` with its name, the global timer and no files |
| BlockFacts.RecordCatalog | TelegramIploaderbot.py:236-242 | `get_categories` on a written record adds exactly `id -> name` |
| BlockFacts.NewBlockCatalog | TelegramIploaderbot.py:229-245 | a new block adds exactly `id -> name` to `get_categories` |
| BlockFacts.TimerEditShape | TelegramIploaderbot.py:137-153 | with a `TIMER:` line, exactly the `TIMER:` lines change; without one, one `TIMER:` line goes in after the first `CREATED_BY:` line, and if there is none nothing changes |
| BlockFacts.TimerEditReadBack | TelegramIploaderbot.py:137-155 | after the edit every `TIMER:` line holds the new seconds and reads back as them; there is one whenever there was a `TIMER:` or `CREATED_BY:` line |
| BlockFacts.TimerEditOfRecord | TelegramIploaderbot.py:141-146 | on a freshly written block only the record's `TIMER:` line changes |
| BlockFacts.SaveTimerOnNewBlock | TelegramIploaderbot.py:136-155 | saving a timer on a new block gives the block written with that timer |
| BlockFacts.SavedTimerIsNotReadBack | TelegramIploaderbot.py:269-272 | after a per-category timer is saved, `get_category` still reports the global timer, because it reads the `CREATED_BY:` line |
| BlockFacts.AddFileLines | TelegramIploaderbot.py:321-326 | the new body splits into the old lines with the file line inserted after the `FILES:` line |
| BlockFacts.AddFileReadBack | TelegramIploaderbot.py:299-331 | after `add_file`, `get_category` reads the same name and timer, with the new file first |
| BlockFacts.DeleteLeavesNoPrefix | TelegramIploaderbot.py:357-361 | when one line carries the prefix, none of the remaining lines does after the cut |
| BlockFacts.DeleteThenGone | TelegramIploaderbot.py:336-372 | after `delete_category` edits the message, `get_category` no longer finds the category in it |
| BlockFacts.GlobalTimerReadBack | TelegramIploaderbot.py:80 | the global timer message `save_global_timer` writes is read back by `load_global_timer` as the same seconds |
| Chats.Recent | TelegramIploaderbot.py:77 | `get_chat_history(limit=100)`: the most recent messages, at most 100, all of them when there are fewer |
| Chats.Posted | TelegramIploaderbot.py:219-222 | a sent message becomes the chat's most recent message; other chats are unchanged |
| Chats.Retexted | TelegramIploaderbot.py:201-205 | an edit changes the text of the messages with that id and nothing else |
| Chats.Edited | TelegramIploaderbot.py:330 | `edit_text` changes only one chat, by `Retexted` |
| Chats.Without | TelegramIploaderbot.py:369 | deletion keeps exactly the messages with another id |
| Chats.Deleted | TelegramIploaderbot.py:117 | `message.delete()` changes only one chat, by `Without` |
| Chats.Backend.SendMessage | TelegramIploaderbot.py:219-222 | returns the next message id and posts the message under it |
| Chats.Backend.EditMessageText | TelegramIploaderbot.py:201-205 | applies `Edited` to the chats |
| Chats.Backend.DeleteMessage | TelegramIploaderbot.py:369 | applies `Deleted` to the chats |
| Storage.FirstInChannel | TelegramIploaderbot.py:251-263 | a hit comes from a message of the channel; when the walk finds none, every message was passed over |
| Storage.FirstInChannelIsFirst | TelegramIploaderbot.py:251-263 | a hit or an abort comes from the first message that is not passed over, and the hit is that message's value |
| Storage.FirstHit | TelegramIploaderbot.py:249-297 | a hit comes from the recent history of a listed channel; `None` exactly when no channel yields one |
| Storage.FirstHitIsFirst | TelegramIploaderbot.py:249-297 | the hit is the one of the first channel, in list order, whose walk yields a hit; no earlier channel yields one |
| Storage.ScanChannel | TelegramIploaderbot.py:251-263 | the `async for` loop of a first-hit scan computes `FirstInChannel` |
| Storage.ScanFirst | TelegramIploaderbot.py:249-297 | the channel loop of a first-hit scan computes `FirstHit` |
| Storage.FoldMessages | TelegramIploaderbot.py:234-242 | the `async for` loop of an accumulating walk computes `FoldChannel` |
| Storage.ScanAll | TelegramIploaderbot.py:231-245 | the channel loop of an accumulating walk computes `FoldAll` |
| Storage.Placement | TelegramIploaderbot.py:191-205 | an edit of an existing block targets a message of the recent history, and its text fits in 4096 characters |
| Storage.Placed | TelegramIploaderbot.py:193-208 | the text put into the found block is kept only when it fits in 4096 characters |
| Storage.MarkedIds | TelegramIploaderbot.py:115-117 | every recent message carrying the global timer marker has its id listed for deletion |
| Storage.MarkedIdsAreMarked | TelegramIploaderbot.py:115-117 | every listed id is the id of a message carrying the marker |
| Storage.FindPlacement | TelegramIploaderbot.py:191-208 | the search for a block with room computes `Placement` |
| Storage.DeleteAllRemoves | TelegramIploaderbot.py:113-117 | deleting the listed ids removes exactly those messages from that chat and no other chat |
| Storage.PurgeChannelRemovesMarked | TelegramIploaderbot.py:113-119 | after the purge no recent marked message is left in the channel |
| Storage.PurgeChannelKeepsOthers | TelegramIploaderbot.py:113-119 | the purge keeps every message of the channel whose id no recent marked message has, and leaves every other chat as it was |
| Storage.GlobalTimerRoundTrip | TelegramIploaderbot.py:71-126 | after `save_global_timer`, `load_global_timer` reads the seconds just saved |
| Storage.ChannelStorage.Initialize | TelegramIploaderbot.py:57-69 | a second call changes nothing; the first loads the global timer, then the category timers, and marks the store loaded |
| Storage.ChannelStorage.LoadGlobalTimer | TelegramIploaderbot.py:71-85 | the global timer becomes the first readable timer message's value, and stays as it was when there is none |
| Storage.ChannelStorage.LoadCategoryTimers | TelegramIploaderbot.py:87-106 | the cache is updated from every META message of the recent histories |
| Storage.ChannelStorage.SaveGlobalTimer | TelegramIploaderbot.py:108-126 | sets the timer, deletes every old marked message, and posts the new one to the first channel; with no channels the chats are unchanged |
| Storage.ChannelStorage.PurgeChannel | TelegramIploaderbot.py:113-119 | the backend becomes `DeleteAll` of the channel over `MarkedIds` of its recent messages; with the two lemmas above, the marked recent messages go and the rest stay |
| Storage.ChannelStorage.SaveCategoryTimer | TelegramIploaderbot.py:128-158 | caches the timer and edits the first message that holds the prefix; nothing else changes |
| Storage.ChannelStorage.AddCategory | TelegramIploaderbot.py:180-227 | the record goes into the found block when it fits; otherwise a new block goes to the current round-robin channel and the index advances; the timer is cached; with no channels nothing changes and no id is returned |
| Storage.ChannelStorage.PlaceRecord | TelegramIploaderbot.py:193-225 | writes the record as `Placement` decided, keeping the class invariant |
| Storage.ChannelStorage.SendNewBlock | TelegramIploaderbot.py:213-222 | posts the new block to the current channel and moves the index on, modulo the number of channels |
| Storage.ChannelStorage.GetCategories | TelegramIploaderbot.py:229-245 | the id-to-name map built from every block in the recent histories |
| Storage.ChannelStorage.GetCategory | TelegramIploaderbot.py:247-297 | the category from the first message that yields one, or `None` |
| Storage.ChannelStorage.AddFile | TelegramIploaderbot.py:299-334 | true exactly when some message took the file line, and that message is then the only edit |
| Storage.ChannelStorage.DeleteCategory | TelegramIploaderbot.py:336-375 | true exactly when some message held the category; then its lines are cut out, the message is deleted when at most one line is left, and the timer is uncached; otherwise nothing changes |
| Countdown.Deletes | TelegramIploaderbot.py:613-620 | one deletion attempt per message id, in order |
| Countdown.DeleteMessagesAfterDelay | TelegramIploaderbot.py:592-628 | without cancellation the log is the full countdown; a cancellation after `n` events leaves exactly the first `n` |
| Countdown.RunTicks | TelegramIploaderbot.py:596-611 | the `while` loop's events are a prefix of the ticks, all of them unless cancelled |
| Countdown.RunDeletes | TelegramIploaderbot.py:613-620 | the deletion loop's events are a prefix of the deletions, all of them unless cancelled |
| Countdown.TicksLength | TelegramIploaderbot.py:596-611 | the loop runs `ceil(delay/10)` times, with one status edit per tick when there are messages |
| Countdown.TickAt | TelegramIploaderbot.py:597-608 | tick `k` sleeps `min(10, remaining)` and then shows `delay - 10(k+1)` on the last message |
| Countdown.NoStatusWithoutMessages | TelegramIploaderbot.py:603 | with no message ids the loop only sleeps |
| Countdown.SleepsAddUp | TelegramIploaderbot.py:597 | the sleeps add up to the delay exactly, and to zero for a non-positive delay |
| Countdown.TicksDeleteNothing | TelegramIploaderbot.py:596-611 | nothing is deleted while the countdown runs |
| Countdown.CancelledDuringLoop | TelegramIploaderbot.py:622-623 | a task cancelled during the countdown deletes no message |
| Countdown.DeletesFollowTicks | TelegramIploaderbot.py:613-620 | after the ticks come the deletions of all the ids, in order |
| Countdown.ThirtySeconds | TelegramIploaderbot.py:596-620 | the full log for a 30-second timer |
| Countdown.TwentyFiveSeconds | TelegramIploaderbot.py:596-620 | for 25 seconds the last sleep is 5 and the last status shows -5 |
| Handlers.DecodeCallback | TelegramIploaderbot.py:786-811 | the `view_` test wins; `Unknown` exactly when no prefix matches; the id is the data after the prefix |
| Handlers.DecodeEncode | TelegramIploaderbot.py:521-524 | each button's `callback_data` decodes to the action and id it was built from |
| Handlers.EncodeDecode | TelegramIploaderbot.py:786-811 | decoded callback data re-encodes to the same data |
| Handlers.DeepLinkCategory | TelegramIploaderbot.py:448-449 | a category is opened exactly when the first argument starts with `cat_`, and it is the rest of that argument |
| Handlers.GenerateLink | TelegramIploaderbot.py:398-404 | the link starts with `https://t.me/<name>?start=`, ends with `cat_<id>`, and is exactly as long as the two, so nothing lies between them |
| Handlers.LinkOpensCategory | TelegramIploaderbot.py:398-449 | the text after `https://t.me/<name>?start=` in a generated link, given to `/start` as its argument, opens that category |
| Handlers.FallbackLinkName | TelegramIploaderbot.py:403 | without a username the link uses the bot id, the token before its first colon |
| Handlers.ClampTimer | TelegramIploaderbot.py:757-759 | the timer is never negative and is either the number given or 0 |
| Handlers.TimerArgument | TelegramIploaderbot.py:756-768 | `/timer` accepts exactly a first argument that parses as an integer, clamped |
| Handlers.TimerReply | TelegramIploaderbot.py:826-829 | a timer reply is accepted exactly when it parses as an integer, clamped |
| Handlers.TimerArgumentOfNumber | TelegramIploaderbot.py:757-759 | any number written out is accepted, and a non-negative one unchanged |
| Handlers.TruncateCaption | TelegramIploaderbot.py:568 | `[:1024]`: a prefix of the caption, at most 1024 long; the whole caption if it fits, otherwise exactly 1024 characters |
| Handlers.KindOf | TelegramIploaderbot.py:559-564 | the send function is looked up by the file type's name |
| Handlers.KindOfName | TelegramIploaderbot.py:559-564 | every media kind's name finds its send function |
| Handlers.ShortId | TelegramIploaderbot.py:412 | `file_id[:8]`: a prefix of the id, the whole id when it has at most 8 characters and exactly 8 otherwise |
| Handlers.ChosenKind | TelegramIploaderbot.py:409-426 | the first attachment kind, in document, photo, video, audio order, that the message carries |
| Handlers.ExtractFileInfo | TelegramIploaderbot.py:406-434 | `None` exactly when the message has no attachment; otherwise the highest-priority attachment, with its id, size, type name, derived file name and the message's caption |
| Handlers.RecordOf | TelegramIploaderbot.py:322 | the stored record keeps the id, type and caption of the upload |
| Handlers.DocumentFirst | TelegramIploaderbot.py:409-412 | a document wins over every other attachment |
| Handlers.PhotoKeepsLargest | TelegramIploaderbot.py:413-416 | a photo is stored as its last, largest size |
| Handlers.ExtractedKindIsSendable | TelegramIploaderbot.py:406-434 | every extracted type has a send function in `send_category_files` |
| Sessions.Sends | TelegramIploaderbot.py:556-571 | at most one send per file, each to the user's chat with a caption of at most 1024 characters |
| Sessions.SentIds | TelegramIploaderbot.py:565-569 | at most one sent message id per file |
| Sessions.SentIdsAreResults | TelegramIploaderbot.py:556-575 | every collected id is what the send of a file with a known type returned |
| Sessions.SentIdsAllSent | TelegramIploaderbot.py:556-575 | when every file has a known type and every send returns a message, the ids are those returned, one per file, in file order |
| Sessions.SendFiles | TelegramIploaderbot.py:556-575 | the file loop computes `Sends` and `SentIds` |
| Sessions.SendsOnePerKnownFile | TelegramIploaderbot.py:556-571 | when every type is known, file `k` is sent as send `k`, with its kind, id and truncated caption |
| Sessions.SentWhatWasUploaded | TelegramIploaderbot.py:406-434 | the files `handle_file` extracts, stored as records the way `finish_upload` does, are sent one to one and in order by `send_category_files`, each with its own file id |
| Sessions.CountdownUpdatesWarning | TelegramIploaderbot.py:577-604 | the countdown's status edits go to the warning message, appended last |
| Sessions.IsUserMember | TelegramIploaderbot.py:473-485 | true exactly when one of the first three calls shows membership; the calls stop at the first that does; 2 seconds are slept after each failed call |
| Sessions.BotManager.Cancel | TelegramIploaderbot.py:848-864 | drops the user's upload, channel, timer and delete-task entries, and returns the task cancelled |
| Sessions.BotManager.SendCategoryFiles | TelegramIploaderbot.py:537-590 | there are no sends for a missing or empty category; otherwise the files are sent, and with a positive timer a countdown over the sent ids and the warning replaces the delete task filed under the answered message's sender, or its chat when it has none (541) |
| Sessions.BotManager.UploadCommand | TelegramIploaderbot.py:651-677 | an admin with an argument naming an existing category starts an empty upload; otherwise nothing changes |
| Sessions.BotManager.HandleFile | TelegramIploaderbot.py:679-693 | a supported file is appended to the user's pending upload and the new count reported; otherwise nothing changes |
| Sessions.BotManager.FinishUpload | TelegramIploaderbot.py:695-711 | the upload is removed; its files are handed to the store in order, unless it had none |
| Sessions.BotManager.PressButton | TelegramIploaderbot.py:774-811 | a non-admin's press does nothing; `view_` does what `send_category_files` does on the menu message, so the countdown is filed under that message's sender; `add_` starts an empty upload; `timer_` records the pending timer; every other action sends nothing and leaves the registry alone |
| Sessions.BotManager.HandleCategoryTimer | TelegramIploaderbot.py:817-842 | a reply that is a number, from a user with a pending timer, yields the category id and the clamped seconds to save; the entry is dropped only when the category was found; otherwise nothing changes |

## Left out

- The Telegram API is replaced by the in-memory `Chats.Backend`.
  - The model has no network, no rate limits and no exceptions from send, edit or
    delete.
  - The backend does not enforce the 4096-character limit. The code checks it only
    in `add_category` and `add_file`, and so does the model.
- `get_chat_history` reads at most the 100 most recent messages of a channel. It is
  modelled as `Chats.Recent`.
- `asyncio` is left out:
  - there is no concurrency between handlers;
  - the 0.5 s and 2 s sleeps in `send_category_files` are left out;
  - a cancellation point stands in for `task.cancel()`: it counts the awaited calls
    completed before the cancellation arrives.
- `uuid4()[:8]` is not modelled. `AddCategory` takes the new id as a parameter.
- The web server, `keep_alive`, command wiring, conversation handler states,
  logging and every reply text are left out.
- Environment variables are not modelled. That covers the parsing of `ADMIN_IDS`
  and `BOT_TOKEN`; the admin list and token are parameters.
- `get_category_timer` is called but never defined in the source. It is called at
  five places, and each raises `AttributeError`. The model does not raise at any of
  them:
  - at 517, in `admin_category_menu`, before the menu is built;
  - at 549, in `send_category_files`, before any file is sent (`SendCategoryFiles`
    takes the timer as a parameter);
  - at 715, in `finish_upload`, after the `add_file` calls, so the files are stored;
  - at 737, in `categories_list`, after `get_categories`;
  - at 806, in the `timer_` branch of `button_handler`, after
    `pending_timers[user]` is set, so the pending entry stays.
  The model keeps the state changes made before each of these calls.
- The membership check for non-admins in `handle_category` is an empty comment in
  the source. The model has only `is_user_member` itself.
- Nothing in the code writes a `===== META =====` message. `load_category_timers` is
  modelled all the same.
- `message_cache` is never used and is not a field of the model.
- `pending_channels` is never written in the code. The model only clears it, in
  `cancel`.
- Python's `int()` is modelled as an optional sign followed by ASCII digits. Surrounding
  whitespace, underscores and non-ASCII digits, which `int()` also accepts, are left
  out. So is the `strip()` in `handle_category_timer`.
- `ChannelStorage.get_categories` and `get_category` catch each channel's
  exceptions. The model ends that channel's walk and goes on with the next channel
  (`Step.Abort`).
- `add_category` with an empty channel list raises `IndexError` when it indexes
  `self.channels`. The model returns `None` and changes nothing.
- Sessions.BotManager.SendCategoryFiles: the message ids Telegram returns are a
  parameter, and a failed send is a missing id. The outer `except` that turns an
  error into a reply is left out.
- Sessions.BotManager.SendCategoryFiles: replacing `delete_tasks[user]` does not
  cancel the task it replaces. The old countdown keeps running, as in the code.
- Sessions.BotManager.PressButton: the storage calls of the button handler are the
  caller's. For `view_` the category `get_category` returns and the message ids
  Telegram returns are parameters. `delcat_` is one
  `Storage.ChannelStorage.DeleteCategory`; it changes only the store, and the
  registry stays as it was. The reply texts and keyboards of the other actions are
  left out.
- Sessions.BotManager.FinishUpload: returns the records to store and leaves the
  `add_file` calls to the caller (one `Storage.ChannelStorage.AddFile` each). It
  does not count `added_count`.
- Sessions.BotManager.HandleCategoryTimer: the `save_category_timer` call
  (832) is the caller's; `saved` is its argument pair, to be passed to one
  `Storage.ChannelStorage.SaveCategoryTimer`. The result of
  `Storage.ChannelStorage.GetCategory` is the `categoryFound` parameter. When it is
  `None`, `category['name']` raises, and the pending entry stays.
