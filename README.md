# otoo-v2 restock relay, modelled in Dafny

This project models the stateful core of a Discord bot. The bot listens to a server-sent
event feed of shop restocks and weather, works out what changed, and announces it in every
Discord guild (server) that has configured a channel. Each guild's role names decide which
items are mentioned as roles.

The model has seven modules:

- `Common` (common.dfy) holds the item and stock values shared by the other modules, plus
  decimal rendering of numbers.
- `Listener` (stream_listener.dfy) models the stream listener:
  - the per-category restock diff over `timeData`;
  - the weather change detector;
  - the start / retry / stop life cycle;
  - `StreamListener`, a class whose methods update its fields in place. Its event handlers
    follow the corrected reading described under "## Findings", where the undeclared name at
    services/StreamListener.js:97 is bound rather than throwing.
- `Messaging` (message_service.dfy) models the notification builder:
  - CamelCase name splitting;
  - role lookup;
  - the hide flag and the trailing separator;
  - the per-guild loop that sends each guild its message.
- `ConfigStore` (config_store.dfy) models the `guild_config` table as a map from guild id to
  row. `GuildConfigTable` is a class whose statements either fail or take effect.
- `SetupCommand` (setup_command.dfy) models the `/setup` subcommands `channel`, `view`,
  `hide` and `reset`.
- `Registry` (discord_service.dfy) models the per-worker guild registry:
  - a JavaScript `Map` with its insertion order;
  - the join and leave events;
  - loading the registry from the table;
  - handing the registry to the notification loop;
  - the command-module filter and interaction routing.
- `StreamCommand` (stream_command.dfy) models the ten-event buffer behind `/stream`, and the
  `status` and `latest` replies.

Each imperative operation of the source is a method. Each method is proved against a function
of its inputs or old state. The properties the source promises are proved about those
functions as lemmas.

External effects are replaced as follows:

- Sending to Discord is a recorded list of sends.
- Handing a batch to the notification builder is a recorded effect.
- Database statements take a flag saying whether they fail.
- Fetching a guild from Discord is a map from the ids that can be fetched to their names.
- The role cache is a map from guild id to roles.
- JSON parsing is an event datatype with a malformed case.
- The event source is a three-state value.
- The reconnect timer is a count of pending reconnects.

Where the code departs from the bot's stated behaviour, the model follows the code:

- **Quiet branch.** Within a restock cycle, a snapshot without new names updates only the
  countdown. The stored items stay as they were even when names disappeared
  (services/StreamListener.js:90-92). They do not always reflect the latest snapshot.
- **Retry limit.** The listener gives up when the retry count exceeds 5, which is on the sixth
  consecutive error, after five reconnects (services/StreamListener.js:130). `start` does not
  reset the count. So a restarted listener that had given up stops again on its first error,
  unless a parsed weather event (services/StreamListener.js:118) or a dispatched batch
  (services/StreamListener.js:99, corrected reading) has reset the count first.
- **Mid-cycle items.** New mid-cycle items are sent straight to the notification builder
  through an undeclared name (services/StreamListener.js:89). They do not go through the
  combined batch.
- **Weather.** The stored weather starts as `""`. So a first weather event with an empty or
  missing value announces nothing (services/StreamListener.js:16, 108-111).
- **One guild's failure can stop the loop.** `processData` builds a guild's content before it
  checks the guild's channel. A guild missing from the client's cache throws in
  `buildContent` whenever the batch has items, and that ends the loop for every guild after
  it (services/MessageService.js:15-16, 38-40). Only a failed send is contained.

## Model

| member | source | states |
|---|---|---|
| `Messaging.SpaceCaps` | services/MessageService.js:37 | splitting before capitals adds exactly one character per upper-case letter and never leaves a capital in first position |
| `Messaging.UnsplitSpaceCaps` | services/MessageService.js:37 | removing the inserted spaces gives back the original text |
| `Messaging.NormalizeRoundTrip` | services/MessageService.js:37 | the item name is recoverable from its normalised display name |
| `Messaging.NormalizeInjective` | services/MessageService.js:37 | two different item names never normalise to the same display name |
| `Messaging.NormalizeUnchangedIff` | services/MessageService.js:37 | a name is unchanged exactly when no capital follows its first character ("Watermelon") |
| `Messaging.SpaceCapsAppend` | services/MessageService.js:37 | the split works piece by piece over a concatenation |
| `Messaging.SpaceCapsWord` | services/MessageService.js:37 | a capitalised word with no other capital is split off with exactly one space in front |
| `Messaging.NormalizeTwoWords` | services/MessageService.js:37 | two capitalised words run together are split into the two words with one space ("CarrotSeed" to "Carrot Seed") |
| `Messaging.FindRole` | services/MessageService.js:38-40 | a role found is one of the guild's roles and carries the looked-up name |
| `Messaging.FindRoleFirst` | services/MessageService.js:38-40 | no role is found exactly when no role has that name; otherwise the first such role is returned |
| `Messaging.FragmentShape` | services/MessageService.js:41-46 | each item contributes nothing or a fragment ending in the bar separator; it contributes nothing exactly when the hide flag is set and no role matches |
| `Messaging.FragmentHidden` | services/MessageService.js:43-46 | with the hide flag set, a matched item contributes its role mention and an unmatched one nothing |
| `Messaging.FragmentsAppend` | services/MessageService.js:35-48 | fragments are concatenated in item order |
| `Messaging.FragmentsSnoc` | services/MessageService.js:35-48 | each further item appends its own fragment and changes nothing before it |
| `Messaging.HiddenKeepsOnlyMatched` | services/MessageService.js:34-48 | hiding unmatched items gives the same text as building from the role-matched items alone |
| `Messaging.Matched` | services/MessageService.js:38-42 | the matched items are exactly the batch's items that have a role of the same name |
| `Messaging.FragmentsShape` | services/MessageService.js:35-48 | the text built for a batch is empty or ends in the bar separator |
| `Messaging.ContentDropsBar` | services/MessageService.js:49 | the content is the fragments with their final bar removed, and empty when there are no fragments |
| `Messaging.ContentEmptyIff` | services/MessageService.js:34-49 | the content is empty exactly when the batch is empty, or when the hide flag is set and no item matches a role |
| `Messaging.ItemPiece` | services/MessageService.js:37-47 | one loop iteration produces the item's fragment |
| `Messaging.BuildContent` | services/MessageService.js:34-50 | throws exactly when there are items and the guild is not in the client's cache; otherwise returns the content, with the hide flag defaulting to false |
| `Messaging.PassAbortIff` | services/MessageService.js:15-31 | the guild loop is cut short exactly when one guild's content building throws |
| `Messaging.PassSendsDelivered` | services/MessageService.js:15-31 | every send of the loop is one guild's delivery |
| `Messaging.PassDeliversAll` | services/MessageService.js:15-31 | a loop that is not cut short sends every deliverable guild its message |
| `Messaging.PassAppend` | services/MessageService.js:15-31 | guilds are handled one after another, each independently of the others |
| `Messaging.DispatchAbortIff` | services/MessageService.js:15-16 | the loop is cut short exactly when the batch has items and some guild is missing from the cache |
| `Messaging.SendsExactlyToEligible` | services/MessageService.js:15-27 | every send goes to a guild with a channel and non-empty content, and, unless the loop was cut short, every such guild gets one |
| `Messaging.EmptyBatchSendsNothing` | services/MessageService.js:15-25 | an empty batch sends nothing and throws nowhere |
| `Messaging.DispatchesSnoc` | services/MessageService.js:15-31 | one more guild adds at most its own send |
| `Messaging.DispatchesAppend` | services/MessageService.js:15-31 | the loop over two lists of guilds is the loop over the first, then the second unless the first threw |
| `Messaging.GuildTurn` | services/MessageService.js:16-27 | one guild's turn throws when its content cannot be built, skips a guild without a channel or with empty content, and otherwise sends that content to the guild's channel |
| `Messaging.DispatchesPrefix` | services/MessageService.js:15-31 | the loop over the first i + 1 guilds is the loop over the first i, followed by guild i's turn |
| `Messaging.AbortedPrefix` | services/MessageService.js:15-31 | once a guild's turn has thrown, the guilds after it change nothing |
| `Messaging.ProcessData` | services/MessageService.js:14-32 | the sends attempted are those of the guild loop, whether or not the platform rejects one; a rejected send is recorded and the loop goes on |
| `Listener.NewItemsMembers` | services/StreamListener.js:72-76 | an item is new exactly when it arrives and its name is not among the stored names |
| `Listener.NewItemsAppend` | services/StreamListener.js:72-76 | the new items keep incoming order |
| `Listener.NoNewItemsIff` | services/StreamListener.js:72-76 | nothing is new exactly when every incoming name was stored |
| `Listener.FoldAfterAbort` | services/StreamListener.js:60-102 | once a category throws, the remaining categories are not visited |
| `Listener.FoldNext` | services/StreamListener.js:60-93 | the categories are visited one after another, in key order |
| `Listener.ShopsAfterThrow` | services/StreamListener.js:60-102 | a throw ends the handler with what was already stored and sent, and without the combined dispatch or the retry reset |
| `Listener.FirstSeenIsFull` | services/StreamListener.js:61-84 | a category seen for the first time stores its countdown and items and puts its whole list in the combined batch |
| `Listener.LargerCountdownReplaces` | services/StreamListener.js:81-84 | a larger incoming countdown replaces the countdown and items and batches every incoming item |
| `Listener.MissingItemsThrow` | services/StreamListener.js:81-84 | a new cycle without an item list stores the countdown and an empty list, then throws |
| `Listener.FreshKeepsLastrun` | services/StreamListener.js:85-89 | within a cycle, new names replace the stored items and keep the countdown; only the new items are sent, and never through the combined batch |
| `Listener.QuietKeepsItems` | services/StreamListener.js:90-92 | otherwise only the countdown changes and the stored items stay |
| `Listener.FoldTouchesOnlyItsKeys` | services/StreamListener.js:60-93 | the diff writes only the categories it visits |
| `Listener.FoldStoresVisitedKeys` | services/StreamListener.js:60-67 | stored categories remain, and after a pass that did not throw every visited category is stored |
| `Listener.FoldStoresReachedKey` | services/StreamListener.js:60-70 | every category the pass reaches is stored afterwards, including the one whose step threw, since its record is written before its items are read |
| `Listener.UnboundSendsNothing` | services/StreamListener.js:85-89 | while the service name is unbound, the mid-cycle branch sends nothing |
| `Listener.BatchDispatchedOnce` | services/StreamListener.js:94-99 | an empty combined batch returns without dispatch or retry reset; a non-empty one is dispatched once, last, and resets the retry count |
| `Listener.PassSendsOnlyNewItems` | services/StreamListener.js:84-89 | everything sent during the diff is a mid-cycle batch of new items |
| `Listener.WeatherEmittedIff` | services/StreamListener.js:105-122 | a weather item with empty stock is sent exactly when the incoming weather (missing counts as empty) differs from the stored one; every parsed event stores it and resets the retry count |
| `Listener.MalformedIsIgnored` | services/StreamListener.js:100-102 | an unparsable payload changes nothing |
| `Listener.StrictNeverDispatches` | services/StreamListener.js:97 | as written, no event is ever handed on and no shops event resets the retry count |
| `Listener.StrictLosesFirstBatch` | services/StreamListener.js:97 | a first one-item shops event is lost as written and handed on as intended |
| `Listener.StartStopContracts` | services/StreamListener.js:140-149 | start is a no-op while running; stop is a no-op while stopped, and otherwise drops the source and emits one stopped status |
| `Listener.ErrorsGiveUpAfterFive` | services/StreamListener.js:124-138 | consecutive errors keep the listener running exactly while the count stays at most 5, each scheduling one reconnect, and stop it exactly once |
| `Listener.ErrorWhileStopped` | services/StreamListener.js:125 | an error while stopped changes nothing |
| `Listener.TimerAfterStopReconnects` | services/StreamListener.js:137 | a reconnect timer that fires after a stop still opens a source |
| `Listener.StreamListener.constructor` | services/StreamListener.js:9-18 | a new listener is stopped, with retry count 0, no stored categories and empty weather |
| `Listener.StreamListener.GetStatus` | services/StreamListener.js:151-157 | the status reports the running flag, the retry count and the URL |
| `Listener.StreamListener.Start` | services/StreamListener.js:20-29 | the fields follow the start transition; nothing else changes |
| `Listener.StreamListener.Stop` | services/StreamListener.js:140-149 | the fields follow the stop transition and its status effect |
| `Listener.StreamListener.Retry` | services/StreamListener.js:124-138 | the fields follow the error transition, with a stopped status when it gives up |
| `Listener.StreamListener.TimerFires` | services/StreamListener.js:137 | a fired reconnect opens the source |
| `Listener.StreamListener.HandleData` | services/StreamListener.js:55-103 | the new diff state, the effects and the retry count are those of the per-event rule |
| `Listener.StreamListener.HandleWeatherData` | services/StreamListener.js:105-122 | the new weather, the effects and the retry count are those of the weather rule |
| `Listener.DiffPass` | services/StreamListener.js:60-93 | the loop over the categories computes the diff, stopping at the first throw |
| `Listener.VisitCategory` | services/StreamListener.js:61-92 | one category's visit follows the three-way rule |
| `Listener.NewItemsOf` | services/StreamListener.js:72-76 | the filter returns the new items |
| `ConfigStore.ChannelKeepsOtherColumns` | commands/setup.js:48-56 | setting the channel creates the row when absent; otherwise it keeps the hide flag and owner, and leaves other guilds untouched |
| `ConfigStore.HideKeepsOtherColumns` | commands/setup.js:86-94 | setting the hide flag creates the row when absent; otherwise it keeps the channel and owner, and leaves other guilds untouched |
| `ConfigStore.ChannelAndHideCommute` | commands/setup.js:86-94 | the two upserts touch different columns, so their order does not matter |
| `ConfigStore.UpsertsIdempotent` | commands/setup.js:48-56 | repeating an upsert changes nothing more |
| `ConfigStore.DeleteRemovesOnlyThatRow` | commands/setup.js:103-105 | a delete removes that guild's row and no other |
| `ConfigStore.GuildInsertKeepsConfig` | services/DiscordService.js:54-59 | registering a guild keeps an existing row; a new row belongs to the registering worker |
| `ConfigStore.SetupFirstRowIsUnowned` | services/DiscordService.js:134-137 | a row first created by `/setup` has no worker, so no worker loads it at start-up |
| `ConfigStore.GuildConfigTable.constructor` | utils/Database.js:23-29 | the table starts empty |
| `ConfigStore.GuildConfigTable.UpsertChannel` | commands/setup.js:48-56 | a failed statement changes nothing; otherwise the channel upsert takes effect |
| `ConfigStore.GuildConfigTable.UpsertHide` | commands/setup.js:86-94 | a failed statement changes nothing; otherwise the hide upsert takes effect |
| `ConfigStore.GuildConfigTable.InsertGuild` | services/DiscordService.js:54-59 | a failed statement changes nothing; otherwise the guild's row exists |
| `ConfigStore.GuildConfigTable.Delete` | commands/setup.js:103-105 | a failed statement changes nothing; otherwise the row is gone |
| `ConfigStore.GuildConfigTable.Get` | commands/setup.js:65-68 | a read returns the guild's row, none, or a failure |
| `SetupCommand.ChannelThenView` | commands/setup.js:45-81 | after `channel`, `view` reports that channel and the hide flag the guild had |
| `SetupCommand.HideThenView` | commands/setup.js:64-100 | after `hide`, `view` reports the flag and the channel the guild had (none for a new row) |
| `SetupCommand.ResetThenView` | commands/setup.js:102-109 | after `reset`, `view` reports that there is no configuration |
| `SetupCommand.ViewLabel` | commands/setup.js:77-79 | `view` says "Yes" exactly when the stored hide flag is set, and "No" otherwise |
| `SetupCommand.ErrorReplyIff` | commands/setup.js:111-120 | the error reply is sent exactly when a statement or reply threw and the interaction was not answered; it is the last reply; a failed statement and `view` leave the table unchanged |
| `SetupCommand.OtherGuildsUntouched` | commands/setup.js:44-110 | only the invoking guild's row can change |
| `SetupCommand.Execute` | commands/setup.js:39-121 | the table and the replies follow the subcommand's rule; an unknown subcommand does nothing |
| `Registry.RemoveKey` | services/DiscordService.js:73 | deleting keeps exactly the other keys |
| `Registry.PutStores` | services/DiscordService.js:47-52 | setting an entry stores it under its id and changes no other key; a new key goes last, an existing key keeps its place |
| `Registry.RemoveDrops` | services/DiscordService.js:73 | deleting removes that guild only and keeps the registry well formed |
| `Registry.PutThenRemove` | services/DiscordService.js:41-83 | a guild that joins and then leaves leaves the registry as it was |
| `Registry.ValuesAreEntries` | services/DiscordService.js:216-222 | the notification loop gets every registered entry, as a value, once per key |
| `Registry.ValuesPutNew` | services/DiscordService.js:47-52 | a newly joined guild is handed to the loop last |
| `Registry.LoadEntries` | services/DiscordService.js:144-160 | every selected guild that can be fetched gets its row's channel and hide flag; every other guild, including one whose fetch failed, is as it was |
| `Registry.JoinedGuildIsNotSent` | services/DiscordService.js:47-52 | a guild that has just joined has no channel, so it adds no send to the next batch |
| `Registry.RegisteredIff` | services/DiscordService.js:114-127 | a name is registered exactly when some `.js` module with both `data` and `execute` carries it |
| `Registry.LastFileWins` | services/DiscordService.js:117-127 | a registered name maps to the last such module carrying it |
| `Registry.UncarriedNameKept` | services/DiscordService.js:120-127 | modules lacking `data` or `execute` leave no trace |
| `Registry.DiscordService.constructor` | services/DiscordService.js:15-28 | the registry starts empty and the command modules are registered |
| `Registry.DiscordService.LoadCommands` | services/DiscordService.js:111-130 | the command map is the result of the registration filter |
| `Registry.DiscordService.OnGuildCreate` | services/DiscordService.js:41-65 | after a fetch the guild is set with id and name only, then its row is inserted for this worker; a failed fetch changes nothing |
| `Registry.DiscordService.OnGuildDelete` | services/DiscordService.js:67-83 | the entry is removed, then the row |
| `Registry.DiscordService.LoadGuildsFromDatabase` | services/DiscordService.js:132-166 | the registry is loaded from this worker's rows; an empty selection or a failed select changes nothing |
| `Registry.LoadPass` | services/DiscordService.js:144-160 | the loop over the selected rows computes the load |
| `Registry.DiscordService.HandleAblyMessage` | services/DiscordService.js:216-222 | the batch goes through the guild loop over the registry's values, in insertion order |
| `Registry.DiscordService.OnInteraction` | services/DiscordService.js:85-102 | a command runs exactly when the interaction is a chat-input command with a registered name, and it is that name's module |
| `StreamCommand.PushedNewestFirst` | commands/stream.js:8-13 | a new event is first and the others follow in order; the buffer never exceeds ten, and only the oldest is dropped |
| `StreamCommand.AfterAllIsMostRecent` | commands/stream.js:5-13 | after any run of events the buffer holds the ten most recent, newest first |
| `StreamCommand.SliceEnd` | commands/stream.js:51 | the slice never extends past the buffer |
| `StreamCommand.LatestShowsFirst` | commands/stream.js:50-56 | for the allowed counts, `latest` shows the first min(n, length) events, five when no count (or 0) is given and the given count otherwise, and says there are none exactly when the buffer is empty |
| `StreamCommand.EntriesNumbered` | commands/stream.js:58-60 | entry k is numbered k + 1 and shows the k-th event |
| `StreamCommand.EntryNumberReadsBack` | commands/stream.js:59 | an entry's number is a run of digits that reads back as the number |
| `StreamCommand.TruncateBounds` | commands/stream.js:65 | a description never exceeds 4096 characters; one within the limit is unchanged; a longer one keeps its first 4090 characters and ends in "..." |
| `StreamCommand.StatusReadsBack` | commands/stream.js:42 | the status field's digits read back as the buffer length |
| `StreamCommand.RecentEvents.constructor` | commands/stream.js:5 | the buffer starts empty |
| `StreamCommand.RecentEvents.Push` | commands/stream.js:8-13 | the buffer after an event is the pushed buffer, at most ten long |
| `StreamCommand.RecentEvents.Execute` | commands/stream.js:34-70 | `status` reports the length; `latest` replies "no events" exactly when the slice is empty, and otherwise the numbered, joined and truncated events; other subcommands answer nothing |

## Left out

- Discord itself is not modelled: the client, login, command deployment (the REST PUT), embeds, colours, timestamps, DMs and the other message wrappers. Sends and replies are recorded values.
- The Ably client, the worker threads and their manager, `index.js` and the event bus are not modelled. They are transport and start-up wiring with no state of their own in this core.
- All console logging, and the SIGINT handler.
- The EventSource connection is not modelled; it is a three-state value. The 5-second `setTimeout` is a count of pending reconnects.
- `JSON.parse` is not modelled; a payload is either parsed or malformed.
- `Number()` of a missing countdown (NaN) is not modelled: countdowns are integers. Non-string weather values are not modelled either.
- A category whose value is `null` is not modelled. The source stores a fresh record for it and then throws on reading its items (services/StreamListener.js:61-70). `Category` always has a countdown, so this case cannot be represented.
- The listener collects the cached guild ids and passes those strings to `MessageService`, whose loop expects guild records. The model records the hand-off as an effect. It does not model what the loop then does with strings.
- `itemLength` (services/StreamListener.js:64) is written once and never read.
- `loadedAt` timestamps are not kept.
- The filesystem reads of `loadCommands` are not modelled; the listed files are an input.
- The ready handler, which loads the registry and deploys commands, is not modelled as a unit. Its two steps are modelled separately.
- The `guild_config` table as created by utils/Database.js:23-29 has no `worker_id` or `updated_at` column, which the statements use. Whether a statement fails is therefore an input rather than a consequence of the schema.
- Rows created by `/setup` have no worker. The model shows that no worker then loads them (`ConfigStore.SetupFirstRowIsUnowned`); the start-up query is otherwise taken as written.
- The order of the rows returned by the select is an input: any listing of the worker's rows, each once.
- String lengths are counted in Unicode characters. JavaScript counts UTF-16 code units, so the 4096 limit differs for text outside the Basic Multilingual Plane.
- Role names are compared exactly, as `===` does. Only ASCII `A`-`Z` count as capitals for the split, as in the source's regular expression.
- `/stream latest` with a fractional count: `slice` truncates it. The model takes whole counts.
- The `/setup` and `/stream` reply texts are represented by reply values. The model keeps the `view` report's "Yes"/"No" and the `status` count as text.
- The worked examples "CarrotSeed" and "Watermelon" are not stated on those literal strings. The general rules they illustrate are proved: `Messaging.NormalizeTwoWords` and `Messaging.NormalizeUnchangedIff`.

## Findings

| source | as written | input that shows it | evidently intended | confidence | as-written member | corrected member |
|---|---|---|---|---|---|---|
| services/StreamListener.js:97 | `messageService = new MessageService(...)` assigns a name that is declared nowhere. Class bodies are strict code, so the assignment throws a ReferenceError. The catch swallows it, so no combined batch and no weather change is ever announced, and the retry count is never reset by a shops event. | a first `shops` event `{"seed": {"secondsUntilRestock": 300, "items": [{"name": "Carrot", "stock": 3}]}}` | the batch is handed to a `MessageService` instance, and the name stays bound for the mid-cycle branch at line 89 | high, not executed | `Listener.StrictNeverDispatches` | `Listener.StreamListener.HandleData` |
