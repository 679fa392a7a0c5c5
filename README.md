# LuminBot core, modelled in Dafny

LuminBot is a Twitch chat bot. It keeps per-channel and per-viewer state in a single JSON
document store. Every feature is a read-modify-write rule over that store:
- watch streaks;
- the first chatter of each stream;
- a feature toggle;
- custom commands with a cooldown, a user-level gate, placeholders and a per-channel
  token bucket for URL fetches;
- a linked VALORANT account, with a win/loss record, match announcements, rank parsing,
  the Radiant threshold and ability names;
- registration of new channels;
- the `@name, ` mention prefix.

The model has one module per source file. Three helper modules sit beside them:
- `Wrappers` holds `Option`.
- `Text` holds the Python string built-ins the code relies on, written out: `split`,
  `split(sep, n)`, whitespace `split()`, `strip`, `replace`, `find`, `lower`,
  `capitalize`, `isdigit`, `int`, `str`.
- `Json` holds the value type the store holds.

The store is a class, `Data.DocumentStore`. It has a map from document id to record and
the fixed order in which a full scan meets the rows. The handlers that change the store
are methods on it. Each one is proved against a specification function of the old
record and its inputs, and the rules the bot promises are lemmas about those functions.

Things the handlers get from outside are parameters:
- the Twitch user and stream ids, and whether the channel is live;
- the author's badges;
- the clock;
- the environment variables;
- the `shlex` tokens;
- every answer of the VALORANT web services.

## Model

| member | source | states |
|---|---|---|
| Json.DictOrEmpty | bot/cogs/watchstreak.py:102 | `setdefault(key, {})` and `get(key, {})` give the entry when present and `{}` otherwise, a dict either way |
| Data.Fetch | data/data.py:34-39 | a stored id reads back its record; an id with no row reads as the empty dict |
| Data.FetchAfterUpdate | data/data.py:54 | insert-or-replace overwrites the whole record: the id reads back exactly what was written, every other id reads as before |
| Data.FetchAfterDelete | data/data.py:70 | after a delete the id reads as `{}` and every other id reads as before |
| Data.Segments | data/data.py:102 | the dot-separated path splits into at least one segment, none holding a dot |
| Data.Resolve | data/data.py:103-110 | the value at the dotted path: one key per level, a dict at every level the walk goes on, null at the first missing key |
| Data.IncludedIffPresent | data/data.py:102-113 | a record is kept by a scan iff every segment is present at the successive levels and the final value is not null |
| Data.ResolvePath | data/data.py:103-110 | the segment-by-segment walk ends on the value at the path, or on null at the first missing segment |
| Data.WithKey | data/data.py:147-166 | the filtering scan: the ids, in scan order, of the rows whose path is present and not null |
| Data.WithKeyMembers | data/data.py:147-166 | an id is returned by the filtering scan iff it is a row whose path is present |
| Data.WithKeyNoDuplicates | data/data.py:16 | the filtering scan returns each id at most once, because ids are the primary key |
| Data.Ids | data/data.py:119 | the id list has one id per pair, in the pairs' order |
| Data.EntriesMatchScan | data/data.py:96-113 | the pairs the sorting scan collects carry exactly the ids of the filtering scan, each with the integer at its path |
| Data.InsertPermutes | data/data.py:116 | inserting one pair adds exactly that pair, and the head is the pair or the old head |
| Data.InsertPreserves | data/data.py:116 | inserting one pair into a descending list keeps it descending and adds exactly that pair |
| Data.SortDesc | data/data.py:116 | `sort(key=…, reverse=True)` as a stable insertion sort on the resolved values |
| Data.SortDescCorrect | data/data.py:116 | the descending sort returns a permutation of its input in non-increasing order |
| Data.WithValueCons | data/data.py:116 | the pairs of one value in a list are those of its head, then those of its tail |
| Data.InsertWithValue | data/data.py:116 | an inserted pair goes in front of its ties |
| Data.SortDescStable | data/data.py:116 | pairs with equal values keep their scan order (Python's sort is stable even when reversed) |
| Data.SortedIds | data/data.py:113-119 | the sorting scan: the ids of the filtering scan's pairs after the descending sort |
| Data.SortedIdsPermutation | data/data.py:113-119 | the sorting scan returns exactly the ids of the filtering scan, rearranged |
| Data.SortedEntriesFaithful | data/data.py:113-119 | after sorting, each pair is still a row's id with its resolved value, in non-increasing order |
| Data.SortedIdsDescending | data/data.py:113-119 | the sorted ids are rows whose paths hold integers, in non-increasing order of those integers |
| Data.IdsCons | data/data.py:119 | the ids of a list are the head's id followed by the ids of the tail |
| Data.IdsInsert | data/data.py:116-119 | inserting a pair adds its id to the multiset of ids |
| Data.IdsSortDesc | data/data.py:116-119 | sorting keeps the multiset of ids |
| Data.OrderAfterWrite | data/data.py:41-56 | the scan order after an insert-or-replace: a stored id keeps its place, a new one joins the end |
| Data.DocumentStore.constructor | data/data.py:8-21 | a new table is empty |
| Data.DocumentStore.GetData | data/data.py:23-39 | returns the stored record, or `{}` for an absent id |
| Data.DocumentStore.UpdateData | data/data.py:41-56 | replaces the whole record; the scan order becomes `OrderAfterWrite` of the old order |
| Data.DocumentStore.DeleteData | data/data.py:58-72 | removes exactly that id from the table and from the scan order |
| Data.DocumentStore.GetDocumentsWithKey | data/data.py:125-169 | the loop returns the filtering scan of its path |
| Data.DocumentStore.GetSortedDocumentIds | data/data.py:74-122 | the loop returns the sorting scan of its path |
| FeatureToggle.DisabledList | bot/cogs/feature_toggle.py:47-48 | the stored list, or the empty list the command creates when it is absent |
| FeatureToggle.Decide | bot/cogs/feature_toggle.py:15-62 | the reply: silent to anyone but a moderator or the broadcaster; a crash with no argument or one word; an unknown action or feature refused; otherwise enable or disable against the stored list |
| FeatureToggle.WithDisabled | bot/cogs/feature_toggle.py:64 | the record written back holds the new list and every other key as it was |
| FeatureToggle.ApplyToggle | bot/cogs/feature_toggle.py:50-64 | for a checked feature, the reply follows from whether it is listed; the new list is written only on success, with the scan order of a write, and nothing changes otherwise |
| FeatureToggle.ToggleFeature | bot/cogs/feature_toggle.py:15-64 | the reply is that of the specification; the list with the feature removed or appended is written only on success, with the scan order of a write; otherwise neither the records nor the order change |
| FeatureToggle.ToggleKeepsClean | bot/cogs/feature_toggle.py:47-61 | from a duplicate-free list of known features, both actions keep it duplicate-free and within the known features |
| FeatureToggle.AcceptedIffState | bot/cogs/feature_toggle.py:50-61 | enable is accepted exactly when the feature is disabled, and disable exactly when it is not; anyone but a moderator or the broadcaster gets silence |
| FeatureToggle.LowerOfLower | bot/cogs/feature_toggle.py:36-40 | lower-casing text that has no upper-case letters changes nothing |
| FeatureToggle.FeatureNames | bot/cogs/feature_toggle.py:20-33 | the known features are lower case and hold no space |
| FeatureToggle.CommandWords | bot/cogs/feature_toggle.py:35 | `action feature` splits into exactly those two words |
| FeatureToggle.DecideWords | bot/cogs/feature_toggle.py:35-62 | a moderator typing enable/disable for a known feature gets the reply the list's state calls for |
| FeatureToggle.EnableTyped | bot/cogs/feature_toggle.py:35-57 | a moderator typing `enable f` for a disabled known feature gets it enabled |
| FeatureToggle.DisableTyped | bot/cogs/feature_toggle.py:35-62 | a moderator typing `disable f` for an enabled known feature gets it disabled |
| FeatureToggle.EnabledList | bot/cogs/feature_toggle.py:54-57 | enabling removes exactly one copy of the feature from a duplicate-free list, and it is then off the list |
| FeatureToggle.DisableThenEnable | bot/cogs/feature_toggle.py:54-61 | disabling and then enabling a feature restores the list exactly |
| FeatureToggle.EnableThenDisable | bot/cogs/feature_toggle.py:54-61 | enabling and then disabling a feature gives the same features, with that one moved to the end |
| Watchstreak.StreamerKey | bot/cogs/watchstreak.py:46 | a user's entry key never clashes with the channel record's own keys, and holds no dot when the id has none |
| Watchstreak.StreakOf | bot/cogs/watchstreak.py:130-131 | the streak is present exactly when the record holds one for the channel |
| Watchstreak.Advance | bot/cogs/watchstreak.py:106-111 | on a new stream the current stream becomes the last and the live stream the current; the record's other keys are untouched |
| Watchstreak.Lapse | bot/cogs/watchstreak.py:120-121 | lapsing keeps the record's shape |
| Watchstreak.Sweep | bot/cogs/watchstreak.py:115-122 | the sweep keeps every id and every record's shape |
| Watchstreak.LapseRemovesOnlyStreak | bot/cogs/watchstreak.py:120-122 | a lapse deletes only the `watchstreak` of a stale entry; `latest_stream` and the other keys are kept, and a fresh record is untouched |
| Watchstreak.SweepLeavesFresh | bot/cogs/watchstreak.py:117-122 | after the sweep every remaining streak was last credited in the last or the current stream |
| Watchstreak.StreakPath | bot/cogs/watchstreak.py:115 | the scan path `streamer-<id>.watchstreak` splits into the entry key and `watchstreak` |
| Watchstreak.StreakScan | bot/cogs/watchstreak.py:115 | the scan keeps exactly the records holding a streak, with that streak as the value |
| Watchstreak.StreakScannable | bot/cogs/watchstreak.py:59 | both scans are defined on a shaped store and see only integers |
| Watchstreak.CreditUser | bot/cogs/watchstreak.py:127-164 | after a credit the author holds a streak last credited in the live stream; the record's other keys are untouched |
| Watchstreak.CreditRule | bot/cogs/watchstreak.py:129-155 | an incomplete entry restarts at 1; the same stream changes nothing; an unbroken chain adds 1; a broken one restarts at 1 |
| Watchstreak.MilestoneRule | bot/cogs/watchstreak.py:153-158 | the announcement goes out exactly when a chain is extended to a multiple of 5, and names the new streak |
| Watchstreak.CreditOncePerStream | bot/cogs/watchstreak.py:145-146 | a second credit for the same stream changes nothing and announces nothing |
| Watchstreak.Swept | bot/cogs/watchstreak.py:102-122 | the history update and sweep keep each user's entry shaped |
| Watchstreak.SweepSomeStep | bot/cogs/watchstreak.py:117-122 | visiting one more record applies the lapse rule to it alone |
| Watchstreak.SweepSomeAll | bot/cogs/watchstreak.py:117-122 | once every record with a streak is visited, the partial sweep is the whole sweep |
| Watchstreak.StreakIds | bot/cogs/watchstreak.py:115 | the scanned ids are exactly the records with a streak, each at most once |
| Watchstreak.LapseRecord | bot/cogs/watchstreak.py:118-122 | one visit writes the lapsed record and nothing else |
| Watchstreak.SweepVisit | bot/cogs/watchstreak.py:117-122 | one turn of the loop moves the store from one partial sweep to the next |
| Watchstreak.SweepIds | bot/cogs/watchstreak.py:117-122 | visiting a duplicate-free list of exactly the records with a streak leaves the store equal to the sweep |
| Watchstreak.SweepStreaks | bot/cogs/watchstreak.py:115-122 | the loop over the scanned ids leaves the store equal to the sweep |
| Watchstreak.CreditAuthor | bot/cogs/watchstreak.py:127-164 | the author's record becomes the credited record and the milestone is the rule's; the scan order gains the author only when the author is new |
| Watchstreak.OnMessage | bot/cogs/watchstreak.py:77-164 | the store, the announcement and the scan order after one message are those of the specification |
| Watchstreak.StepOrder | bot/cogs/watchstreak.py:102-164 | the scan order after one message: unchanged when quiet; otherwise the channel's write on a new stream, then the author's write |
| Watchstreak.StepOrderRows | bot/cogs/watchstreak.py:102-164 | a credited message leaves the order alone when channel and author are stored, and appends the channel then the author when both are new |
| Watchstreak.UpdateHistory | bot/cogs/watchstreak.py:102-122 | the history update, and on a new stream the sweep, leave the store as specified and return the previous stream; the order gains the channel only on a new stream when the channel is new |
| Watchstreak.Step | bot/cogs/watchstreak.py:77-164 | one message: nothing on a quiet message; otherwise the history update and sweep, then the author's credit written back with its milestone |
| Watchstreak.QuietChangesNothing | bot/cogs/watchstreak.py:79-99 | commands, a disabled feature, a missing author and an offline channel change nothing |
| Watchstreak.HistoryRule | bot/cogs/watchstreak.py:103-113 | the history shifts by one exactly on a new stream, and nothing changes otherwise |
| Watchstreak.SweepRule | bot/cogs/watchstreak.py:106-122 | the sweep runs only on a new stream, and then lapses each user record by the new history |
| Watchstreak.CreditKeepsChannel | bot/cogs/watchstreak.py:161-164 | writing the author's record keeps the channel's history and feature list |
| Watchstreak.SweptShapedFresh | bot/cogs/watchstreak.py:102-122 | after a new stream's update the store is shaped, every streak is fresh, and the history is the shifted one |
| Watchstreak.StepKeepsFresh | bot/cogs/watchstreak.py:77-164 | every message keeps the store shaped and every streak fresh |
| Watchstreak.StepOncePerStream | bot/cogs/watchstreak.py:145-146 | the same message again changes nothing and announces nothing: one credit per stream |
| Watchstreak.WatchstreakCommand | bot/cogs/watchstreak.py:19-73 | a disabled feature is silent; no argument shows the author's streak or none; `top` shows the first ten of the streak board; anything else is silent |
| Watchstreak.StreakBoardCorrect | bot/cogs/watchstreak.py:59-70 | the board lists at most ten streaks, in non-increasing order, each the channel streak of its user |
| Firsts.FirstsKey | bot/cogs/firsts.py:70 | a user's count key never clashes with the channel's keys, and holds no dot when the id has none |
| Firsts.MarkFirst | bot/cogs/firsts.py:149-151 | the channel records the live stream as credited and the author as first person; its other keys are untouched |
| Firsts.AddFirst | bot/cogs/firsts.py:154-159 | the author's count rises by one from its old value, 0 when absent, and every other key is untouched |
| Firsts.CreditFirst | bot/cogs/firsts.py:154-161 | writes the author's record with one more first and returns the new count; the order gains the author only when the author is new |
| Firsts.MarkChannel | bot/cogs/firsts.py:146-151 | the channel's record becomes the marked one and the order gains the channel only when it is new |
| Firsts.CreditStream | bot/cogs/firsts.py:143-161 | past the credited check: the channel marked, then the author credited, as the credit rule and its order say |
| Firsts.Credit | bot/cogs/firsts.py:143-161 | the credit rule (proved in FirstRule): nothing for a stream already credited; otherwise the channel marked and the author's count raised by one and announced |
| Firsts.CreditUnfold | bot/cogs/firsts.py:146-161 | for a stream not yet credited, the credit is the marked channel plus the author's raised count |
| Firsts.CreditOrder | bot/cogs/firsts.py:143-161 | the scan order after a credit: the channel's write, then the author's |
| Firsts.StepOrder | bot/cogs/firsts.py:108-164 | the scan order after one message: unchanged when quiet or already credited; otherwise the credit's order |
| Firsts.StepOrderRows | bot/cogs/firsts.py:143-161 | a credit leaves the order alone when channel and author are stored, and appends the channel then the author when both are new |
| Firsts.Step | bot/cogs/firsts.py:108-164 | one message: nothing when quiet or when the stream is already credited; otherwise the channel marked, the author's count raised by one and announced |
| Firsts.OnMessage | bot/cogs/firsts.py:108-164 | the store, the announced count and the scan order after one message are those of the specification |
| Firsts.QuietChangesNothing | bot/cogs/firsts.py:115-140 | commands, a disabled feature, no author, known bots and offline channels change nothing |
| Firsts.FirstRule | bot/cogs/firsts.py:143-161 | a stream already credited changes nothing; otherwise the live stream and the author are recorded, the count rises by one, and the announcement names it |
| Firsts.OneFirstPerStream | bot/cogs/firsts.py:146-152 | after one credit, nobody else is credited in the same stream |
| Firsts.BasicFirsts | bot/cogs/firsts.py:66-81 | `!first` shows 0 firsts and "None" as first person when the data is absent |
| Firsts.CountScan | bot/cogs/firsts.py:93 | the scan keeps exactly the users with a count, with that count as value |
| Firsts.CountScannable | bot/cogs/firsts.py:93 | the path `streamer_<id>_firsts.firsts` splits into the two keys, and the sorting scan is defined on it |
| Firsts.FirstsCommand | bot/cogs/firsts.py:24-105 | a disabled feature is silent; no argument gives the basic reply; `top` gives the first ten of the board; anything else is silent |
| Firsts.FirstsBoardCorrect | bot/cogs/firsts.py:93-103 | the board lists at most ten counts, in non-increasing order, each the count of its user |
| Register.WithAccount | bot/cogs/register.py:38-46 | the list gets the author's id appended, creating it when absent; every other key is untouched |
| Register.Decide | bot/cogs/register.py:17-43 | silent unless BOT_PUBLIC is "true" and the command comes from the bot's own channel; a crash without TWITCH_NICK; the bot itself refused; a linked id refused; otherwise registered |
| Register.RegisterAccount | bot/cogs/register.py:17-50 | the reply is the rule's; only a registration writes, appending the id, with the scan order of a write; otherwise nothing changes |
| Register.RegisterKeepsUnique | bot/cogs/register.py:41-46 | a registration keeps the list duplicate-free and adds exactly the author's id |
| Register.RegisterOnce | bot/cogs/register.py:41-43 | registering the same account again is refused |
| Register.RegisterGate | bot/cogs/register.py:24-34 | only BOT_PUBLIC "true", the bot's own channel and another author reach the list |
| AddMention.ProcessMention | bot/utilities/add_mention.py:12-19 | no argument gives ""; otherwise the result starts with '@' and ends with ", ", its length is `len(arg)+2` after an '@' and `len(arg)+3` otherwise, and it holds the argument |
| AddMention.MentionNotDoubled | bot/utilities/add_mention.py:15-19 | a name and its '@' form give the same mention: the '@' is never doubled |
| CustomCommands.Commands | bot/cogs/custom_commands.py:58 | `get("commands", {})`: every command it holds is shaped, and it is empty when the key is absent |
| CustomCommands.WithCommands | bot/cogs/custom_commands.py:86 | the record written back holds the new dict and every other key as it was |
| CustomCommands.WithOwnCommands | bot/cogs/custom_commands.py:178-179 | writing back the dict a record already holds leaves it unchanged |
| CustomCommands.NewEntry | bot/cogs/custom_commands.py:77-84 | a new command has usage 0, level Everyone, cooldown 5, last used now and no aliases |
| CustomCommands.AddOutcome | bot/cogs/custom_commands.py:51-88 | `add`: silent to non-moderators; a missing name or message refused; a lower-cased name already in use refused; otherwise the new command with its defaults |
| CustomCommands.ParseLevelAsWritten | bot/cogs/custom_commands.py:152-155 | as written, a level is accepted iff its capitalised form is in the level list, and that form is stored |
| CustomCommands.CapitalizeNeverVip | bot/cogs/custom_commands.py:152 | no capitalised string is "VIP" |
| CustomCommands.AsWrittenNeverVip | bot/cogs/custom_commands.py:152-155 | as written, the VIP level can never be set |
| CustomCommands.ParseLevel | bot/cogs/custom_commands.py:14-18 | the intended parse: a level whose name matches the argument in any case, or none when no level does |
| CustomCommands.LevelNames | bot/cogs/custom_commands.py:14-18 | the lower-case forms of the five level names |
| CustomCommands.LowerCapitalize | bot/cogs/custom_commands.py:152 | lower-casing after capitalising is lower-casing |
| CustomCommands.ParseLevelAcceptsEveryLevel | bot/cogs/custom_commands.py:14-18 | the intended parse accepts every level in its own and in lower case, VIP included |
| CustomCommands.ParseLevelExtendsAsWritten | bot/cogs/custom_commands.py:152-155 | wherever the code as written accepts a level, the intended parse picks the same one |
| CustomCommands.AliasList | bot/cogs/custom_commands.py:172 | one alias string per comma-separated piece |
| CustomCommands.EditEntry | bot/cogs/custom_commands.py:145-172 | an edit replaces one field of one command; the names and the other commands are kept |
| CustomCommands.SubOutcome | bot/cogs/custom_commands.py:132-179 | the sub-command of `edit`: message, userlevel (capitalised and looked up as written), cooldown (digits only), aliases (a missing value crashes when the command has no alias list); anything else writes the dict back unchanged |
| CustomCommands.EditOutcome | bot/cogs/custom_commands.py:90-179 | `edit`: silent to non-moderators; no name refused; no `commands` key crashes; an unknown name refused; no sub-command shows the aliases, or crashes when there is no alias list; otherwise the sub-command rule |
| CustomCommands.RemoveOutcome | bot/cogs/custom_commands.py:181-215 | `remove`: silent to non-moderators; no name refused; no `commands` key crashes; an unknown name refused; otherwise the command deleted |
| CustomCommands.ListOutcome | bot/cogs/custom_commands.py:218-244 | `list`: silent to non-moderators; no commands says so; otherwise the names |
| CustomCommands.Args | bot/cogs/custom_commands.py:264-265 | the argument splits into one to three parts |
| CustomCommands.Dispatch | bot/cogs/custom_commands.py:248-278 | `!cmd`: silent when the feature is disabled; usage with no argument; add, edit, remove and list by the lower-cased first word, the others refused |
| CustomCommands.WriteCommands | bot/cogs/custom_commands.py:86 | the channel record is written back with the new dict, and the scan order is that of a write |
| CustomCommands.AddCommand | bot/cogs/custom_commands.py:51-88 | the reply and the write are those of the add rule; the scan order changes only with a write |
| CustomCommands.EditCommand | bot/cogs/custom_commands.py:90-179 | the reply and the write are those of the edit rule as written (VIP refused, a missing alias list crashes); the scan order changes only with a write |
| CustomCommands.EditFields | bot/cogs/custom_commands.py:132-179 | the sub-command part writes what the sub-command rule says, as written; the scan order changes only with a write |
| CustomCommands.RemoveCommand | bot/cogs/custom_commands.py:181-215 | the reply and the write are those of the remove rule; the scan order changes only with a write |
| CustomCommands.ListCommands | bot/cogs/custom_commands.py:218-244 | lists exactly the command names, and only when there are some |
| CustomCommands.CmdCommand | bot/cogs/custom_commands.py:248-278 | the reply and the write of `!cmd` are those of the dispatch rule; the scan order changes only with a write |
| CustomCommands.DispatchKeepsShaped | bot/cogs/custom_commands.py:51-278 | every handler writes back only well-shaped commands |
| CustomCommands.SubKeepsShaped | bot/cogs/custom_commands.py:140-176 | an edit keeps the edited command well shaped |
| CustomCommands.OnlyModeratorsWrite | bot/cogs/custom_commands.py:54-55 | only a moderator or the broadcaster changes the commands, and only while the feature is on |
| CustomCommands.AddRule | bot/cogs/custom_commands.py:60-84 | add succeeds exactly for a name and message with an unused lower-cased name, creating it with the defaults and changing nothing else |
| CustomCommands.AddThenRemove | bot/cogs/custom_commands.py:77-84 | removing a command just added gives back the dict as it was |
| CustomCommands.RemoveRule | bot/cogs/custom_commands.py:199-213 | remove deletes exactly the named command, and rejects an unknown name |
| CustomCommands.EditRemoveNeedCommands | bot/cogs/custom_commands.py:114 | edit and remove on a record that never had commands raise instead of replying; add does not |
| CustomCommands.EditTouchesOne | bot/cogs/custom_commands.py:140-179 | an accepted edit keeps the command names and every other command |
| CustomCommands.CooldownRule | bot/cogs/custom_commands.py:158-166 | a cooldown edit is accepted exactly for a string of digits, and stores its value |
| CustomCommands.UserLevelRule | bot/cogs/custom_commands.py:148-156 | a user-level edit is accepted iff the argument is non-empty and its capitalised form is one of the levels; that form is stored, so "VIP" is never stored; anything else is refused and nothing is written |
| CustomCommands.EditRefusesVip | bot/cogs/custom_commands.py:152-155 | `userlevel vip` and `userlevel VIP` are both refused as an invalid level |
| CustomCommands.NoAliasesCrash | bot/cogs/custom_commands.py:120-170 | for a command with no alias list, `edit name` and `edit name aliases` raise instead of replying |
| CustomCommands.AliasesClean | bot/cogs/custom_commands.py:172 | every stored alias is stripped and holds no comma |
| CustomCommands.StripWithin | bot/cogs/custom_commands.py:172 | every character of a stripped string comes from the original string |
| CustomCommands.ToggleNeverDisables | bot/cogs/custom_commands.py:253-257 | a disabled list the toggle command keeps never turns custom commands off, because "customcommands" is not a feature it knows |
| CustomCommands.BadSubWritesSame | bot/cogs/custom_commands.py:175-179 | an unknown sub-command writes the record back unchanged |
| CommandEvents.LevelIndex | bot/cogs/custom_commands.py:327 | `USER_LEVELS.index`: the position that holds the level |
| CommandEvents.AuthorLevel | bot/cogs/custom_commands.py:328-337 | the author's level is the highest their badges give, Everyone without any |
| CommandEvents.FirstMatch | bot/cogs/custom_commands.py:310-313 | the first command in dict order whose name or alias is the word, or none when no command matches |
| CommandEvents.NameAlwaysMatches | bot/cogs/custom_commands.py:311 | a word that is a command's own name always finds a command |
| CommandEvents.FindCommand | bot/cogs/custom_commands.py:310-313 | the search loop finds the first match |
| CommandEvents.SplitOnceAtFirst | bot/cogs/custom_commands.py:373 | splitting once at a space gives the text before and after the first space |
| CommandEvents.Touser | bot/cogs/custom_commands.py:373 | `{touser}` is the stripped rest after the first space, or `@author` without a space |
| CommandEvents.PlainTemplate | bot/cogs/custom_commands.py:377-378 | a message without placeholders is sent as it is |
| CommandEvents.NoBraceInNumber | bot/cogs/custom_commands.py:372 | the count's text holds no brace |
| CommandEvents.CountPlaceholder | bot/cogs/custom_commands.py:372-378 | `{count}` becomes the count |
| CommandEvents.UserPlaceholder | bot/cogs/custom_commands.py:374-378 | `{user}` becomes `@author` |
| CommandEvents.TouserPlaceholder | bot/cogs/custom_commands.py:373-378 | `{touser}` becomes the `{touser}` text, unless that text holds `{user}` |
| CommandEvents.TouserLacksCount | bot/cogs/custom_commands.py:371-375 | `{touser}` holds no `{count}` |
| CommandEvents.Placeholders | bot/cogs/custom_commands.py:368-378 | invisible characters dropped from the message, then `{count}`, `{touser}` and `{user}` replaced in turn |
| CommandEvents.TouserOfRest | bot/cogs/custom_commands.py:373 | for a command word, a space and a trimmed rest, `{touser}` is that rest |
| CommandEvents.TouserThenUser | bot/cogs/custom_commands.py:377-378 | for every template-free `{touser}` command, the result is the `{touser}` text with each `{user}` in it turned into the author: the replacements run in turn |
| CommandEvents.ShoutoutOfUser | bot/cogs/custom_commands.py:373-378 | `!so {user}` on a template `{touser}` sends `@author` |
| CommandEvents.TryFetch | bot/cogs/custom_commands.py:390-405 | a bucket that was never refilled, or was refilled over 60 s ago, is refilled to 3 first; a token is taken only when one is left; tokens stay within 0..3 |
| CommandEvents.FetchAll | bot/cogs/custom_commands.py:384-416 | the fetch loop keeps the bucket within bounds |
| CommandEvents.Attempts | bot/cogs/custom_commands.py:388-405 | the bucket after a run of attempts and, for each, whether it was granted; a bucket in bounds stays in bounds |
| CommandEvents.CountTrue | bot/cogs/custom_commands.py:388-405 | the number of granted attempts |
| CommandEvents.Grants | bot/cogs/custom_commands.py:388-405 | how many of a run of attempts the bucket grants |
| CommandEvents.Fill | bot/cogs/custom_commands.py:384-416 | each match replaced, in turn, by its fetched text where granted and by the rate-limit text elsewhere |
| CommandEvents.FetchAllAttempts | bot/cogs/custom_commands.py:384-416 | the fetch loop is the attempts at the matches' clock readings: its bucket is theirs, and its text is filled by their grants |
| CommandEvents.Times | bot/cogs/custom_commands.py:390 | the clock readings, one per match, in order |
| CommandEvents.GrantsInWindow | bot/cogs/custom_commands.py:393-405 | within one window the attempts grant as many fetches as the bucket has tokens, and no more |
| CommandEvents.AtMostRateLimitPerWindow | bot/cogs/custom_commands.py:21-22 | a bucket refilled at the start of a window grants at most 3 attempts until the window passes |
| CommandEvents.FetchAllAtMostRateLimit | bot/cogs/custom_commands.py:384-416 | on a bucket refilled at the start of a window, the fetch loop lets at most 3 of its matches through within that window |
| CommandEvents.FreshBucketAtMostRateLimit | bot/cogs/custom_commands.py:384-416 | a channel's first message with urlfetch matches within one window fetches at most 3 of them |
| CommandEvents.GrantedAfterWindow | bot/cogs/custom_commands.py:393-405 | once the window has passed, the next attempt is granted and leaves 2 tokens |
| CommandEvents.UrlFetchBuckets.constructor | bot/cogs/custom_commands.py:34 | no channel has a bucket yet |
| CommandEvents.UrlFetchBuckets.BucketOf | bot/cogs/custom_commands.py:34 | an unseen channel gets the default bucket; every bucket is within bounds |
| CommandEvents.UrlFetchBuckets.Acquire | bot/cogs/custom_commands.py:389-405 | the locked section changes only this channel's bucket, as one fetch attempt does |
| CommandEvents.ReplaceUrls | bot/cogs/custom_commands.py:380-418 | the `{urlfetch}` loop gives the fetch loop's text and bucket |
| CommandEvents.Used | bot/cogs/custom_commands.py:344-351 | a use adds one to the count and sets last used to now; the other fields are kept |
| CommandEvents.Process | bot/cogs/custom_commands.py:316-352 | one use: silent inside the cooldown, refused below the level, else the placeholders and fetches filled in and the use recorded |
| CommandEvents.ProcessCommand | bot/cogs/custom_commands.py:316-352 | the result and the write of one use are those of the specification; the scan order changes only with a use |
| CommandEvents.Respond | bot/cogs/custom_commands.py:281-313 | one chat message: ignored when the feature is off, a crash on an empty message, ignored when no command matches the first word, else that command's use |
| CommandEvents.HandleCommandMessage | bot/cogs/custom_commands.py:281-313 | the result and the write for one chat message are those of the specification; on a use the channel's bucket is the fetch loop's over the matched command's filled-in text; nothing else changes |
| CommandEvents.SentRule | bot/cogs/custom_commands.py:323-341 | a command is sent only past its cooldown, and only to an author of at least its level |
| CommandEvents.BroadcasterNeverDenied | bot/cogs/custom_commands.py:336-341 | the broadcaster passes every level check |
| CommandEvents.CooldownBlocksReuse | bot/cogs/custom_commands.py:323-324 | after a use, the command stays silent until its cooldown has passed |
| CommandEvents.CountShown | bot/cogs/custom_commands.py:344-346 | `{count}` shows the count stored with the use |
| CommandEvents.TypedNameResponds | bot/cogs/custom_commands.py:304-313 | a message whose first word is a command's name runs a command, unless the feature is off |
| Valorant.WithSection | bot/cogs/valorant.py:72-75 | the record written back holds the new `valorant` dict |
| Valorant.SetOutcome | bot/cogs/valorant.py:24-68 | a link happens only for `region user` split at the first space, with a known region in any case, a '#' in the user and at most 25 characters |
| Valorant.SetAccepts | bot/cogs/valorant.py:44-68 | every valid region and user typed as `region user` is linked as typed |
| Valorant.LinkedRecord | bot/cogs/valorant.py:72-75 | linking sets the two account fields and keeps the rest of the `valorant` dict |
| Valorant.ValorantSet | bot/cogs/valorant.py:24-79 | the reply is the rule's; only a link writes, storing user and region as typed, with the scan order of a write |
| Valorant.ValorantUnset | bot/cogs/valorant.py:85-105 | a moderator's unset replaces the whole `valorant` dict with `{}`, with the scan order of a write; anyone else changes nothing |
| Valorant.AccountOf | bot/cogs/valorant.py:124-132 | an account is read only from a non-empty record with both keys, and its name splits into exactly two '#'-free parts that join back to it |
| Valorant.LinkThenAccount | bot/cogs/valorant.py:72-75 | after linking a name with one '#', the handlers read back exactly that account |
| Valorant.LinkedButUnusable | bot/cogs/valorant.py:129-132 | a name with more than one '#' is stored, but no handler can use it |
| Valorant.UnsetForgets | bot/cogs/valorant.py:103-105 | after unlinking there is no account |
| Valorant.Recent | bot/cogs/valorant.py:148-151 | the counted games are a sub-list of the history, in its order |
| Valorant.Wins | bot/cogs/valorant.py:150-153 | the number of games in the list with a rating change of at least 1 |
| Valorant.Losses | bot/cogs/valorant.py:150-155 | the number of games in the list with a rating change of 0 or less |
| Valorant.Total | bot/cogs/valorant.py:150-157 | the sum of the rating changes of the games in the list |
| Valorant.Direction | bot/cogs/valorant.py:159-162 | "down" iff the difference is at most 0, "up" iff it is positive |
| Valorant.RecentStep | bot/cogs/valorant.py:148-157 | one more game adds to the tallies exactly when it counts |
| Valorant.Tally | bot/cogs/valorant.py:142-157 | the loop's wins, losses and difference are those of the games played within twelve hours |
| Valorant.WinsPlusLosses | bot/cogs/valorant.py:152-155 | each counted game is exactly one win or one loss |
| Valorant.RecentMembers | bot/cogs/valorant.py:148-151 | a game counts iff it was played at most twelve hours ago |
| Valorant.UpNeedsWin | bot/cogs/valorant.py:152-157 | a positive difference needs at least one win |
| Valorant.OnlyWinsUp | bot/cogs/valorant.py:152-157 | with no losses the difference is at least the number of wins |
| Valorant.Record | bot/cogs/valorant.py:110-164 | no usable account is silent; a failed request gives its status; otherwise the summary names the account and carries the tallies and their up-or-down direction |
| Valorant.CheckOutcome | bot/cogs/valorant.py:206-241 | skipped for another game, no account or a failed answer; a crash on an empty history; skipped when the newest match is remembered; else that match announced |
| Valorant.Remember | bot/cogs/valorant.py:240 | the record remembers the new match id |
| Valorant.CheckStream | bot/cogs/valorant.py:206-241 | the result is the dedup rule's, and the new match id is written before the announcement, with the scan order of a write |
| Valorant.RememberKeepsAccount | bot/cogs/valorant.py:240-241 | remembering a match keeps the linked account |
| Valorant.NoDoubleAnnounce | bot/cogs/valorant.py:230-241 | once a match is announced, a later check with the same newest match skips it |
| Valorant.AnnouncesOnlyNew | bot/cogs/valorant.py:206-237 | an announcement is for a VALORANT stream with an account and a good answer, and of a match other than the remembered one |
| Valorant.Rating500 | bot/cogs/valorant.py:450 | the rating of the first row at place 500, or none exactly when no row has that place |
| Valorant.RadiantRR | bot/cogs/valorant.py:438-452 | the threshold is the place-500 rating but never below 450, and is one of the two |
| Valorant.RadiantCommand | bot/cogs/valorant.py:167-191 | no record or no region is silent; otherwise the reply is the threshold, at least 450; a board without place 500 raises |
| Valorant.DropLast3 | bot/cogs/valorant.py:323 | `s[:-3]`: the text without its last three characters, empty when shorter |
| Valorant.ParseRank | bot/cogs/valorant.py:317-337 | the rank text split into words: Immortal with tier, RR and distance to Radiant (the threshold minus the RR, present only when a threshold was found); Radiant with RR; any other rank with tier and RR; a crash when words are missing or not numbers |
| Valorant.GetRank | bot/cogs/valorant.py:282-339 | none exactly when there is no usable account; a failed request gives its status; an Immortal's distance is to the threshold read from the region's board, so RR plus distance is at least 450 |
| Valorant.NumberNoSpace | bot/cogs/valorant.py:317 | a number's text is one word |
| Valorant.RRToken | bot/cogs/valorant.py:323 | a number followed by three characters parses back to that number after `[:-3]` |
| Valorant.TokenNoSpace | bot/cogs/valorant.py:317 | a number with a space-free suffix is one word |
| Valorant.FourWords | bot/cogs/valorant.py:317 | four space-free words joined by spaces split back into those four |
| Valorant.RankWords | bot/cogs/valorant.py:317-337 | `rank tier - rrRR.` splits into four words: the rank, the tier's text and the RR token that `[:-3]` turns back into the RR |
| Valorant.ParseTiered | bot/cogs/valorant.py:333-337 | a tiered rank written as `rank tier - rrRR.` reads back as that rank, tier and RR |
| Valorant.ParseImmortal | bot/cogs/valorant.py:321-327 | an Immortal rank reads back with its distance to the Radiant threshold |
| Valorant.RadiantSplit | bot/cogs/valorant.py:317 | `Radiant - ` followed by any single word splits into exactly those three words |
| Valorant.RadiantWords | bot/cogs/valorant.py:317-331 | `Radiant - <rr>RR.` splits into exactly three words, `Radiant`, `-` and a token whose last three characters dropped parse back to the RR |
| Valorant.ParseRadiant | bot/cogs/valorant.py:330-332 | a Radiant rank written as `Radiant - rrRR.` reads back as Radiant with that RR |
| Valorant.AgentKeys | bot/cogs/valorant.py:466-489 | every agent of the table has exactly the e, q and c keys |
| Valorant.AgentValues | bot/cogs/valorant.py:466-495 | no ability of the table is named like one of the fallback texts |
| Valorant.Ability | bot/cogs/valorant.py:492-497 | the table's ability for the agent and key; otherwise "Ultimate" for x and the error text for any other key |
| Valorant.UltimateIffX | bot/cogs/valorant.py:492-495 | "Ultimate" comes back exactly for the x key |
| Valorant.InvalidIff | bot/cogs/valorant.py:492-497 | the error text comes back exactly for a key other than x that the agent's table lacks |

## Left out

- SQLite and JSON plumbing (data/data.py:8-21, 172-181). The store is an in-memory map with a fixed scan order, because a bare `SELECT` has no defined order.
- Data.DocumentStore.UpdateData: a replaced row keeps its place in the scan order, and a new one goes last. SQLite makes no such promise.
- Data.ResolvePath: the walk is modelled through dicts only; a precondition requires a dict at every level where it goes on. In Python, a string or list at such a level is tested for membership instead: a row is skipped when the segment is not in it, and the walk raises TypeError when it is, because the segment is a string key and cannot index a string or a list. An integer, boolean or None at such a level raises.
- Data.SortedIdsDescending requires every resolved value to be an integer: the model sorts integer columns only, and other columns are out of scope.
- Shapes: each handler requires the sub-records to have the types the code indexes into (dicts where it subscripts, integers where it adds, a list for `disabled_features`). A wrongly typed stored value is not modelled. Keys read through `get` or guarded by `in`, and absent records, are modelled. Two stored shapes also require keys to be present; the bot's own writes always create them (CustomCommands.DispatchKeepsShaped, Watchstreak.StepKeepsFresh):
- CustomCommands.EntryShaped: every stored command holds `message`, `usage_count`, `user_level`, `cooldown` and `last_used`, and its `user_level` is one of the five levels. Without one of those keys the code raises KeyError (bot/cogs/custom_commands.py:124-126, 142, 150, 160, 320-321, 327, 344 and 346), and an unknown level raises ValueError from `.index` at :327; the model does not capture those crashes. An absent `aliases` is allowed, and its KeyErrors at :127 and :170 are modelled.
- Watchstreak.StreakShaped: a user's entry that holds `watchstreak` also holds `latest_stream`. Without it the sweep raises KeyError at bot/cogs/watchstreak.py:120; the model does not capture that crash.
- Twitch lookups (bot/utilities/ids.py) are parameters: id from name, live stream id, badges, and whether the author exists.
- Data.Segments: a channel id must hold no '.', or the scan paths would split inside it.
- The clock is an integer parameter. So are `now` in the VALORANT history and the urlfetch times.
- Outbound `reply`/`send` text is not built; each handler returns a reply datatype instead.
- JSON key order is not modelled. Where the code's behaviour depends on it (the first command an alias matches), the key order is a parameter.
- Python's `lower`, `capitalize`, `isspace` and `isdigit` are modelled on ASCII (isspace on the CPython whitespace set). `int()` ignores surrounding whitespace, as Python does, but accepts no underscores between digits here.
- `shlex.split` is not modelled; its token list is a parameter. The `ValueError` it raises on unbalanced quotes is not modelled.
- The `{urlfetch ...}` regular expression is not modelled; the matches are a parameter. The aiohttp fetch is not modelled either: each match carries the fetched text or the error text.
- asyncio, the lock around the bucket and `time.sleep` are left out, because the model is sequential.
- CustomCommands.EditOutcome: a command with no alias list crashes where the code reads it (bot/cogs/custom_commands.py:127, 170). The `join` raising on a stored alias that is not a string is not modelled.
- Network answers for VALORANT (`get_rr`, `get_career`, `get_match`, `get_leaderboard`) are parameters: a status and the parsed data.
- The match announcement text is not built (bot/cogs/valorant.py:243-279): teams, score, KDA, ability casts and the float headshot percentage.
- The outer loop over live streams of `win_loss_notifications` is not modelled; CheckStream models one stream of it. The routine's `connected_channels` check (bot/cogs/valorant.py:198-200) is not modelled either.
- bot/bot.py, main.py, bot/cogs/wiki.py, bot/cogs/osu.py and bot/cogs/global_rank.py are not part of this model. The last of these only forwards `get_rank`.
- bot/cogs/global_event_handler.py calls functions that do not exist in the cogs, so the model has no combined message handler.
- bot/cogs/firsts.py is commented out of bot.py's cog list, but is modelled all the same.
- The firsts and watchstreak leaderboards return their entries; the user names that `get_name_from_id` would fetch are not looked up.
- The framework cooldowns on `!watchstreak` (10 s per channel, bot/cogs/watchstreak.py:18) and `!first` (5 s per channel, bot/cogs/firsts.py:23) are not modelled. Each command handler models one call that gets past them.
- bot/cogs/custom_commands.py is not in the cog list of bot/bot.py:10-19, and nothing in the repository calls `handle_command_message_event`. It is modelled all the same, as Respond and HandleCommandMessage.

## Findings

| source | as written | input that shows it | evidently intended | confidence | as-written member | corrected member |
|---|---|---|---|---|---|---|
| bot/cogs/custom_commands.py:152-155 | the new user level is `capitalize()`d and then looked up in a list holding "VIP", but `capitalize` turns "vip" and "VIP" into "Vip" | `!cmd edit hi userlevel vip` (or `VIP`) is refused as an invalid user level | any of the five levels can be set, typed in any case | not executed | CustomCommands.AsWrittenNeverVip | CustomCommands.ParseLevelAcceptsEveryLevel |

The edit handlers follow the code as written and use CustomCommands.ParseLevelAsWritten. CustomCommands.ParseLevel is the intended parse, and the lemmas beside it prove that fixing the lookup would accept every level and change no level the code already accepts.
