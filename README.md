# GitFollow snapshot, diff and statistics engine in Dafny

This project models the core of GitFollow, a tool that tracks a GitHub
user's followers over time. The core has three parts, each in its own module:

- **Storage** (`storage.dfy`): a per-username, append-only store that keeps two
  kinds of record.
  - Snapshots hold the follower and following lists, a timestamp, and counts
    frozen when the snapshot is written.
  - History entries record one `new_follower` or `unfollowed` event each.

  The two JSON files become two `map<string, seq<...>>` fields of the class
  `Store`. Its methods reassign those fields.
- **Tracker** (`tracker.dfy`): the engine itself.
  - Pure parts: change detection (keyed by account id), statistics, the
    mutual / non-follower views (keyed by login) and the ratio guard.
  - Imperative parts: the class `Tracker` holds `check_changes`, the
    statistics and the history-writing loops as methods over the store. The
    two report builders are module-level methods with loops
    (`BuildTextReport`, `BuildMarkdownReport` and `AppendActivityRows`).
- **Notifier** (`notifier.dfy`): the uncoloured text formatting of a change
  set. This covers `summary`, `format_net_change` and
  `format_terminal_output(colorize: false)`, with its two section formatters.

There are three support modules:

- `Text`: decimal rendering, with a parser as its partner, plus `Array#join`.
- `Lists`: one order-preserving `Filter` that stands for Ruby's `select`,
  `reject`, `count` and `Array#-`.
- `Wrappers`: `Option` stands for `nil`, and `Result` for a raised
  `ArgumentError`.

Inputs the model does not compute are taken as parameters:

- The follower and following lists that the GitHub client fetches.
- The clock (`now: string`).
- The rendering of report timestamps and of the ratio. These come in as a
  `Render` value holding three functions.

An account is the record `Account(login, id)`. The client builds accounts
with symbol keys, and the store writes them back with string keys. The tracker
and the store read `login` and `id` under either key, so the model keeps one
form only there. The notifier's bullet lines read the symbol key alone; the
model states that lookup as written (`Notifier.BulletsAsWritten`) and uses the
corrected one (see "## Findings").

Two behaviours of the code are easy to misread:

- `generate_report` checks for "no data" before it looks at the format. So a
  user with no snapshot gets the "No data available" text even when the
  format is unsupported (lib/gitfollow/tracker.rb:76-89).
- Changes are detected by `id`, but mutual followers and non-followers are
  computed by `login`. The model keeps this inconsistency as it is.

## Model

| member | source | states |
|---|---|---|
| Storage.EventName | lib/gitfollow/storage.rb:56 | The stored event type is "new_follower" exactly for a new-follower event and "unfollowed" exactly for an unfollow. |
| Storage.Logins | lib/gitfollow/storage.rb:119 | The follower logins, one per follower, in order. |
| Storage.Mutual | lib/gitfollow/storage.rb:118-121 | `calculate_mutual`: an account is in the result exactly when it is followed and some follower has its login. The result is no longer than the following list. |
| Storage.StatsOf | lib/gitfollow/storage.rb:27-31 | The frozen stats are the two list sizes and the mutual count. The mutual count never exceeds the following count. |
| Storage.Appended | lib/gitfollow/storage.rb:34-35 | `m[u] ||= []; m[u] << x`: u's sequence grows by exactly the new items at its end, and every other key keeps its sequence. The key appears only when something is appended. |
| Storage.AppendedTwice | lib/gitfollow/storage.rb:61-62 | Two appends for the same user are one append of both batches, in order. |
| Storage.LastOf | lib/gitfollow/storage.rb:43 | `&.last`: nil for an empty list, otherwise the last element. |
| Storage.LastN | lib/gitfollow/storage.rb:71 | `entries.last(n)`: min(n, size) entries, and these are a suffix of the list in their original order. |
| Storage.LastNExample | lib/gitfollow/storage.rb:71 | With three entries, a limit of 2 gives the second and third. |
| Storage.Store.Open | lib/gitfollow/storage.rb:143-149 | `load_json` fails open: a missing or unparsable file loads as the empty map, and a parsed one loads as its contents. |
| Storage.Load | lib/gitfollow/storage.rb:143-149 | A missing or unparsable file is the empty map. A parsed file gives every user exactly the list it holds for them, and an absent user the empty list. |
| Storage.CsvRow | lib/gitfollow/storage.rb:174-179 | One CSV row per history entry, as wide as the header: the timestamp, the event type, the login, and the id as a decimal: a leading '-' exactly for a negative id, then a numeral without leading zeros, reading back as the id. |
| Storage.Store.AllSnapshots | lib/gitfollow/storage.rb:46-49 | The user's snapshots. The result is empty exactly when `data_exists?` is false. |
| Storage.Store.LatestSnapshot | lib/gitfollow/storage.rb:41-44 | nil exactly when the user has no snapshot. Otherwise it is the last one saved. |
| Storage.Store.DataExists | lib/gitfollow/storage.rb:86-89 | `data_exists?` holds exactly when the user has at least one snapshot. |
| Storage.Store.GetHistory | lib/gitfollow/storage.rb:68-72 | With a limit, the last `limit` entries in oldest-to-newest order. Without one, all of them. An unknown user gets []. |
| Storage.Store.SaveSnapshot | lib/gitfollow/storage.rb:19-39 | Appends one snapshot with frozen counts at the end of the user's list. Afterwards it is the latest snapshot, the user's list has grown by one, and other users and the history are unchanged. |
| Storage.Store.SaveHistoryEntry | lib/gitfollow/storage.rb:51-66 | Appends one entry with the event's string form, the given account and the time. Earlier entries and all snapshots are unchanged. |
| Storage.Store.ClearData | lib/gitfollow/storage.rb:74-84 | Returns true and removes the user's snapshots and history together. Afterwards the user has no data and no history, and every other user's data is untouched. |
| Storage.Store.Export | lib/gitfollow/storage.rb:91-99 | "json" gives the user's snapshots and full history. "csv" gives the header row followed by one row per history entry, in order (lines 165-184). Any other format is the error "Unsupported export format: …", and nothing is produced. |
| Tracker.Ids | lib/gitfollow/tracker.rb:115-116 | The ids of the accounts, one per account, in order. |
| Tracker.InIds | lib/gitfollow/tracker.rb:118-123 | An id is in the id list exactly when some account carries it. |
| Tracker.Difference | lib/gitfollow/tracker.rb:118-119 | `Array#-`: an id is in the result exactly when it is in the first list and not in the second. The result is never longer than the first list. |
| Tracker.AbsentFrom | lib/gitfollow/tracker.rb:118-123 | Reference definition: an account is kept exactly when it is in the list and no account of the other list has its id. |
| Tracker.SelectByDifference | lib/gitfollow/tracker.rb:118-123 | The source's two steps equal the one-step reference, order included. The two steps are the difference of the id lists (`Array#-`), then a `select` by membership in that difference. |
| Tracker.AbsentFromAppend | lib/gitfollow/tracker.rb:122-123 | Input order is kept: the result for a concatenation is the concatenation of the results. |
| Tracker.DetectChanges | lib/gitfollow/tracker.rb:111-133 | new_followers are the current followers whose id was absent before, and unfollowed are the previous followers whose id is now absent. has_changes holds exactly when one of them is non-empty. The counts are the raw list sizes, and net_change is their difference. |
| Tracker.NoChangesIffSameIds | lib/gitfollow/tracker.rb:118-128 | Nothing changed exactly when both follower lists carry the same set of ids. |
| Tracker.UnchangedFollowers | lib/gitfollow/tracker.rb:118-131 | Comparing a list with itself gives no changes and a net change of 0. |
| Tracker.IdSetCons | lib/gitfollow/tracker.rb:115-116 | With distinct ids, the id set of a list is its first id plus the id set of the rest. |
| Tracker.CountIdsIn | lib/gitfollow/tracker.rb:122-123 | With distinct ids, the number of accounts whose id lies in a set equals the size of the intersection of the id set with that set. |
| Tracker.AbsentFromBySet | lib/gitfollow/tracker.rb:118-123 | Membership in the id list and membership in the id set select the same accounts. |
| Tracker.NetChangeWithDistinctIds | lib/gitfollow/tracker.rb:118-131 | When neither list repeats an id, net_change equals the number of new followers minus the number of unfollows. |
| Tracker.NetChangeWithRepeatedId | lib/gitfollow/tracker.rb:118-131 | With a repeated id the two differ: [a, a] against [a] reports no change, yet the net change is -1. |
| Tracker.AbsentFromSingle | lib/gitfollow/tracker.rb:122-123 | A single account is reported exactly when its id is absent from the other list. |
| Tracker.DetectSwapExample | lib/gitfollow/tracker.rb:111-133 | Previous followers [A, B] against current [B, C] give new [C], unfollowed [A] and a net change of 0. |
| Tracker.DetectsNewFollowerExample | lib/gitfollow/tracker.rb:111-133 | A new id 999 joining ids 1 and 2 gives exactly that new follower, no unfollow and a net change of +1. |
| Tracker.Ratio | lib/gitfollow/tracker.rb:158-162 | 0.0 when nobody is followed. Otherwise the exact quotient followers / following. |
| Tracker.NotFollowingBack | lib/gitfollow/tracker.rb:99-107 | `non_followers` on one snapshot: an account is in the result exactly when it is followed and no follower has its login. |
| Tracker.MutualPartition | lib/gitfollow/tracker.rb:92-107 | Mutual followers and non-followers split the following list. Together they hold each followed account exactly as often as the list does, and their sizes add up to its size. |
| Tracker.MutualExample | lib/gitfollow/tracker.rb:153-156 | With followers user1, user2, mutual and following user3, mutual, the mutual list is [mutual] and the non-follower list is [user3]. |
| Tracker.MutualAppend | lib/gitfollow/tracker.rb:153-156 | `select` keeps the following order: the mutual followers of two concatenated following lists are those of the first, then those of the second. |
| Tracker.NotFollowingBackAppend | lib/gitfollow/tracker.rb:103-106 | `reject` keeps the following order in the same way. |
| Tracker.ComputeStatistics | lib/gitfollow/tracker.rb:56-72 | The mutual count plus the number of non-followers is the following count. The ratio is 0.0 when nobody is followed. The two event totals together never exceed the history length. |
| Tracker.UnfollowsAmongOtherEvents | lib/gitfollow/tracker.rb:61-62 | The entries counted as unfollows are among those not counted as new followers. |
| Tracker.StatisticsMatchFrozenStats | lib/gitfollow/tracker.rb:65-67 | The recomputed counts equal the counts frozen in the snapshot when it was saved. |
| Tracker.EventsFor | lib/gitfollow/tracker.rb:136-150 | One history entry per account, in the accounts' order, carrying the event kind and the time. |
| Tracker.CheckEventsOrder | lib/gitfollow/tracker.rb:135-151 | The entries of one check: one "new_follower" entry per new follower, in order, then one "unfollowed" entry per unfollowed account, in order, and nothing else. |
| Tracker.EventsCounted | lib/gitfollow/tracker.rb:61-62 | The entries written for one event kind are all counted under that kind's type and none under the other. |
| Tracker.HistoryCountsAfterCheck | lib/gitfollow/tracker.rb:135-151 | After a check, the new-follower total grows by the number of new followers and the unfollow total by the number of unfollows. |
| Tracker.EventsForPrefix | lib/gitfollow/tracker.rb:136-142 | One more loop iteration appends exactly the entry for the next account. |
| Tracker.ParseReportFormat | lib/gitfollow/tracker.rb:82-89 | Only "text" and "markdown" are formats, each recognised exactly by its name. |
| Tracker.ActivityRowsNewestFirst | lib/gitfollow/tracker.rb:188-194 | The activity rows are newest first: row k renders history entry size-1-k, one row per entry (also lines 225-231). |
| Tracker.ActivityRowNamesUser | lib/gitfollow/tracker.rb:188-193 | Every activity row ends with "@login" of its entry's account: bare in the text report, followed by a space and the closing bar in the markdown table (also lines 225-230). |
| Tracker.ActivityRowShowsEvent | lib/gitfollow/tracker.rb:225-230 | A "new_follower" entry and an "unfollowed" entry give different rows, and any event type other than "new_follower" gives exactly the unfollow row (also lines 189-193). |
| Tracker.AppendActivityRows | lib/gitfollow/tracker.rb:225-231 | The `history.reverse.each` loop appends one row per entry, newest first, after the existing lines, and leaves those lines unchanged. |
| Tracker.BuildTextReport | lib/gitfollow/tracker.rb:204-235 | The text report is the fixed header lines and statistics. Then comes "  No recent activity" for an empty history, or the rows newest first. All lines are joined by newlines. |
| Tracker.BuildMarkdownReport | lib/gitfollow/tracker.rb:164-202 | The markdown report is the header and statistics, then either "_No recent activity_" or the table head with rows newest first, then the footer. All lines are joined by newlines. |
| Tracker.Tracker.constructor | lib/gitfollow/tracker.rb:7-11 | The tracker keeps its username and its store. |
| Tracker.Tracker.Statistics | lib/gitfollow/tracker.rb:51-73 | nil exactly when there is no snapshot. Otherwise: the sizes of the latest lists, the mutual count by login, the guarded ratio, the counts of "new_follower" and "unfollowed" entries in the whole history, and the latest timestamp. In a consistent store the three counts equal those frozen in the latest snapshot (storage.rb:27-31). |
| Tracker.Tracker.MutualFollowers | lib/gitfollow/tracker.rb:92-97 | [] without a snapshot. Otherwise exactly the followed accounts whose login some follower has. |
| Tracker.Tracker.NonFollowers | lib/gitfollow/tracker.rb:99-107 | [] without a snapshot. Otherwise exactly the followed accounts whose login no follower has. Together with the mutual followers it is the following list. |
| Tracker.Tracker.InitialSetup | lib/gitfollow/tracker.rb:13-22 | Saves one snapshot of the given lists and leaves the history unchanged. |
| Tracker.Tracker.SaveHistoryEntries | lib/gitfollow/tracker.rb:135-151 | Appends one entry per new follower, in order, then one per unfollowed account, in order. Snapshots are unchanged. |
| Tracker.Tracker.CheckChanges | lib/gitfollow/tracker.rb:24-49 | Without a previous snapshot: the first-run message, and nothing is written. Otherwise the result is the detected change set. One snapshot of the current lists is always appended and becomes the latest, and the history grows by exactly the check's events. |
| Tracker.Tracker.GenerateReport | lib/gitfollow/tracker.rb:75-90 | The no-data text without a snapshot. Otherwise "Unsupported format: …" for anything but text or markdown, or the chosen report over the last 20 history entries. |
| Notifier.FormatNetChange | lib/gitfollow/notifier.rb:175-179 | Starts with '+' exactly for a gain and with '-' exactly for a loss. After that sign it is a decimal numeral (digits only, no leading zero), and it reads back as the same number. |
| Notifier.Summary | lib/gitfollow/notifier.rb:84-93 | "No changes for @user" without changes. Otherwise "N new follower(s)" appears only when there are new followers and "M unfollow(s)" only when there are unfollows, joined by ", " and followed by " for @user". |
| Notifier.SummaryOfDetectedChanges | lib/gitfollow/notifier.rb:84-93 | For detected changes, the summary is the no-change line exactly when nothing changed. Otherwise it starts with a digit. |
| Notifier.Bullets | lib/gitfollow/notifier.rb:152-154 | Corrected lookup: one "  • @login" line per account, in input order, and each line after its prefix is exactly that account's login (also lines 168-170). |
| Notifier.BulletsAsWritten | lib/gitfollow/notifier.rb:153 | As written: one "  • @" line per account, followed by the login for a symbol-keyed account and by nothing for a string-keyed one (also line 169). |
| Notifier.BulletsAgreeOnSymbolKeys | lib/gitfollow/notifier.rb:152-154 | For accounts from the client (symbol keys), the lines as written are the corrected lines. |
| Notifier.UnfollowedBulletLosesLogin | lib/gitfollow/notifier.rb:168-170 | An account that stopped following comes from the JSON-parsed previous snapshot, so as written its line is "  • @" and differs from the corrected "  • @login". |
| Notifier.FormatNewFollowers | lib/gitfollow/notifier.rb:143-157 | With no accounts, just the header with count 0. Otherwise the header with the count, a newline, and the bullet lines joined by newlines. |
| Notifier.FormatUnfollowed | lib/gitfollow/notifier.rb:159-173 | The same layout under the unfollowed header. |
| Notifier.FormatTerminalOutput | lib/gitfollow/notifier.rb:19-47 | "No changes detected for @user" without changes. |
| Notifier.Section | lib/gitfollow/notifier.rb:33-41 | A list adds no lines when it is empty. Otherwise it adds its size plus two lines: the header first, the blank line last. |
| Notifier.SectionAt | lib/gitfollow/notifier.rb:33-41 | A section spliced between other lines puts its header at the splice point, then one bullet per account in order, then the blank line. |
| Notifier.TerminalNewSection | lib/gitfollow/notifier.rb:33-36 | With new followers, the lines after the heading and blank line are their header, one bullet per new follower in order, and a blank line (also lines 143-157). |
| Notifier.TerminalUnfollowedSection | lib/gitfollow/notifier.rb:38-41 | With unfollows, the lines after the new-follower section are their header, one bullet per unfollowed account in order, and a blank line (also lines 159-173). |
| Notifier.FlattenSection | lib/gitfollow/notifier.rb:34-40 | A section joined on its own and then followed by a blank line reads the same as its lines spliced into the output. |
| Notifier.TerminalLines | lib/gitfollow/notifier.rb:22-46 | The frame of the output: it opens with the heading and a blank line, it ends with the net-change line and then "Previous: p → Current: c", and between them come exactly the lines of the two sections. |
| Notifier.TerminalOutputLines | lib/gitfollow/notifier.rb:33-46 | With changes, the source's nested joins (lines 143-173) equal the flat lines of `TerminalLines` joined by newlines. |
| Lists.Filter | lib/gitfollow/tracker.rb:122-123 | `select`: an element is kept exactly when it is in the list and satisfies the test. The result is never longer than the list. |
| Lists.Count | lib/gitfollow/tracker.rb:61-62 | `count` with a block: never more than the list's size. |
| Lists.FilterSingle | lib/gitfollow/tracker.rb:122-123 | A one-element list keeps its element exactly when it passes the test. |
| Lists.FilterAppend | lib/gitfollow/tracker.rb:122-123 | `select` keeps order: filtering a concatenation gives the filtered parts, in turn. |
| Lists.FilterMultiset | lib/gitfollow/tracker.rb:122-123 | A kept element survives as often as it occurs, and a dropped one never does. |
| Lists.CountAppend | lib/gitfollow/tracker.rb:61-62 | The count over a concatenation is the sum of the counts over its parts. |
| Lists.CountAll | lib/gitfollow/tracker.rb:61-62 | When every element passes the test, the count is the list's size. |
| Lists.CountNone | lib/gitfollow/tracker.rb:61-62 | When no element passes the test, the count is zero. |
| Lists.FilterPartition | lib/gitfollow/tracker.rb:103-106 | `select` and `reject` with the same test split a list by multiset and by size. |
| Text.NatToString | lib/gitfollow/notifier.rb:89-90 | `Integer#to_s`: at least one decimal digit and no leading zero. |
| Text.IntToString | lib/gitfollow/notifier.rb:176-177 | `Integer#to_s`: at least one character, with a leading '-' exactly for a negative number. |
| Text.IntToStringNumeral | lib/gitfollow/notifier.rb:176-177 | After an optional '-', the rendering is a decimal numeral without leading zeros. |
| Text.Join | lib/gitfollow/notifier.rb:46 | `Array#join`: an empty list gives "", and a single element gives itself. |
| Text.JoinAppend | lib/gitfollow/notifier.rb:151-156 | Joining two non-empty lists puts exactly one separator between their joins. |
| Text.Repeat | lib/gitfollow/tracker.rb:207 | `'=' * 50`: the character repeated exactly n times (also line 220). |
| Text.ParseIntToString | lib/gitfollow/notifier.rb:176-177 | The decimal rendering of any integer reads back as that integer. |
| Text.JoinFlatten | lib/gitfollow/notifier.rb:34-46 | Joining a group of lines and then joining again with the same separator equals joining the flat list. |

## Left out

- File I/O is not modelled: `File.read`, `File.write`, `JSON.parse` / `JSON.pretty_generate`, the CSV writer and `FileUtils.mkdir_p`. The stores are two in-memory maps. An export is the value that would be written, together with its path.
- Each Ruby call re-reads the JSON files. The model instead loads them once, in `Storage.Store.Open`. For a single process these behave the same. Writers running at the same time on the shared files are not modelled.
- `Storage.Store.Open`: `load_json` rescues only `JSON::ParserError`. Other read failures raise in the source and are not modelled; the model has only a missing, an unparsable and a parsed file.
- Parsed JSON is assumed to hold a map from username to lists of records. A well-formed file of some other shape is not modelled.
- The clock (`Time.now.utc.iso8601`) is the parameter `now`. `Tracker.Tracker.CheckChanges` gives one `now` to the snapshot and to every history entry of a check. The source reads the clock separately each time.
- Report timestamp formatting (`Time.parse`, `strftime`) and `Float#to_s` of the ratio are opaque functions passed in through `Render`.
- `Tracker.Ratio`: the exact quotient is modelled, without the conversion to a binary float and without `round(2)`.
- The GitHub client is not part of this model: fetching the lists, pagination, token checks and remote errors. The lists are inputs.
- `deep_stringify` and the dual string/symbol key lookups of the tracker and the store are not modelled. Accounts are normalised to `Account(login, id)`.
- Notifier.Bullets / Notifier.FormatUnfollowed / Notifier.FormatTerminalOutput / Notifier.TerminalLines / Notifier.TerminalUnfollowedSection: model the corrected login lookup, not the symbol-key-only lookup of lib/gitfollow/notifier.rb:153 and 169. The lookup as written is `Notifier.BulletsAsWritten`, and "## Findings" shows where the two differ.
- Tracker.Tracker.GenerateReport: the default `format: :text` of lib/gitfollow/tracker.rb:75 is not modelled; callers always pass the format.
- Lists.Count: `history.count` is modelled as the size of the filtered list, and its own contract states only the bound. Its additivity and its two extreme cases are `Lists.CountAppend`, `Lists.CountAll` and `Lists.CountNone`, and the counts of each event kind are `Tracker.EventsCounted` and `Tracker.HistoryCountsAfterCheck`.
- `Storage.Store.GetHistory`: a negative limit is not modelled. It raises `ArgumentError` in Ruby, and the model's limit is a natural number.
- Coloured output (`colorize`) is not modelled. Neither are `format_as_table` (`tty-table`), `notify_via_issue` or the issue title and body; these depend on other libraries, the client and the clock.
- Notifier.FormatTerminalOutput: its own contract states only the no-change case. The full layout is stated by `Notifier.TerminalLines`, `Notifier.TerminalNewSection` and `Notifier.TerminalUnfollowedSection`, and tied to the output by `Notifier.TerminalOutputLines`.
- The command-line interface and `lib/gitfollow.rb` are not part of this model.

## Findings

| source | as written | input that shows it | evidently intended | confidence | as-written member | corrected member |
|---|---|---|---|---|---|---|
| lib/gitfollow/notifier.rb:169 | each bullet reads `user[:login]`, the symbol key only (also line 153) | one check where account a stopped following: a comes from the previous snapshot, which `latest_snapshot` parsed from JSON with string keys, so its line is "  • @" | "  • @login", with the dual-key lookup used at lib/gitfollow/tracker.rb:154 | high, not executed | Notifier.UnfollowedBulletLosesLogin | Notifier.Bullets |
