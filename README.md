# A verified model of the live-notification bot

This project models, in Dafny, the decision logic of a small Discord bot that
announces when tracked Twitch and Kick streamers go live and keeps the books of
a guild's "actions" (raids with participants, outcomes and rewards).

- **Streamer watcher** (`src/services/streamerWatcher.js`). The class
  `StreamerWatcher` walks the tracked streamers once per poll. It probes each
  streamer and keeps the set `notifiedStreams` of `type:name` keys already
  announced. A streamer seen live whose key is not in the set is announced to
  every configured channel, gets the live role in every configured guild, and
  its key is added. A streamer seen offline whose key is in the set loses the
  role and its key is removed. The model holds:
  - the pure state machine (`Dedup`);
  - the probes (`Probes`);
  - the notification and role loops (`Delivery`);
  - the class itself with its loop, the cycle as a function, and cycles in
    sequence (`Watcher`).

  The main theorem is `Watcher.OneNotificationPerLiveRun`. A streamer is
  announced exactly once per maximal run of live observations, across any
  number of cycles, even when probes throw and abort cycles. The exceptions
  are a `server_config.json` that lacks `servers` or does not parse, and a
  `notificacao.json` that does not parse.
- **Action bookkeeping** (`index.js`). This covers:
  - the participant list parser;
  - the rows of five selection buttons;
  - the selection toggle;
  - the reward split;
  - the status emoji and colour;
  - the JSON list of actions as a class `ActionStore` whose handlers update it (`Actions`);
  - the weekly report (`Report`);
  - the `name | id` nickname of `/setar` and of the approval of a set request (`Nicknames`).
- **Adding a Kick channel** (`src/commands/adicionarkick.js`, `AddKick`). The
  command normalises the streamers file and appends to it. The watcher loads
  that file with `require`, which caches it, so a running watcher sees the new
  entry only after the process restarts.

JavaScript's own string and number operations are written out where the
decisions depend on them:
- `trim`, with its set of white-space characters;
- `split` and `join`;
- `replace` of the first occurrence, and `replace(/…/g, "")`;
- `slice(0, 32)` and `length`, both counted in UTF-16 code units;
- `parseInt`, where `None` stands for `NaN`;
- `Math.floor` of a quotient.

The network, the files on disk and the Discord client are inputs:
- A `Network` value gives the answers of the token, streams and Kick endpoints
  for one probe. A cycle receives one per position in the list (`nat -> Network`).
- An `Environment` gives what a cycle reads from disk:
  - `notificacao.json`;
  - `server_config.json`, whose `servers` is `None` when the object lacks that property;
  - which channel ids the client's cache knows;
  - which channel sends and which guild role calls fail.
- The client's guilds (member → role sets) and the messages it has sent are
  fields of a `Client` object that the watcher changes.

Behaviour the code has, and the model keeps:
- **Kick failures read as offline.** A failed Kick request is caught and
  returns `null`, whether it failed on the network, returned a non-2xx status
  or had a bad body. The loop treats `null` as offline, so a notified Kick
  streamer loses its key and its role on a failed probe and is announced again
  on the next live probe (`Probes.KickFailureLooksOffline`). Treating a
  failed probe as "unknown" and keeping the prior state would avoid this; the
  model follows the code as written.
- **Some Twitch failures abort the cycle, others read as offline.** A Twitch
  request that is rejected, or whose body is not JSON, throws out of
  `checkStreamers`, which skips every later streamer of that cycle. The
  notified set keeps the changes made before the throw
  (`Watcher.CycleStopsAtThrow`, `Watcher.CycleTracksReplay`). An HTTP error
  whose body is JSON without `data`, such as a 401 or a 429, does not throw. It
  reads as offline and retracts a notified key, as in the Kick case
  (`Probes.TwitchErrorBodyLooksOffline`).
- **A malformed `server_config.json` repeats the notice.** If the file lacks
  `servers` and the bot is in at least one guild, `updateLiveRole` throws. It
  throws after `notifyChannel` has sent the notice and before the key is
  added. Every later cycle therefore sends the notice again while the streamer
  stays live (`Watcher.RoleThrowRepeatsNotice`). `Watcher.CycleTracksReplay`
  bounds this to one extra notice per aborted cycle.
- **Lists are not deduplicated.** The add command keeps duplicate names. A
  streamer listed twice is still announced once per cycle and gets its role
  once (`Watcher.DuplicateEntryAnnouncedOnce`).
- **`index.js` does not start the watcher.** It never constructs
  `StreamerWatcher`, so the watcher runs only when some other entry point calls
  `startWatching`.

## Model

| member | source | states |
|---|---|---|
| Text.Trim | index.js:372 | `trim()` leaves no JavaScript white space at either end and never lengthens the string |
| Text.TrimIsSlice | index.js:372 | what `trim()` keeps is one contiguous piece of the input, in order |
| Text.TrimKeepsText | index.js:372 | trimming drops only white space: every other character keeps its count |
| Text.TrimTrimmed | index.js:372 | trimming a string that is already trimmed leaves it unchanged, so `trim` is idempotent |
| Text.TrimEmptyIffBlank | index.js:373 | a piece is dropped by the truthiness filter after `trim()` exactly when every character of it is white space |
| Text.Split | index.js:371 | the pieces of `split(c)` contain no `c`, there is at least one, and joining them with `c` gives back the input |
| Text.SplitJoin | index.js:536 | splitting the join of separator-free pieces gives back exactly those pieces |
| Text.Remove | index.js:720 | removing every bar (the global `replace` of the bar with nothing) leaves none, keeps every other character as often as it occurs, and changes nothing in a string that has none |
| Text.RemoveAppend | index.js:720 | removal works piece by piece, so the characters kept stay in their order |
| Text.Utf16Length | index.js:884 | `length` counts UTF-16 code units: between one and two per character |
| Text.Utf16LengthAppend | index.js:882-884 | the UTF-16 length of a concatenation is the sum of the lengths |
| Text.Truncate16 | index.js:834 | `slice(0, n)` is taken as the longest prefix of whole characters that fits in `n` code units: a string that fits is unchanged, and the next character would not fit |
| Text.Find | src/services/streamerWatcher.js:251-252 | the position `replace` acts on is the first occurrence of the pattern, and there is none when it returns nothing |
| Text.ReplaceFirstAfter | src/services/streamerWatcher.js:251-252 | `replace(pat, rep)` on a string whose first occurrence follows a prefix that cannot start one replaces exactly that occurrence |
| Numbers.ParseInt | index.js:627 | `parseInt` is `NaN` exactly when no digit of the radix follows the leading white space, the sign and any `0x` prefix |
| Numbers.NatToStringValue | index.js:509 | the decimal string written into a button id denotes the index |
| Numbers.ParseIntToString | index.js:546 | `parseInt` reads back exactly the integer whose decimal string it is given |
| Dedup.StreamKeyInjective | src/services/streamerWatcher.js:38 | two streamers share a `type:name` key only if they have the same type and name, as long as no type holds a colon |
| Dedup.ColonAfterKind | src/services/streamerWatcher.js:38 | the first colon of a key separates the type from the name |
| Dedup.StepSpec | src/services/streamerWatcher.js:48-65 | one observation announces exactly when the key is live and not yet notified and retracts exactly when it is offline and notified; afterwards the key is notified exactly when it was live, no other key changes, and a live key already notified or an offline key not notified changes nothing |
| Dedup.ReplayAppend | src/services/streamerWatcher.js:37-66 | replaying two stretches of observations is replaying the second from the state the first leaves, with decisions and announcements concatenated |
| Dedup.ReplayTracksLatest | src/services/streamerWatcher.js:56-63 | after any observations, a key is notified exactly when its latest observation was live, or, if it was never observed, when it was notified at the start |
| Dedup.AnnouncementsAreRunStarts | src/services/streamerWatcher.js:48-57 | the announcements of a key are its switches from not live to live |
| Dedup.RunStartsAreLiveRuns | src/services/streamerWatcher.js:48-65 | counting switches on from offline is counting maximal runs of live observations |
| Dedup.OneAnnouncementPerLiveRun | src/services/streamerWatcher.js:48-65 | a key not notified at the start is announced exactly once per maximal run of live observations |
| Dedup.AnnounceAt | src/services/streamerWatcher.js:50-56 | the `i`-th observation announces exactly when it is live and its key is not in the set the earlier observations left |
| Dedup.ScriptedRun | src/services/streamerWatcher.js:37-66 | the probes offline, live, live, offline, live announce at the second and fifth observation only, and the key ends notified |
| Probes.CheckKickLive | src/services/streamerWatcher.js:180-237 | the Kick probe gives the livestream exactly when the request succeeded with a 2xx status and a body whose `livestream` is not null and whose channel is not banned; a failed request or a non-2xx status gives nothing |
| Probes.TwitchErrorBodyLooksOffline | src/services/streamerWatcher.js:173-177 | a streams reply without a `data` array reads as offline rather than throwing |
| Probes.KickFailureLooksOffline | src/services/streamerWatcher.js:207-236 | a failed Kick request makes the streamer look offline and leaves the token cache alone |
| Probes.TokenRefreshRule | src/services/streamerWatcher.js:154-162 | the token is fetched only when it is missing or expired; the fresh token and its expiry replace the cache; a failed token request throws |
| Probes.RefreshedTokenFresh | src/services/streamerWatcher.js:160-161 | a token with `expires_in` set is not stale again until `expires_in * 1000` milliseconds after it was received |
| Probes.TokenWithoutExpiryKept | src/services/streamerWatcher.js:154 | a non-empty token without `expires_in` (a `NaN` expiry) is never refetched |
| Probes.ProbeOutcomes | src/services/streamerWatcher.js:143-178 | a Twitch streamer is live exactly when the first stream of the answer has type `live` and nothing threw, and the probe throws exactly when a request fails; a Kick probe never throws and keeps the token cache; an unknown platform is offline |
| Delivery.ChannelIdsFormats | src/services/streamerWatcher.js:23-32 | `canais` takes precedence even when empty, then `canalIds`, then a non-empty `canalId`; the older formats name the same channels as the current one |
| Delivery.ChannelIdsNormalise | src/services/streamerWatcher.js:23-32 | rewriting any notification file in the current format keeps the channels it names |
| Delivery.TwitchThumbnailSize | src/services/streamerWatcher.js:249-252 | a Twitch thumbnail template `…{width}x{height}…` becomes the 640 by 360 image |
| Delivery.ReachableMembers | src/services/streamerWatcher.js:288-306 | a channel receives the notice exactly when it is listed, the client's cache knows it and its send does not fail |
| Delivery.NotifyChannel | src/services/streamerWatcher.js:239-307 | the notice goes, in list order, to every listed channel the cache knows whose send succeeds, and a failed send does not stop the others |
| Delivery.GuildAfterSpec | src/services/streamerWatcher.js:79-140 | the role is added only to a member lacking it and removed only from a member holding it; a configured guild whose member and role exist ends with the role held exactly when the streamer is live; no other member's roles change |
| Delivery.GuildAfterIdempotent | src/services/streamerWatcher.js:118-134 | a second update with the same status finds nothing to add or remove and changes nothing |
| Delivery.LiveThenOffline | src/services/streamerWatcher.js:118-134 | a role added when the streamer went live is removed when it goes offline, giving back the guild as it was |
| Delivery.UpdateLiveRole | src/services/streamerWatcher.js:69-141 | every guild is updated on its own, and one guild that is skipped or fails does not affect the others |
| Watcher.StepWorldSpec | src/services/streamerWatcher.js:37-66 | one iteration: the key is notified per the state machine unless the iteration threw; the notice is sent exactly when the streamer is live and not yet notified; roles change only on a switch |
| Watcher.CycleTracksReplay | src/services/streamerWatcher.js:34-67 | after a cycle the notified set is the replay of the completed observations; the notices sent are the replay's announcements, with at most one more when the cycle aborted, and exactly them when `servers` is present, even if a probe threw |
| Watcher.CycleStopsAtThrow | src/services/streamerWatcher.js:37-66 | the cycle observes the streamers in list order and stops at the first throw; a cycle that does not abort observes them all |
| Watcher.WatchTracksReplay | src/services/streamerWatcher.js:309-311 | across successive cycles the notified set is the replay of all observations, and the notices are the replay's announcements whenever no cycle aborts or every cycle reads a `servers` object |
| Watcher.OneNotificationPerLiveRun | src/services/streamerWatcher.js:48-65 | across cycles, a streamer is announced exactly once per maximal run of live observations whenever every cycle reads a `servers` object, whatever probes throw, or no cycle aborts |
| Watcher.RoleThrowRepeatsNotice | src/services/streamerWatcher.js:48-57 | without `servers` in the server configuration and with a guild, a streamer live in two cycles is announced in both, its key is never recorded and no role changes |
| Watcher.DuplicateEntryAnnouncedOnce | src/services/streamerWatcher.js:37-57 | a streamer listed twice and live at both probes is announced once and gets its role once |
| Watcher.StreamerWatcher.constructor | src/services/streamerWatcher.js:8-16 | a new watcher polls every 60000 ms, tracks nobody, has notified nobody and holds no token |
| Watcher.StreamerWatcher.LoadStreamers | src/services/streamerWatcher.js:18-21 | the list is the file's `streamers`, or empty when that is missing |
| Watcher.StreamerWatcher.CheckTwitchLive | src/services/streamerWatcher.js:152-178 | the method leaves the probe result and the token fields that the Twitch probe specification gives |
| Watcher.StreamerWatcher.CheckIfLive | src/services/streamerWatcher.js:143-150 | the method dispatches on the platform as the probe specification does |
| Watcher.StreamerWatcher.NotifyChannel | src/services/streamerWatcher.js:239-307 | the client's sent messages grow by exactly the deliveries of the notice |
| Watcher.StreamerWatcher.UpdateLiveRole | src/services/streamerWatcher.js:69-141 | the method throws exactly when `servers` is missing and there is a guild; otherwise the guilds become the per-guild updates |
| Watcher.StreamerWatcher.CheckStreamers | src/services/streamerWatcher.js:34-67 | the loop leaves the watcher and its client exactly as the cycle specification says, and aborts exactly when it does; a non-iterable list aborts at once |
| Actions.StatusEmoji | index.js:101-112 | the emoji is one of the four, for any status |
| Actions.StatusColor | index.js:115-126 | the colour is one of the four, for any status |
| Actions.StatusMappingsAgree | index.js:101-126 | two statuses share an emoji exactly when they share a colour; every status other than the three named ones, including "Em andamento", gets the hourglass and orange |
| Actions.FormatParticipantsLines | index.js:96-98 | when no name contains a line break, the participant text has one bullet line per participant, in order, and is empty for no participants |
| Actions.ParseParticipants | index.js:370-373 | every parsed participant is non-empty, trimmed and comma-free |
| Actions.ParseParticipantsJoin | index.js:370-373 | a list of non-empty, trimmed, comma-free names typed with commas parses back to itself |
| Actions.NonEmpty | index.js:373 | every kept entry is non-empty, each non-empty entry is kept as many times as it occurs, and a list without empty entries is kept whole |
| Actions.NonEmptyAppend | index.js:373 | dropping empty entries from two joined lists is dropping them from each and joining the results |
| Text.SplitAppend | index.js:371 | splitting two texts joined by the separator gives the pieces of the first followed by the pieces of the second |
| Actions.ParseParticipantsAppend | index.js:370-373 | the participants of two texts joined by a comma are those of the first followed by those of the second |
| Actions.ParseParticipantsPiece | index.js:370-373 | a text without commas gives its trimmed form as the only participant, or no participant when it is blank |
| Actions.InnerBlankDropped | index.js:370-373 | an empty piece between two commas adds no participant |
| Actions.TrailingBlankDropped | index.js:370-373 | a trailing comma adds no participant |
| Actions.RemoveAll | index.js:553 | the filter removes every occurrence of the participant and keeps the count of every other entry |
| Actions.Toggle | index.js:552-556 | the participant is selected afterwards exactly when it was not before; a new one is appended at the end; no other entry changes |
| Actions.ToggleTwice | index.js:552-556 | toggling twice gives back a selection without the participant; one with it ends with a single copy at the end |
| Actions.Share | index.js:639-640 | the share is 0 with no recipient, and otherwise a number exactly when the total is |
| Actions.ShareBounds | index.js:640 | with recipients, the share times their number is at most the total and within one share of it, and a non-negative total has a non-negative share |
| Actions.SelectIdRoundTrip | index.js:536-546 | the id `select_<action>_<index>` of a button reads back as that action and index |
| Actions.ParticipantRows | index.js:503-515 | there are `ceil(n / 5)` rows of at most five buttons, every row but the last full, button `j` of row `r` is participant `5r + j`, and the rows read in order are all the participants' buttons |
| Actions.FindAction | index.js:475 | the action found is the first with the id, and nothing is found when no action has it |
| Actions.ActionStore.SaveAction | index.js:49-59 | the action is appended at the end of the list |
| Actions.ActionStore.Register | index.js:368-384 | a new action holds the parsed participants and status "Em andamento" and is appended |
| Actions.ActionStore.Resolve | index.js:471-533 | an unknown id changes nothing; cancel and defeat set the status; victory clears the selection and shows one button per participant |
| Actions.ActionStore.ToggleSelection | index.js:535-590 | an unknown id changes nothing; otherwise the selection is toggled for the participant at the index and the buttons show it |
| Actions.ActionStore.RecordReward | index.js:625-684 | an unknown id changes nothing; otherwise the action becomes a victory whose reward is the parsed total, its split and the selection |
| Report.Count | index.js:201-204 | a status count is at most the number of actions |
| Report.CountsBounded | index.js:201-204 | the four status counts together are at most the number of actions |
| Report.GetWeeklyReport | index.js:173-230 | the report holds the counts per status, the sum of the rewards of victories with a numeric total, and for each day of the range or with a reward that day's rewards |
| Report.DailySumsToTotal | index.js:207-218 | summed over all the days, the per-day rewards equal the total rewards |
| Nicknames.Sanitize | index.js:880-881 | a sanitized value has no bar and no surrounding white space, and keeps every character that is neither a bar nor white space as often as it occurs |
| Nicknames.SanitizeIdempotent | index.js:880-881 | sanitizing twice is sanitizing once |
| Nicknames.NicknameRoundTrip | index.js:882 | the nickname built from sanitized parts, name, spaced bar, id, splits back into the name and the id |
| Nicknames.Gate | index.js:838-848 | the change is refused for missing Manage Nicknames, then for the server owner, then for a bot role not above the member's; it is allowed otherwise |
| Nicknames.SetarSpec | index.js:879-926 | `/setar` sets the nickname made of the sanitized name and id exactly when it fits in 32 code units, the command runs in a server, the member is fetched, the gate passes and the call succeeds; it answers "too long" exactly when it does not fit, and reports a gate refusal only after a successful fetch |
| Nicknames.TooLongIffCut | index.js:833-834 | the approval path cuts a nickname exactly when `/setar` would refuse it as too long |
| Nicknames.PathsAgree | index.js:774-855 | when the approver and the bot hold Manage Roles and the nickname fits, approving a request sets exactly the nickname `/setar` would set, under the same conditions |
| Nicknames.Approve | index.js:769-864 | the request is authorized, and its role changes attempted, exactly when the approver holds Manage Roles, the button is pressed in a server, the requester is fetched and the bot holds Manage Roles; each refusal reply (approver lacks Manage Roles, not in a server, requester not fetched, bot lacks Manage Roles) is given exactly when its check is the first to fail; once authorized, a nickname is set exactly when both parts of the request are non-empty, the gate passes and the call succeeds, and it is the requested one cut to 32 code units |
| Nicknames.ApprovalImpliesSetar | index.js:774-855 | approval sets a nickname only when the approver and the bot hold Manage Roles, and then `/setar` with the same values would set the same nickname or refuse it as too long |
| AddKick.AppendedSpec | src/commands/adicionarkick.js:12-19 | one Kick entry under the typed name is appended after every earlier entry, and a name already on the list is added again |
| AddKick.JoinedNameEmpty | src/commands/adicionarkick.js:6-7 | the joined name is empty exactly when nothing, or one empty word, was typed |
| AddKick.StreamersFile.HandleAdicionarkick | src/commands/adicionarkick.js:5-25 | an empty name gets the prompt and leaves the file alone; otherwise the file holds the old list, or an empty one, with the new entry appended |

## Left out

- Network calls (`fetch` to Twitch, Kick and Discord), the files on disk, `require`, `process.env`, the clock and `setInterval` are inputs or are left out. `startWatching` is reduced to `Watcher.Watch`: cycles one after another over a list that `require`'s cache keeps the same.
- Console logging and `safeReply`/`safeUpdate` are left out: they do not change state.
- Embeds, modals and the texts of replies are left out except where a decision depends on them: the notice, the button ids and labels, and the nickname.
- The confirm button handler is left out. It only opens a modal: the selection it initialises in memory is not written back.
- The set-request modal, the reject button and the role changes of the approval path are left out. They only call Discord. The checks before them and the nickname the approval path sets are modelled (`Nicknames.Approve`).
- The approval path's lookup of the name and id fields in the original embed is left out: the requested name and id are inputs.
- Date arithmetic is left out. This covers the week's range, the filter of the week's actions, `getCurrentDate`, the win rate and `toLocaleString`. The week's actions and the list of days are inputs of `Report.GetWeeklyReport`.
- `dailyEarnings` keys that collide with properties of `Object.prototype`, such as `constructor`, are not modelled. Real dates never have that form.
- Text.Truncate16: a Dafny `char` cannot hold half of a surrogate pair. Where `slice(0, 32)` cuts an emoji in two and keeps a lone high surrogate, the model drops the whole emoji and sets a nickname one code unit shorter.
- The theorems about several cycles assume the cycles run one after another. `setInterval` starts `checkStreamers` every interval without waiting for the previous run, and the fetches have no timeout. Two overlapping cycles can both find a key missing from `notifiedStreams` before either adds it, and then both send the notice. That interleaving is not modelled.
- Numbers are unbounded integers. Totals beyond 2^53, where JavaScript numbers lose precision, are not modelled.
- A reward total that is `NaN` is stored as `null`, because `JSON.stringify` writes `NaN` that way. The report therefore skips it; the model's `None` is that `null`.
- A `streamers` value that is a string, which `for...of` would walk character by character, is not modelled. Any other non-array is `NotIterable` and aborts the cycle.
- Only the properties of the JSON documents that the code reads are modelled.
- A `server_config.json` whose content is `null` reads as a document without `servers`: it throws at the first guild, as `Watcher.RolesThrow` says.
- A `server_config.json` that is not JSON is not modelled. `updateLiveRole` parses it before its guild loop (src/services/streamerWatcher.js:74-76). That parse throws after `notifyChannel` has sent the notice, even with no guild, so the streamer is announced again on every cycle while live, as with a missing `servers`.
- A `notificacao.json` that is not JSON, or whose content is `null`, is not modelled. `getChannelIds` parses it with no catch inside `notifyChannel` (src/services/streamerWatcher.js:23-31). The cycle then aborts at the first streamer that goes live, before any send, and no later streamer in the list is probed while that one stays live. The model's `Environment.notificacao` is either absent or a parsed document.
- Actions.ActionStore.SaveAction: an existing file without an `actions` array makes `saveAction` throw; the model always appends.
- Actions.ActionStore.ToggleSelection: an index that is out of range or not a number makes the source push `undefined` into the selection. The model leaves the selection unchanged. The bot's own buttons never carry such an index.
- The outcome buttons' custom ids are not parsed: only ids starting with cancel, defeat or victory reach that handler, so `Actions.ActionStore.Resolve` takes the outcome as an input.
