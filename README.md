# Status bot core, modelled in Dafny

A model of the state-keeping core of a Discord bot (`index.js`). The bot watches one
Minecraft server and does two things with state:

- It keeps a status card up to date in one status channel per guild. Every interval it
  visits the guilds that have run `setup`, in the order they were first set up. It skips a guild
  whose monitoring is off. It also gives up on a guild, posting nothing, when the channel
  lookup returns null or fails, when the status fetch or its JSON parse fails, or when
  building the status record throws. Otherwise, when the server is offline, it posts an
  offline notice. When the server is online it edits the card whose id it cached. If there
  is no cached id, or fetching or editing that message fails, it posts a new card and
  caches that card's id once it is sent.
- It gates every slash command behind a per-guild, per-command role allow-list. The list
  lives in the `permissions` table. A command with no rows is open to everyone. A command
  with rows is open only to members holding one of those roles.

The `perm` command edits the allow-list. `perm_list` lists it. `setup`, `start` and `stop`
edit the per-guild monitoring maps. `warn` appends to the `warnings` table.

Modules:

- `Ids` (ids.dfy): platform identifiers as strings, `Option`, and JavaScript string truthiness.
- `Decimal` (decimal.dfy): how the bot prints an integer from the status API (`${n}`), and
  a parser that reads it back.
- `Status` (status.dfy): the status record built from one API answer, the field values of the
  status card, and `capitalize`.
- `Permissions` (permissions.dfy): the rule set, the authorization decision and the effect
  of each branch of `perm`.
- `Monitor` (monitor.dfy): one guild's reconcile step and one whole tick, as functions over
  the maps. The outside world's answers are passed in as a `Probe`.
- `Warnings` (warnings.dfy): the `warn` target checks and the auto-increment table.
- `Bot` (bot.dfy): class `StatusBot`. It holds `setupChannels`, `monitoringStatus`,
  `statusCache`, the two tables and the AUTOINCREMENT counter. Its methods are the command
  handlers, the dispatcher and the tick loop. Each method is proved against the functions
  above or against the class's own effect predicates.

## Notes on the code's behaviour

- The tick visits guilds one after another and awaits each one
  (index.js:99-139). Guilds are isolated only in what they do to each other's calls and
  cache entries (`Monitor.TickIsolation`). They are not
  isolated in time.
- `setup` always binds the guild to a newly created channel and turns monitoring on, even
  for a guild that was already set up. It keeps the old cached card id
  (index.js:177-186). The next tick then tries to edit that id in the new channel, and
  falls back to posting a new card when the edit fails.
- An icon whose text has no comma makes building the status record throw. That guild's
  step then ends, caught, with nothing posted (index.js:120, 136-138). The icon is not
  simply dropped.
- Nothing in the code restricts `perm` to owners or administrators. Like every other
  command, `perm` is gated only by the allow-list, so on a guild with no rule for `perm`
  any member may run it.
- An error from the permission query rejects `hasPermission`. The outer `catch` turns that
  into a generic error reply, so the command does not run (index.js:339-346).

## Model

| member | source | states |
|---|---|---|
| `Decimal.NatToText` | index.js:116 | the text of a count is non-empty, all digits, with no leading zero |
| `Decimal.IntToText` | index.js:116 | the text of an integer is non-empty, starts with '-' exactly when the integer is negative, and never contains '/' |
| `Decimal.IntTextRoundTrip` | index.js:116 | every integer's text parses back to that integer |
| `Decimal.IntTextInjective` | index.js:116 | distinct integers print as distinct texts |
| `Status.Join` | index.js:118 | joining no MOTD lines gives the empty text; otherwise the text starts with the first line, and its length is the lines' total length plus one separator between each two lines |
| `Status.Split` | index.js:118 | the inverse of the join at this line, used by `SplitJoin` to state what the join keeps: splitting a text at a character gives at least one piece, and no piece holds that character |
| `Status.SplitJoin` | index.js:118 | MOTD lines without a newline, joined with newlines, split back at the newlines into exactly the same lines |
| `Status.Truncate` | index.js:368 | `slice(0, n)` is a prefix of at most n characters; it is the whole text when the text is short enough, and exactly n characters otherwise |
| `Status.ToUpper` | index.js:394 | lower-case ASCII letters map to their capitals; every other character is kept |
| `Status.Capitalize` | index.js:393-395 | keeps the length, upper-cases the first character, keeps the rest |
| `Status.OnlineCapitalized` | index.js:364 | the status field of every card built from an API answer reads "Online" |
| `Status.IconPayloadIsSecondPiece` | index.js:120 | when the icon text has a comma, `split(',')` has a second piece and it is exactly the payload |
| `Status.IconPayload` | index.js:120 | an icon text without a comma throws; otherwise the payload is the text that starts right after the first comma and runs to the next comma or to the end, and holds no comma |
| `Status.PlayersText` | index.js:116 | the players field's first '/' separates the text of the online count from the text of the maximum |
| `Status.PlayersRoundTrip` | index.js:116 | the players field "online/max" reads back as exactly the two counts |
| `Status.BuildSnapshot` | index.js:113-121 | building the record succeeds exactly when `players` and `motd.clean` are present and a truthy icon contains a comma; a record built is always "online" |
| `Status.FormatStatusMessage` | index.js:360-391 | the MOTD field is at most 1024 characters; version, protocol and MOTD are never empty; a thumbnail is attached exactly when the record has an icon |
| `Status.CardFromData` | index.js:113-121 | card text fields from one API answer: the name is the hostname, or the fixed host when the hostname is missing or empty; the version is the API's, or "Unknown" when missing or empty; the MOTD is the joined lines, or "N/A" when that is empty, cut to 1024; a thumbnail is attached iff an icon was sent |
| `Status.CardNumbers` | index.js:116-119 | the players field reads back as the API's two counts; the protocol field reads back as the API's protocol, or is "Unknown" when it is missing or 0 |
| `Status.MotdField` | index.js:368 | an empty MOTD shows "N/A", a MOTD of 1 to 1024 characters is shown whole, a longer one is cut to its first 1024 characters |
| `Permissions.Select` | index.js:351 | the query returns every matching row once and no other row |
| `Permissions.RoleColumn` | index.js:354 | the role ids of the rows, one per row, in order |
| `Permissions.AnyHeld` | index.js:354 | `rows.some(...)` is true iff some row's role is held by the member |
| `Permissions.HasPermission` | index.js:353-355 | the gate allows iff the query returned no rows, or one of the returned roles is held by the member |
| `Permissions.HasPermissionIsAuthorized` | index.js:349-358 | whatever order the rows come in, the gate allows iff the command has no rule in the guild, or the member holds one of the command's roles |
| `Permissions.PermDecision` | index.js:232-254 | reset wins; otherwise a missing role, or an empty or missing command or toggle, changes nothing; toggle "allow" inserts; any other toggle deletes |
| `Permissions.ApplyPerm` | index.js:232-254 | rows of other guilds are kept; reset leaves no row of the guild; a missing argument changes nothing; allow adds its row, deny removes it, and neither touches any other row |
| `Permissions.AllowPresentDenyAbsentNoop` | index.js:249-252 | allowing a rule already present, or denying a rule not present, leaves the table unchanged |
| `Permissions.AllowThenDenyRestores` | index.js:248-253 | allowing a rule that was absent and then denying it restores the table exactly |
| `Permissions.MissingArgumentsNoop` | index.js:245-246 | a `perm` call without reset that lacks role, command or toggle changes nothing |
| `Permissions.ResetOpensGuild` | index.js:232-239 | reset removes exactly the guild's rules; afterwards every command of the guild is open to every member |
| `Permissions.PermIsGuildLocal` | index.js:231-255 | no `perm` call in one guild changes an authorization decision in another guild |
| `Permissions.FirstAllowRestricts` | index.js:353-355 | the first allow on an unrestricted command makes it open exactly to holders of that role |
| `Permissions.DenyLastRoleOpens` | index.js:353 | denying a command's only role makes it open to everyone again |
| `Permissions.AllowAdmitsHolder` | index.js:249 | after allowing a role, every holder of that role is authorized |
| `Monitor.Store` | index.js:135 | storing a new id changes the cache entry of that guild only |
| `Monitor.Enabled` | index.js:100 | a guild's monitoring counts as on exactly when it has an entry and the entry is true; a guild without an entry is skipped |
| `Monitor.CardStep` | index.js:123-135 | the edit-or-post part: it posts at most once and edits at most once, and only ever edits the cached id; the cache changes only to the id of a delivered post, which is the last call |
| `Monitor.Reconcile` | index.js:100-138 | a step calls only on behalf of its own guild and channel, posts at most once and edits at most once, and only ever edits the cached id; the cache changes only to the id of a delivered post, which is the last call |
| `Monitor.ReconcileSkipsDisabled` | index.js:100 | a guild with monitoring false or absent gets no call and keeps its cache |
| `Monitor.ReconcileFailureSkips` | index.js:102-138 | a null or failed channel lookup, a failed fetch or JSON parse, or a status record that throws gives no call and keeps the cache |
| `Monitor.ReconcileOffline` | index.js:108-111 | an offline or null answer sends exactly one offline notice and keeps the cache |
| `Monitor.ReconcileEdits` | index.js:124-131 | online, with a cached id whose edit succeeds: exactly one edit of that message, no post, cache kept |
| `Monitor.CardStepPosts` | index.js:124-135 | without a cached id or with a failed edit: no edit without a cached id, a failed edit tried on the cached id, then exactly one post; the cache becomes the post's id once delivered |
| `Monitor.ReconcilePosts` | index.js:124-135 | online, without a cached id or with a failed edit: the calls are an edit of the cached id when there is one, then exactly one new card; no edit without a cached id; the cache becomes the card's id once delivered |
| `Monitor.RunTick` | index.js:99-139 | every call of a tick is on behalf of a guild in the iteration order and goes to that guild's own status channel; the cache entry of a guild outside the order is unchanged |
| `Monitor.TickIsolation` | index.js:99-139 | what a tick does for a guild is exactly that guild's own reconcile step, and nothing for a guild without a status channel, whatever happens to other guilds |
| `Monitor.TickSkipsDisabled` | index.js:99-100 | a tick issues no call for a disabled guild and leaves its cache entry unchanged |
| `Monitor.TwoTicks` | index.js:113-135 | fresh binding: the first tick with 3/20 players posts one card showing "3/20" and caches its id; the second, with 4/20, edits that message to "4/20" and posts nothing |
| `Warnings.CheckTarget` | index.js:283-288 | the bot as target is refused; otherwise the issuer as target is refused; anyone else is accepted |
| `Warnings.Insert` | index.js:291-293 | appends exactly one row, keeps the earlier rows, gives the new row an id larger than every earlier id, and keeps the ids increasing |
| `Bot.StatusBot.constructor` | index.js:23-52 | the bot starts with empty maps, while both tables and the AUTOINCREMENT counter are those stored in the database file by earlier runs |
| `Bot.StatusBot.Setup` | index.js:177-186 | binds the guild to the new channel and turns monitoring on; the card cache is untouched; a new guild joins the end of the iteration order |
| `Bot.StatusBot.Start` | index.js:188-195 | turns monitoring on only for a guild that was set up; otherwise replies "setup first" and changes nothing |
| `Bot.StatusBot.Stop` | index.js:197-204 | turns monitoring off only for a guild that was set up; otherwise replies "setup first" and changes nothing |
| `Bot.StatusBot.Perm` | index.js:231-255 | the table after the call is the chosen branch applied to the table before it, and the reply names that branch |
| `Bot.StatusBot.PermList` | index.js:257-265 | "no permissions set" iff the guild has no rows; otherwise one line per row of the guild, each row once |
| `Bot.StatusBot.IsAuthorized` | index.js:349-358 | the decision equals the rule-set policy on the current table |
| `Bot.StatusBot.StatusChannel` | index.js:326-327 | an accepted warning is also posted to the guild's status channel exactly when the guild was set up |
| `Bot.StatusBot.Warn` | index.js:277-337 | a refused target leaves the table alone; an accepted one appends exactly one row whose id exceeds every earlier id, and replies with that row |
| `Bot.StatusBot.Tick` | index.js:98-140 | the calls issued and the new card cache are those of the reconcile steps run over the guilds in setup order |
| `Bot.StatusBot.Dispatch` | index.js:154-337 | each command has exactly its own handler's effect and reply (`setup`, `start`, `stop`, `perm`, `perm_list`, `warn` as in the rows above; `ping`, `test`, `msg`, `del` change nothing), every field the handler does not own is left as it was, and the reply is never the permission denial |
| `Bot.StatusBot.Handle` | index.js:143-152 | an unauthorized command gets the uniform denial and changes nothing; an authorized one never gets the denial and has exactly its handler's effect (as for `Dispatch`); no command touches the card cache |

## Left out

- Logging in, registering slash commands and the DM permission flags (index.js:46-48, 54-96): platform plumbing.
- `ping`, `test`, `msg` and `del` (index.js:154-175, 206-229, 267-275): ICMP probes, latency, embeds and bulk deletion. They pass the permission gate like every command (`Bot.Command.Other`, whose name is never that of a command with its own handler) and change no modelled state.
- Embed titles, emoji, colours, footers, timestamps, buttons and reply wording: replies and gateway calls are datatypes.
- The HTTP fetch, JSON parsing and base64 decoding of the icon: the API answer is a `StatusData` value, and the icon is kept as its base64 payload text.
- A rejected `guild.members.fetch` (index.js:148), which reaches the generic error reply (index.js:339-346) before the gate runs and changes nothing; failures of SQLite and their error replies, failures of channel creation in `setup`, direct messages to a warned user, and posting a warning to the status channel: each is an external call whose only effect is a reply or a message. `Bot.StatusBot.StatusChannel` names the channel the warning is posted to.
- `Date.now()`: the warning timestamp is a parameter.
- `setInterval`, and command handlers interleaving with a tick at their `await` points: concurrency. Ticks and commands are sequential method calls on one `StatusBot`.
- `Status.ToUpper`: maps ASCII letters only. JavaScript's `toUpperCase` also maps other letters and can turn one character into several ("ß" becomes "SS").
- `Status.Capitalize`: upper-cases the first character through `Status.ToUpper`, so it shares that ASCII-only mapping and always keeps the length. The source only ever capitalizes "online".
- `Decimal.IntToText`: models integer counts only. JavaScript prints fractions, and magnitudes of 1e21 and above, in other forms.
- `Status.Truncate`: cuts after 1024 Unicode characters. JavaScript's `slice` counts UTF-16 code units, so the two differ for characters outside the Basic Multilingual Plane.
- `Monitor.Reconcile`: treats every cached message id as truthy. Discord ids are never empty, and only ids of posted messages are ever cached.
- `Monitor.Reconcile`: a `players` object lacking `online` or `max`, which JavaScript prints as "undefined", is not modelled. The counts are integers when present.
