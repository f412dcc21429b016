# Minecraft server status bot — a Dafny model

The bot keeps one embed message in a chat channel up to date with the
state of a set of Minecraft servers. On every tick it does the following:
- It probes each configured server through the mcsrvstat.us HTTP API.
- It maps each answer to a status snapshot (online flag, player summary, version).
- It builds an embed with three parts: a "Main Servers" field listing every main server, an "Additional Information" field for the Proxy and Backup servers, and a "Last updated at" footer.
- It either edits the message whose id is stored in `embed.json`, or sends a new message and stores its id.

This model covers those steps:
- **`Text`** (text.dfy): the decimal text a template literal gives a non-negative integer, and its inverse. It also has `split` and `join` on one separator, with the lemmas that let a rendered text be read back.
- **`Probe`** (probe.dfy): the request URL and `getServerStatus`.
  - The HTTP request and the JSON parse are one input: `Option<ApiResponse>`, where `None` means the request or the parse threw.
  - A field missing from the JSON is `None` inside the response.
  - `Promise.all` over the servers is an order-preserving map.
- **`TimeFormat`** (time_format.dfy): `formatTime`.
  - The local-time components a `Date` gives are inputs, and so is the fact that the date is today.
  - A parser of both footer forms is the partner that every rendered time reads back through.
- **`Embed`** (embed.dfy): the embed's constant parts and its two fields. Building the "Additional Information" field throws when there are fewer than two additional servers; the model gives `None` there.
- **`Reconcile`** (reconcile.dfy): `updateEmbed` written in imperative form.
  - `EmbedStore` is the record file `embed.json`, as a class.
  - `Channel` is the channel as a class: the messages it holds, the next id the platform gives out, how many messages it posted and edited, and whether the bot may edit there.
  - Each send is answered by the platform with a `SendResult`, an input of the tick: accepted (posted, id returned), rejected (nothing posted), or lost (posted, but the call throws). So the catch block's second send can succeed after the first failed, and a lost reply leaves a second copy of the embed.
  - `ReconcileStep` is the edit-or-create step on values, made of `RefreshStep` (a stored id) and `CreateStep` (none). The methods are proved against it, and the lemmas about the step prove idempotence, self-healing, retry and consistency.

Three facts about the code shape the model:
- The probe sends every server through the one HTTP API; there is no protocol dispatch.
- `readFileSync` throws on a missing `embed.json` (index.js:51), so the model assumes the file exists.
- `formatTime` is always given the current time (index.js:67), so the `M/D/YYYY` form appears only when midnight passes between the two `new Date()` calls (index.js:67 and 33). The model takes the same-day flag as an input of the tick and covers both forms.

## Model

| member | source | states |
|---|---|---|
| Text.NatToString | index.js:17 | the decimal text of a count is non-empty and all digits, starts with '0' only for zero, and has one digit exactly below 10 |
| Text.ParseNatToString | index.js:17 | reading the decimal text of any count gives back that count |
| Text.SplitAtSeparator | index.js:17 | splitting at a separator between two texts gives the parts of the first followed by the parts of the second; it is what reads the rendered player summary, URL, clock and date back apart |
| Text.Utf16Length | index.js:69-76 | a string's JavaScript length lies between its number of characters and twice that (emoji count twice) |
| Text.Utf16LengthConcat | index.js:69-76 | the JavaScript length of a concatenation is the sum of the parts' lengths |
| Text.JoinWithAppend | index.js:74 | joining one more part appends the separator and that part to the join of the others |
| Probe.Unreachable | index.js:21-24 | a failed probe reports offline, "N/A" players and "Unknown" version |
| Probe.StatusUrl | index.js:10 | the request URL starts with the mcsrvstat.us v2 prefix |
| Probe.StatusUrlNamesPort | index.js:10 | whatever colons the address holds, the text after the URL's last colon reads back as the port, and the text between the prefix and that colon is exactly the address |
| Probe.PlayersText | index.js:16-18 | the player summary starts with a digit and is never "N/A", so it can be told apart from a missing players object |
| Probe.PlayersTextRoundTrip | index.js:16-18 | the player summary has exactly two slash-separated parts, which read back as the online and the maximum counts |
| Probe.GetServerStatus | index.js:9-25 | a failed probe gives the unreachable snapshot; online holds iff the answer says online is true; players is "N/A" iff there is no answer or no players object, and the summary otherwise; the version is never empty, is the answer's version when that is non-empty, and is "Unknown" otherwise |
| Probe.GetAllStatuses | index.js:55-61 | one snapshot per server, in configuration order, each the status of that server's answer |
| TimeFormat.MinutesText | index.js:31 | minutes below 100 always take exactly two digits, with a leading '0' exactly when they are below 10 |
| TimeFormat.MinutesTextRoundTrip | index.js:31 | the padded minutes read back as the minutes |
| TimeFormat.ClockTextRoundTrip | index.js:31 | `H:MM` splits at its one colon back into the hours and the minutes and holds no comma |
| TimeFormat.ClockText | index.js:31 | `H:MM` starts with a digit, and its colon sits right after the unpadded hours, followed by the padded minutes |
| TimeFormat.DateText | index.js:38-41 | `M/D/YYYY` starts with a digit, its first slash sits right after the month counted from 1, and it is the three numbers plus two slashes |
| TimeFormat.DateTextRoundTrip | index.js:38-41 | `M/D/YYYY` splits into three numbers: month counted from 1, day, year; it holds no comma |
| TimeFormat.ClockTextShape | index.js:29-31 | for a real clock time, the hours take one or two digits, followed by ':' and exactly two minute digits |
| TimeFormat.FormatTime | index.js:33-41 | the text starts with "Today at " exactly when the time falls on the current day |
| TimeFormat.TodayRoundTrip | index.js:34-36 | on the current day the text reads back as the hours and minutes |
| TimeFormat.OtherDayRoundTrip | index.js:38-41 | on any other day the text reads back as month (from 1), day, year, hours and minutes |
| TimeFormat.FormatTimeRoundTrip | index.js:27-42 | every rendered time reads back as exactly what was rendered, in the form its day calls for |
| Embed.Mark | index.js:73 | the marker starts with the green circle for online and the red circle for offline |
| Embed.ServerEntry | index.js:72-73 | an entry starts with the server's name and ": ", the marker follows, and an offline entry shows nothing more |
| Embed.OnlineEntryLines | index.js:73 | an online entry is three lines: name with marker, "Players: " with the summary, "Version: " with the version |
| Embed.FailedProbeShowsOffline | index.js:21-24 | a server whose probe failed is shown offline without players or version |
| Embed.MainServerEntries | index.js:71-74 | entry i is rendered from main server i and status i, for every i |
| Embed.MainServerEntriesAppend | index.js:71-74 | one more server at the end of the configuration adds its entry at the end |
| Embed.MainServersField | index.js:69-76 | the entries joined by blank lines: empty exactly when there are no main servers, starting with the first server's entry, and just that entry for one server |
| Embed.MainServersFieldAppend | index.js:69-76 | configuration order is output order: one more server adds a blank line and its entry after the unchanged text before it |
| Embed.AdditionalInfoField | index.js:78-88 | the field exists iff there are at least two additional servers, and then reports the first as Proxy and the second as Backup |
| Embed.AdditionalInfoText | index.js:80-86 | the field text starts with the Proxy heading, followed by the Proxy marker, then exactly the Backup heading, then the Backup marker; each marker is green for online and red for offline |
| Embed.AdditionalInfoTextInjective | index.js:80-86 | different Proxy/Backup flags give different field text |
| Embed.AdditionalInfoIgnoresRest | index.js:82-85 | servers after the second, and everything but the online flags, do not change the field |
| Embed.AdditionalInfoAccepted | index.js:78-88 | the "Additional Information" value is always within the field-value bounds, so only too few additional servers can make it throw |
| Embed.NoMainServersFails | index.js:69-76 | with no main servers the joined value is empty, `addFields` refuses it, and no embed is built |
| Embed.BuildEmbed | index.js:63-88 | the embed exists iff `addFields` accepts the Main Servers value (1 to 1024 UTF-16 code units) and there are at least two additional servers; it then has the fixed title and colour, the footer "Last updated at: " with the formatted time, and exactly the two fields in order |
| Reconcile.EmbedStore.constructor | index.js:51 | the record file starts with the given id and no writes |
| Reconcile.EmbedStore.Load | index.js:51-52 | the id read is the id stored |
| Reconcile.EmbedStore.Save | index.js:96-97 | the stored id becomes the written one, and the write is appended to the file's history |
| Reconcile.Channel.constructor | index.js:45 | a fresh channel holds no messages and has posted and edited nothing |
| Reconcile.Channel.Send | index.js:95 | the id comes back iff the platform accepts the send; unless it is rejected, the embed is posted under a never-used id and counted; a rejected send changes nothing |
| Reconcile.Channel.FetchAndEdit | index.js:92-93 | fetch-and-edit succeeds iff the message exists and may be edited; it then replaces that message's embed and counts one edit; a failure changes nothing |
| Reconcile.TickDocument | index.js:55-88 | a tick has an embed to publish iff there are at least two additional servers and `addFields` accepts the Main Servers value built from the probes |
| Reconcile.Post | index.js:95 | one send on values: the id comes back iff the send is accepted, and is the next id; the record and the edits are untouched; no message is removed; unless rejected, the embed is posted under that id and counted |
| Reconcile.RefreshStep | index.js:91-107 | with a stored id: an edit iff the message is there and may be edited, leaving the record and the sends alone; otherwise null is written, and a recreation happens iff the replacement send is accepted, writing null and then the new id; a failed replacement leaves null stored |
| Reconcile.CreateStep | index.js:94-107 | with no stored id: a creation iff either the try's send or the catch's send is accepted, which writes and stores the new id; a failure writes nothing; the catch's send is attempted only when the first send threw, and nothing is edited |
| Reconcile.ReconcileStep | index.js:90-108 | a step never ends as an invalid channel or a failed build; no id is stored exactly when the step ends with a failed send, and otherwise the stored id is the outcome's; the record's history only grows and no message is removed |
| Reconcile.RefreshStored | index.js:91-107 | with a stored id, the outcome and new state are those of `RefreshStep`. A working stored id gives one edit, no send, and an untouched record. An id whose fetch or edit fails, when the replacement send is accepted, persists null, then sends once and stores a never-used id |
| Reconcile.CreateNew | index.js:94-107 | with no stored id, the outcome and new state are those of `CreateStep`: a send, a second send from the catch block when the first throws, and the id stored when one comes back |
| Reconcile.EditOrCreate | index.js:90-108 | the outcome and new state are those of the edit-or-create step for the platform's answers to the sends |
| Reconcile.UpdateEmbed | index.js:44-109 | an invalid channel changes nothing; a failed embed build (too few additional servers, no main servers, or a refused Main Servers value) changes nothing; otherwise the tick performs exactly the edit-or-create step on the embed built from the probes |
| Reconcile.ReconcileStepConsistent | index.js:90-108 | a step keeps the record equal to its last write and every message id below the next one |
| Reconcile.StoredIdShowsDocument | index.js:90-108 | after an edit, a creation or a recreation, the stored id names a message showing the new embed; when the last send throws, no id is stored, nothing is edited and no message is removed, and when every send was rejected the channel is as it was |
| Reconcile.EditIsIdempotent | index.js:91-93 | with a working stored id, two steps edit the same message twice, send nothing, and leave the record untouched |
| Reconcile.StaleIdHeals | index.js:99-107 | a stored id whose message is gone or may not be edited is cleared (null written first), one message is sent under a new id and stored, and the next step edits it |
| Reconcile.FirstSendCreates | index.js:94-97 | with no stored id, an accepted first send posts one message and writes and stores its id, whatever the catch's send would have done |
| Reconcile.RetryAfterRefusedSend | index.js:95-107 | with no stored id, a rejected send followed by an accepted one posts one message and stores its id |
| Reconcile.LostReplyLeavesOrphan | index.js:95-107 | with no stored id, a send posted but whose reply is lost, then an accepted retry, leaves two copies of the embed and stores only the second |
| Reconcile.MessageLifecycle | index.js:90-108 | create, then edit, then after an outside deletion recreate under the next id: two sends, one edit, three writes |

## Left out

- The Discord client: logging in, the `ready` and `error` events, and the 60-second `setInterval` schedule (index.js:111-123).
- The model treats each tick as atomic: one call to `UpdateEmbed`. In the source, `setInterval` does not wait for the previous tick and the HTTP requests have no timeout, so a slow tick can interleave with the next. Two ticks that both read a null id then both send, leaving a message no stored id names. The model does not capture that interleaving.
- The network and the JSON parser are not modelled. Each probe's answer is an input.
- Probe.PlayersText: the counts are non-negative integers below 1e21. `${n}` of a fractional or negative count, or of one from 1e21 up (exponent notation), is not modelled.
- JSON values other than a boolean `online`, a `players` object holding two counts, and a string `version` are not modelled. Examples: a truthy non-boolean `online`, or a `players` object whose counts are missing and render as "undefined".
- `Promise.all` runs the probes concurrently. The model keeps only the order of the results, which is what the embed uses.
- `Date`, the time zone and `toDateString` are inputs: the local-time components and the same-day flag. The embed's `setTimestamp` value is not modelled.
- Console output is not modelled.
- Embed.BuildEmbed: of the embed builder's validation, only the field-value bounds are modelled (1 to 1024 UTF-16 code units). The 256-unit limit on field names and title, the 2048-unit limit on the footer, and the 6000-unit limit on the whole embed are not. With the fixed names and title, only a footer with an absurdly long year could break them.
- Reconcile.TickDocument: inherits the limits of `Embed.BuildEmbed`, and a value the platform refuses after the builder has accepted it is not modelled.
- Reconcile.UpdateEmbed: inherits the limits of `Embed.BuildEmbed`. A refused value ends the tick as `EmbedFailed` before any channel operation, as the throw at index.js:69 does.
- Failures of `fs.readFileSync` and `fs.writeFileSync` are not modelled. `embed.json` is assumed to exist and to be writable. Other keys in `embed.json` are not modelled.
- Message ids are natural numbers handed out in order by the channel. Real ids are platform snowflake strings, which are never empty and so always truthy.
- Why an edit fails beyond a missing message is not modelled: a message the bot did not author, or a transient fault. The channel's `canEdit` flag stands for all of these and does not change within a tick, which has at most one edit.
- The source does not catch a failure of the send in the catch block; it escapes as an unhandled rejection. The model ends the tick there with `SendFailed`, and the state at that point is kept.
- A channel that cannot be fetched at all: the tick throws before any check. The model folds this into the `InvalidChannel` outcome.
- What an unhandled rejection does to the process. `updateEmbed()` is called without `await` or `catch` (index.js:115-116). On the Node versions discord.js v14 requires, an unhandled rejection ends the process. Three things reject this way: a failed catch-block send (`SendFailed`), the TypeError when building the embed (`EmbedFailed`), and a throwing `channels.fetch`. So in the source the bot stops there, while in the model such a tick only returns its outcome and further ticks may follow.
