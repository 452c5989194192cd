# AniCreator platform bot — verified model

AniCreatorBot is a Telegram bot on which any user can register one secondary
bot of their own. The user sends that bot's token, the platform checks it with
the Bot API's `getMe` call, and it stores a one-bot-per-user mapping in a JSON
data file. The first user to send `/start` becomes the platform's owner and
gets an admin panel with a report of recently created bots and two counts.

This project models the core of `bot.py` in Dafny:

- **The persisted document** (`PlatformState`): `owners`, the `users` map keyed
  by `str(user_id)`, the `bots` index keyed by bot username, and the
  append-only `stats.created_bots` log. Each mutator is a function from the old
  document to the new one: owner initialisation, `set_user_bot` and
  `delete_user_bot`. The queries are `is_owner`, `get_user_bot`, the
  `created[-10:]` slice and the counts.
- **The data file as an object** (`Storage.Store`): the four entries are fields
  that the mutator methods update in place. Each method is proved to produce
  the document its specification function computes.
- **Token registration** (`Registration`): the `waiting_for_token` map is the
  set of pending user ids, held by the class `Waiting`. "Create bot" adds the
  user only when they have no record. `receive_token`:
  - strips the text with Python's exact `str.isspace` set (`Text`);
  - rejects a text without `:`;
  - clears the pending flag when a record already exists;
  - keeps the flag on a network error or `ok=false`;
  - on success commits through `set_user_bot` and then clears the flag.
  The `getMe` outcome is an input value `NetworkError | NotOk | Ok(username)`,
  and the clock reading is a `now` parameter.
- **The other handlers** (`Handlers`):
  - `/start`;
  - the "delete" button;
  - the owner-gated `/admin` command and `admin_` callbacks, including the
    `enumerate` loop that builds the created-bots report.
- **Runs** (`Platform`): the system is the document plus the pending set, and
  a run is a fold of handler steps over a sequence of events. Lemmas state what
  holds along any run: the owner never changes once set, and a user's record is
  never replaced before they delete it. Mirror consistency holds along a run
  in which every username `getMe` returns for a committed registration is not
  yet indexed.

Mirror consistency is stated only under a precondition. `set_user_bot` never
removes a stale `bots` entry, so `bots` mirrors `users` only while a
registration is for a user without a record (the guard
in `receive_token`) and for a username not yet indexed. Nothing in the code
enforces the second condition. `Platform.SharedTokenBreaksMirror` shows two
users who send the same token: both are accepted, and the first user's record
loses its index entry.

The created-bots report prints `created[-10:]` oldest first, numbered from 1;
`Handlers.ShowsLastTen` states that order.

## Model

| member | source | states |
|---|---|---|
| `Keys.Decimal` | bot.py:75 | the decimal rendering used for user keys is nonempty, all digits, and has no leading zero |
| `Keys.DecimalRoundTrip` | bot.py:75 | reading the rendering back digit by digit gives the number again: `int(str(n)) == n` |
| `Keys.UserKey` | bot.py:75 | `str(user_id)` is nonempty and starts with `-` exactly for negative ids |
| `Keys.UserKeyInjective` | bot.py:70 | two ids share a `users` key exactly when they are the same id |
| `Text.Strip` | bot.py:329 | `strip()` leaves no whitespace at either end, and its result is empty exactly when the text is all whitespace |
| `Text.StripSlice` | bot.py:329 | the stripped token is one contiguous slice of the text, with only whitespace before and after it |
| `Text.NonSpaceSurvivesStrip` | bot.py:329-332 | a non-whitespace character such as `:` is in the stripped token exactly when it is in the raw text |
| `Text.StripIdempotent` | bot.py:329 | stripping twice gives the same token as stripping once |
| `PlatformState.LastTen` | bot.py:481 | `created[-10:]` is the suffix of the log of length min(10, log length) |
| `PlatformState.Default` | bot.py:43-53 | the document `load_data` returns without a data file: no owners, users, bots or log entries. `DefaultMirror` and the store's constructor are stated against it |
| `PlatformState.IsOwner` | bot.py:63-65 | `is_owner`: `u` is in the owner list. `InitOwnersEffect`, `Handlers.Start` and `Handlers.Admin` are stated with it |
| `PlatformState.GetUserBot` | bot.py:68-70 | `get_user_bot`: the record stored under `str(u)`, or none. The effect, gate and outcome lemmas are stated with it |
| `PlatformState.InitOwners` | bot.py:144-146 | owner initialisation as a function of the document; `InitOwnersEffect` and `Storage.Store.InitOwners` are proved against it |
| `PlatformState.SetUserBot` | bot.py:73-105 | `set_user_bot` as a function of the document; `SetUserBotEffect` and `Storage.Store.SetUserBot` are proved against it |
| `PlatformState.DeleteUserBot` | bot.py:108-126 | `delete_user_bot` as a function returning the new document and the flag; `DeleteUserBotEffect` and `Storage.Store.DeleteUserBot` are proved against it |
| `PlatformState.Counts` | bot.py:501-504 | the statistics figures: log length and number of user records; `SetUserBotCounts` and `Handlers.Admin` are stated with it |
| `PlatformState.InitOwnersEffect` | bot.py:144-146 | an empty owner list becomes exactly `[u]`, a nonempty one is unchanged, `u` is then owner iff the list was empty or held `u` already, and nothing else in the document changes |
| `PlatformState.SetUserBotEffect` | bot.py:73-105 | `set_user_bot` stores `{token, username, now}` for `u` and `{u, token, now}` under `username`, and appends exactly one entry `{u, username, now, token}` after the unchanged earlier log; owners, other users' records and other index entries are untouched |
| `PlatformState.DeleteUserBotEffect` | bot.py:108-126 | with no record: reports false and changes nothing. With a record: reports true and removes exactly that record. It removes the index entry the record names only if that entry exists. The log, the owners and other users' records are never touched |
| `PlatformState.SetUserBotCounts` | bot.py:501-504 | each registration adds one to the created-bots count, and adds one to the user count exactly when the user had no record |
| `PlatformState.DefaultMirror` | bot.py:43-53 | the default document is mirror-consistent |
| `PlatformState.SetUserBotPreservesMirror` | bot.py:86-96 | registering a user without a record, under a username not yet indexed, keeps `bots` a mirror of `users` |
| `PlatformState.DeleteUserBotPreservesMirror` | bot.py:116-123 | deleting keeps `bots` a mirror of `users` |
| `PlatformState.InitOwnersPreservesMirror` | bot.py:144-146 | owner initialisation keeps the mirror |
| `PlatformState.ReusedUsernameBreaksMirror` | bot.py:92-96 | when a second user registers the username that another user's record names, the overwritten index entry leaves that record unmirrored |
| `Storage.Store.constructor` | bot.py:41-53 | a store without a data file holds the default document: no owners, users, bots or log entries |
| `Storage.Store.InitOwners` | bot.py:144-146 | the fields afterwards hold the document owner initialisation computes |
| `Storage.Store.SetUserBot` | bot.py:73-105 | the in-place writes of `set_user_bot` leave exactly the document `PlatformState.SetUserBot` computes |
| `Storage.Store.DeleteUserBot` | bot.py:108-126 | the in-place deletions and the returned flag are exactly those `PlatformState.DeleteUserBot` computes |
| `Registration.MainMenuGate` | bot.py:247-293 | "create bot" makes the user pending exactly when they have no record. A user with a record is never prompted: "create bot" shows the limit view naming their bot, and the pending set is unchanged. No button changes another user's pending state |
| `Registration.MenuTransition` | bot.py:229-319 | `main_menu_callbacks` as a function: the view and the new pending set. `MainMenuGate` and `Waiting.MainMenu` are proved against it |
| `Registration.TokenToCheck` | bot.py:329-350 | the token `getMe` would be called with, or none when `receive_token` replies first. The request lemmas are stated with it |
| `Registration.TokenTransition` | bot.py:326-365 | `receive_token` as a function: new document, pending set and reply. The outcome lemmas and `Waiting.ReceiveToken` are proved against it |
| `Registration.MalformedTokenRejected` | bot.py:329-334 | a text without `:` gets the format error before any `getMe` request; the user stays pending and the store is unchanged |
| `Registration.NoRequestNoDependence` | bot.py:329-353 | when no `getMe` request is made, the reply and new state do not depend on what `getMe` would have answered |
| `Registration.RequestedTokenWellFormed` | bot.py:348-350 | `getMe` is called only for a pending user without a record, with the stripped token, which contains `:` |
| `Registration.ReceiveTokenOutcome` | bot.py:326-365 | the user stays pending exactly on a format error, network error or `ok=false`. The store changes exactly on success, and then holds the stripped token under the returned username. An existing record gets "already has a bot" and nothing is created. Other users' pending states are untouched |
| `Registration.TokenTransitionDoc` | bot.py:337-362 | `receive_token` changes the document only by `set_user_bot` for a pending user without a record after a `getMe` success |
| `Registration.Waiting.constructor` | bot.py:226 | the pending map starts empty |
| `Registration.Waiting.MainMenu` | bot.py:229-319 | the main-menu callback returns the view and sets the pending set that `MenuTransition` specifies, without writing the store |
| `Registration.Waiting.ReceiveToken` | bot.py:326-365 | the reply, the new pending set and the new store are those `TokenTransition` specifies |
| `Handlers.Start` | bot.py:138-178 | `/start` initialises the owner. It greets the caller as owner exactly when the list was empty or already held them. It offers "create bot" exactly when the caller has no record |
| `Handlers.BotDelete` | bot.py:389-428 | a user without a record is turned away with the store unchanged; otherwise the record is deleted as `delete_user_bot` specifies |
| `Handlers.BuildBotsReport` | bot.py:478-496 | an empty log gives "none created". Otherwise the report has min(10, log length) lines, numbered 1..k, which are the last log entries in log order |
| `Handlers.Admin` | bot.py:452-535 | a non-owner is denied every section. For an owner: the bots section is the last-ten report, stats is (log length, number of user records), and the other sections are placeholders |
| `Handlers.TwelveEntriesShowLastTen` | bot.py:481-496 | with twelve log entries the report's lines are exactly entries 3 to 12, numbered 1 to 10 |
| `Platform.StepKeepsOwners` | bot.py:144-146 | once there is an owner, no handled event changes the owner list |
| `Platform.Step` | bot.py:138-428 | one handled event: `/start`, a main-menu button, a text message or the delete button. The run lemmas are proved against it |
| `Platform.OwnersStable` | bot.py:144-146 | once there is an owner, no run of events changes the owner list |
| `Platform.FirstStartOwnsForever` | bot.py:143-146 | the first `/start` on an ownerless platform makes its sender the sole owner for the rest of any run |
| `Platform.NonStartKeepsOwners` | bot.py:143-146 | only `/start` writes the owner list: every other event leaves it as it is, even when it is empty |
| `Platform.StartFreeRunKeepsOwners` | bot.py:143-146 | a run with no `/start` leaves the owner list as it is |
| `Platform.RunAppend` | bot.py:138-428 | handling two stretches of events in turn is handling them joined |
| `Platform.FirstStartEverFromInit` | bot.py:143-146 | from a fresh process, whatever button presses, token messages or deletes come first, the first user ever to send `/start` is the sole owner for the rest of the run |
| `Platform.StepKeepsRecord` | bot.py:337-345 | no event except the user's own delete changes that user's existing record |
| `Platform.RecordKeptUntilDeleted` | bot.py:249-270 | a user's record stays exactly as it is along any run without their delete, however often "create bot" is pressed or a token is sent |
| `Platform.StepPreservesMirror` | bot.py:337-362 | each handled event keeps the mirror when, if it commits a registration, the `getMe` username is not yet indexed |
| `Platform.RunPreservesMirror` | bot.py:337-362 | the mirror holds along every run in which each username committed by a registration is not yet indexed |
| `Platform.SharedTokenBreaksMirror` | bot.py:359-362 | two different users who send the same well-formed token, resolved to the same username, are both registered, after which the mirror is broken |
| `Platform.RegistrationScenario` | bot.py:326-382 | walk-through: on a fresh platform a user starts, presses "create bot" and sends a text with `:` that `getMe` accepts. The user is then owner, holds exactly the record for the stripped token, is no longer pending, and the log has one entry. The document is mirror-consistent, and pressing "create bot" again shows the limit |
| `Platform.FooBotScenario` | bot.py:326-365 | the same walk-through with `111:AAA` resolved to `fooBot` stores exactly `{111:AAA, fooBot, now}` and clears the pending state |

## Left out

- Telegram transport is not modelled: message sending, editing, callback answers, keyboards and the reply texts. Replies are data values (`MenuView`, `TokenReply`, `StartView`, `AdminView`, `DeleteView`).
- The HTTP `getMe` request is not modelled, being a network client. Its outcome is an input, and `Registration.TokenToCheck` names the token the request would carry. A response with `ok` but no `result.username` (a `KeyError` in the source) is not modelled.
- JSON reading and writing in `load_data`/`save_data` is not modelled. The file is the `Storage.Store` object. The "file exists" branch of `load_data` and a corrupt file are outside the model.
- The "key missing" repairs in `set_user_bot` (bot.py:77-82) are not modelled: the document always has all its entries.
- `settings.force_sub` is never read or written beyond its empty default, so it is not modelled.
- `time.time()` is not modelled. Timestamps are the `now` parameter, already truncated to an integer.
- `format_timestamp` is not modelled because it depends on the locale: report lines carry the raw timestamp.
- The report's text rendering is not modelled: `Handlers.ReportLine` holds the fields each line prints.
- The startup environment check and the polling loop are not modelled. They are process plumbing.
- Concurrent handlers and lost updates on the data file are not modelled: events are handled one at a time.
- The bot status and broadcast buttons (bot.py:389-450) are not modelled. They are gated on having a record, not on being owner, and carry no logic.
- The admin media, send and settings sections are modelled only as owner-gated placeholders, since they have no logic.
- The `Message` event of `Platform.Step` stands for a text other than the `/start`, `/admin` and `/Admin` commands. Those handlers are registered before `receive_token` and take such texts first, so a pending user's `/start 1:A` never reaches it. The model lets a `Message` carry any text, which over-approximates: every `Message` lemma holds for all texts.
- A text message whose sender is not pending is not handled by `receive_token`. The model returns `NotIntercepted` and changes nothing.
