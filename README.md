# Verification bot: setup wizard and role grant, modelled in Dafny

The bot keeps one configuration record per guild (Discord server) in a map keyed by the guild id
written in decimal, and writes the whole map to a JSON file after every change.
Administrators fill the record through a wizard:

1. intro;
2. embed step (edit the embed, edit the button);
3. role step (choose the role to grant);
4. log step (skip the log channel, or type a log-channel id).

Three administrator commands drive the wizard: `/서버세팅` (start setup), `/세팅변경` (change settings)
and `/인증` (post the verification prompt). An end user who clicks the prompt's button runs a chain
of checks that ends in a role grant, with an optional audit entry in the log channel.

Modules, one per component of `verified.py`:

- `Wrappers`: `Option`, `Result`.
- `Numerals`: `str(n)` and strict `int(s)` for ids, and the hex colour with its `0x00FF00` fallback.
- `Guilds`: roles, channels, `get_role`/`get_channel` lookups, the role-select menu options.
  `BuildRoleOptions` is the loop of the source, proved equal to `RoleOptions`.
- `Configs`: the `GuildConfig` record, its defaults, and Python truthiness of optional ids (`None` and `0` are unset).
- `Store`: class `ConfigStore`, with the in-memory map (`configs`) and the file snapshot (`disk`; `None` = no file).
  It has load, save and get-or-create.
- `Wizard`: `Handle`, one pure function that gives, for each action, the reply, the new record, whether the
  record was fetched (get-or-create) and whether it was saved. One imperative method per handler of the source
  runs against the store. Each is proved to do what `Handle` says (`Performs`).
- `Sessions`: the wizard as a state machine over the wizard messages open for a guild, counted as a multiset so two messages on the same screen stay distinct. Its invariant
  holds over every sequence of interactions: setup is complete only when a role is chosen.
- `Verification`: the click handler, as an ordered list of effects (`Decide`) and as a method over the store (`VerifyClick`).
- `Scenarios`: a client that walks a fresh guild through the wizard, deploys the prompt and clicks it.
  It uses only the handlers' contracts.

Behaviour of the code that the model keeps as written:

- The log-channel dialog's submit never sets `setup_complete`. The "set log channel" button sets it
  after opening the dialog, whatever the dialog's outcome. A guild can therefore be complete with no
  log channel even though the administrator asked for one.
- Setup can complete without the embed or the button ever being edited; the defaults are used.
  What does hold is that a completed setup has a role (`Sessions.CompleteImpliesRole`).
- The audit-entry post shares the grant's error handler. If the bot may not post in the log channel,
  the member is told that the role could not be granted, although it was (`Verification.LogPostDenialReadsAsGrantDenial`).
- `verify_callback` fetches the record with get-or-create, so a click in a guild without a record
  creates the default record. It never writes a field.

## Model

| member | source | states |
|---|---|---|
| `Numerals.ParseDecimal` | verified.py:167 | `int(s)` succeeds exactly on a non-empty string of decimal digits |
| `Numerals.DecimalString` | verified.py:36 | `str(n)` is a non-empty digit string without leading zeros |
| `Numerals.DecimalRoundTrip` | verified.py:329 | an option value written as `str(role.id)` reads back with `int` as the same id |
| `Numerals.DecimalStringInjective` | verified.py:36 | distinct ids have distinct decimal keys |
| `Numerals.EmbedColor` | verified.py:91-94 | the colour is the base-16 value of a hex-digit string and `0x00FF00` for anything else; it never fails |
| `Numerals.HexValueBound` | verified.py:91-92 | a string of k hex digits has a value below 16^k |
| `Numerals.SixDigitColorInRange` | verified.py:71-94 | a six-character code (the dialog's length) always gives a colour of at most `0xFFFFFF`, parsed or not |
| `Numerals.HexString` | verified.py:91-92 | the code written for a colour is exactly `width` hex digits |
| `Numerals.HexRoundTrip` | verified.py:91-92 | reading back the code written for a number that fits the width gives the number again |
| `Numerals.EveryColorHasCode` | verified.py:91-94 | every 24-bit colour is reached by some six-digit code, so the fallback is never the only colour |
| `Numerals.InvalidColorFallsBack` | verified.py:91-94 | `"GGGGGG"` falls back to `0x00FF00` |
| `Numerals.RedColorParses` | verified.py:91-92 | `"FF0000"` and `"ff0000"` both give `0xFF0000` |
| `Guilds.FindRole` | verified.py:354 | `get_role` returns a role of the guild with that id, and nothing exactly when no role has it |
| `Guilds.FindChannel` | verified.py:168 | `get_channel` returns a channel of the guild with that id, and nothing exactly when no channel has it |
| `Guilds.BuildRoleOptions` | verified.py:323-343 | the menu loop yields exactly `RoleOptions`: the offered roles in order, cut at 25, else the single placeholder |
| `Guilds.AssignableMembers` | verified.py:324-325 | a role is in the filtered list iff it belongs to the guild, is not named `"@everyone"` and is not managed |
| `Guilds.RoleOptionsShape` | verified.py:323-343 | the menu has 1 to 25 options; only the placeholder when no role is offered; otherwise the offered roles' options in guild order, truncated to 25 |
| `Guilds.RoleOptionSource` | verified.py:326-353 | every option's value parses; every option but the placeholder is the option of an offered role whose id its value encodes |
| `Configs.Default` | verified.py:38-47 | a new guild's record is not complete, has no truthy role id and no truthy log channel id, and has an emoji and a colour code |
| `Configs.Truthy` | verified.py:300 | an optional id counts as unset exactly when it is `None` or `0` (the same test at lines 442, 485 and 621); a set id is at least 1 |
| `Configs.KeysDistinct` | verified.py:36-38 | two guilds never share a record key |
| `Configs.DefaultColorIsFallback` | verified.py:42 | the default colour code `"00FF00"` parses, to the fallback colour |
| `Store.ConfigStore.constructor` | verified.py:18 | at process start the in-memory map is empty |
| `Store.ConfigStore.Load` | verified.py:21-27 | memory becomes the file snapshot or an empty map when there is no file; once memory and file agree, reloading changes nothing |
| `Store.ConfigStore.Save` | verified.py:30-32 | the file snapshot becomes the whole in-memory map |
| `Store.ConfigStore.GetOrCreate` | verified.py:35-49 | a present record is returned and nothing changes; an absent one is created with exactly the defaults and saved; no other key changes |
| `Store.ConfigStore.Put` | verified.py:86-89 | a handler's field writes replace the guild's record and save the map |
| `Wizard.ResolveLogChannel` | verified.py:165-196 | the typed id must parse, name a guild channel and that channel must be a text channel; each failure has its own error, each error happens exactly in its own case (not digits; digits naming no channel; a channel that is not a text channel), and success carries the parsed id |
| `Wizard.Handle` | verified.py:84-416 | for every action: an unfetched record is unchanged; every change is saved; only the log-step buttons set completion, and nothing resets it; only choosing a resolvable role changes the role; only skip or the dialog change the log channel; only the edit dialogs change embed or button fields; the log step is shown only with a truthy role; non-administrators are refused before any fetch |
| `Wizard.ServerSetup` | verified.py:527-557 | store and reply after `/서버세팅` are those given by `Handle` |
| `Wizard.ChangeSettings` | verified.py:562-594 | store and reply after `/세팅변경` are those given by `Handle` |
| `Wizard.SetupVerification` | verified.py:600-659 | store and reply after `/인증` are those given by `Handle` |
| `Wizard.StartSetup` | verified.py:206-225 | the intro's start button fetches the record and shows the embed step, as given by `Handle` |
| `Wizard.SubmitEmbed` | verified.py:84-104 | the embed dialog's store update and reply are those given by `Handle` |
| `Wizard.SubmitButton` | verified.py:129-148 | the button dialog's store update and reply are those given by `Handle` |
| `Wizard.OpenRoleStep` | verified.py:265-290 | the embed step's next button shows the role step with the menu options and leaves the store alone |
| `Wizard.ChooseRole` | verified.py:352-370 | the role menu callback's store update and reply are those given by `Handle` |
| `Wizard.AdvanceFromRoleStep` | verified.py:293-315 | the role step's next button behaves as given by `Handle` |
| `Wizard.SkipLogChannel` | verified.py:380-401 | the skip button's store update and reply are those given by `Handle` |
| `Wizard.OpenLogChannelDialog` | verified.py:404-416 | the set-log button opens the dialog and marks setup complete, as given by `Handle` |
| `Wizard.SubmitLogChannel` | verified.py:165-196 | the log-channel dialog's store update and reply are those given by `Handle` |
| `Wizard.EditEmbedFrame` | verified.py:84-104 | the embed dialog sets exactly title, description and the colour as typed, saves, and redisplays the embed step |
| `Wizard.EditButtonFrame` | verified.py:129-148 | the button dialog sets exactly the label and the emoji (None when empty), saves, and redisplays the embed step |
| `Wizard.RoleStepGuard` | verified.py:298-315 | advancing from the role step moves to the log step iff the stored role id is truthy; otherwise the error is reported and nothing changes |
| `Wizard.SelectOfferedRole` | verified.py:352-365 | choosing an offered role's option stores that role's id, which is truthy when role ids are positive |
| `Wizard.MenuValuesParse` | verified.py:329-353 | no option of the menu makes the callback's `int` raise |
| `Wizard.SelectRoleExactly` | verified.py:352-370 | for any menu value, a stale menu's included: not digits is unhandled; an id naming no role of the guild is reported with no fetch and no change; otherwise exactly that id is stored and saved |
| `Wizard.SelectPlaceholder` | verified.py:336-361 | the placeholder's value "0" never resolves, so the record is neither fetched nor changed |
| `Wizard.LogChannelSubmit` | verified.py:165-196 | each of the three errors leaves the record unfetched and unchanged; success sets only the log channel id |
| `Wizard.SkipLogCompletes` | verified.py:385-401 | skip clears the log channel, completes setup, saves and shows the final screen |
| `Wizard.SetupRefusedWhenComplete` | verified.py:536-543 | `/서버세팅` on a completed guild is refused and changes no field |
| `Wizard.CommandGuards` | verified.py:527-626 | `/인증` posts the prompt iff admin, complete, truthy role and the post succeeds; `/세팅변경` opens the embed step iff admin and complete; `/서버세팅` opens the intro iff admin and not complete |
| `Wizard.NonAdminTouchesNothing` | verified.py:529-534 | a refused non-administrator leaves memory and file as they were |
| `Wizard.OtherGuildsUntouched` | verified.py:35-49 | no action changes, creates or removes another guild's record |
| `Sessions.Step` | verified.py:84-416 | (buttons answer by editing their own message: lines 104, 148, 225, 282, 315, 401) a command, or a button its open message carries, leaves the record `Handle` gives; a command posts the screen it answers with as a new message; such a button replaces its own message with the screen it answers with; a button on no open message, or not carried by its message, changes nothing; a reply that is not a screen leaves the messages as they are; buttons edit their own message and never open or close one; a command opens at most one |
| `Sessions.TwinMessageStaysOpen` | verified.py:282 | of two messages on the same screen, using one leaves the other open |
| `Sessions.StepKeepsInv` | verified.py:298-416 | one interaction keeps the wizard invariant: completion or a visible log step implies a truthy role; the final screen implies completion |
| `Sessions.RunKeepsInv` | verified.py:298-416 | the invariant holds after any sequence of interactions, over any number of open wizard messages |
| `Sessions.CompleteImpliesRole` | verified.py:380-416 | from a fresh guild, a completed setup always has a truthy role to grant |
| `Sessions.CompletionIsStable` | verified.py:385-416 | once complete, a guild stays complete |
| `Sessions.EditsStayOnEmbedStep` | verified.py:102-146 | the edit dialogs leave their message on the embed step |
| `Verification.LogPart` | verified.py:484-504 | after a grant: nothing when the log channel id is unset or does not resolve; otherwise exactly one effect, the audit entry naming the member and the role when the post succeeds, else the follow-up of the handler the post's failure reaches |
| `Verification.Decide` | verified.py:438-507 | the click yields one to four effects; any success message shows two numbers in [1, 10] and their sum |
| `Verification.AbortsBeforeGrant` | verified.py:442-462 | role unset, role missing and already verified each give exactly one reply and nothing else, in that order of precedence |
| `Verification.GrantExactly` | verified.py:457-476 | the configured role is granted, once and right after the acknowledgement, iff a truthy role id resolves, the member lacks it and adding it succeeds |
| `Verification.LogOnlyAfterGrant` | verified.py:475-496 | an audit entry comes only after a grant, only for a truthy resolvable log channel, and names the member and the role |
| `Verification.GrantOutcomes` | verified.py:457-507 | with the role resolving and not held: a refused grant gives the acknowledgement and the no-permission follow-up, another failure the error follow-up with its detail; a grant of the configured role is followed by the success message naming the role, the two numbers and their sum |
| `Verification.LogExactly` | verified.py:475-504 | an audit entry is posted iff the role was granted, the log channel id is truthy and resolves, and the post succeeds; a failed post after a grant ends in the error follow-up |
| `Verification.RepeatClickIsIdempotent` | verified.py:457-462 | a member just granted the role who clicks again gets only "already verified": no grant, no log |
| `Verification.LogPostDenialReadsAsGrantDenial` | verified.py:475-502 | a refused log post is reported to the member as a refused grant, after the grant happened |
| `Verification.VerifyClick` | verified.py:438-507 | the click's effects are `Decide` on the fetched record; no field is written; a missing record is only created with the defaults and saved (and then the role is unset) |
| `Scenarios.OpenWizardAndEditEmbed` | verified.py:84-104 | a fresh guild's setup command creates the default record; the embed edit stores "Title", "Desc", "FF0000" |
| `Scenarios.ChooseRoleAndSkipLog` | verified.py:352-401 | choosing role 42, advancing and skipping the log channel completes setup with role 42, no log channel, and saves |

## Left out

- Discord client, intents, gateway, command registration and sync, `bot.run` and the token check (verified.py:10-14, 510-522, 662-669): external I/O.
- Rendering: embed texts, button styles, select-menu descriptions and message wording. Replies are kept as tags (`Notice`, `Message`), screens as `Screen`.
- The disabled preview button of the embed step: it is only rendered. The prompt keeps the button's label and emoji.
- The two buttons that only open the embed and button dialogs (verified.py:247-263). `Sessions` offers the dialog submits directly on the embed step.
- JSON encoding and file errors. The file is a snapshot of the map; a malformed file or a record with missing keys is not modelled.
- The sleeps, `random.uniform` and the 300-second timeout of the intro message. `Sessions` lets an intro message be used at any time.
- The two random numbers: they are parameters, required to lie in [1, 10].
- The audit entry's timestamp and layout. `PostLog` keeps the channel, the member and the role.
- Concurrency: each handler is one atomic step. In particular, the one-second pause inside the set-log button, during which other handlers may run, is not modelled. The skip button writes the same field, `setup_complete` (verified.py:387, 415); no update is lost only because both write `True`.
- Views do not survive a restart of the process; `Sessions` does not model restarts.
- Python `int()` leniency: surrounding whitespace, a sign, `_` separators, a `0x` prefix in base 16, and non-ASCII digits. Parsing here is strict, so ids are never negative.
- The dialogs' length limits (title 256, description 4000, colour exactly 6, label 80, emoji 2, channel id 17 to 20). Any string is accepted.
- Failures of the replies and follow-ups themselves. Only three calls may fail (`CallResult` parameters): adding the role, posting the audit entry, and posting the verification prompt (`DeployCommand.send`, verified.py:644-659).
- `Guilds.FindChannel`: a channel's kind is only "text or not".
