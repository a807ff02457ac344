# Predeactor-Cogs core, modelled in Dafny

This project models the core of a set of Red Discord bot plugins ("cogs").
Each cog is a Dafny module:

- **CustomCooldown** (`customcooldown.dfy`) keeps per-channel and per-category
  slow modes for each user. A message sent before a user's cooldown has run
  out is deleted, the author may be told by DM, and the bot owner is told
  once when the bot cannot delete. The module also models the configuration
  commands: add, edit, update and delete entries, ignore lists, bypass and
  data deletion.
- **CaptcherCore** and **Captcher** (`captcher_core.dfy`, `captcher.dfy`) run
  a join-time captcha. They generate a code, wait for the member's answer,
  then give or remove roles, kick, write to the log channel and clean up.
  The configuration commands and the `challengeuser` command are included.
- **Cleverbot** (`cleverbot.dfy`) covers the asynchronous Cleverbot client:
  the emotion table, the two-message context window, reading an API answer
  and the error classification.
- **CommandsCounter** (`commandscounter.dfy`) counts command uses and command
  errors and answers `count`.
- **Leaderboard** (`leaderboard.dfy`) handles reputation points and the
  paged `repboard`: sorting, finding the author's rank, the rank labels and
  truncating names.
- **Lyrics** (`lyrics.dfy`) covers the numbered song menu, choosing from it
  and delivering the lyrics embeds.
- **CodeSource** (`codesource.dfy`) shows a command's source as numbered,
  fenced pages.
- **Sxcu** (`sxcu.dfy`) covers the sxcu.net link shortener: the link check,
  reading the stored credentials, the shorten call and the reply.

`Wrappers` (Option and Result) and `Strings` (digits, decimal printing with
its round trip, lower-casing, search and replace) are shared helpers.

Whatever the bot reads from Discord or the network becomes a parameter of the
operation: permissions, the reply a user typed, an HTTP answer, whether a
role or channel still resolves, the current time. Whatever the bot does to
Discord becomes a returned list of effects or replies.

## Model

| member | source | states |
|---|---|---|
| CustomCooldown.NotifyOwner | customcooldown/customcooldown.py:830-841 | the owner is warned exactly when not yet in the warned list, and is then added to it |
| CustomCooldown.Judge | customcooldown/customcooldown.py:86-118 | a user not yet stamped is a first message; a missing cooldown time raises; a gap no longer than the time is too soon, a longer one has cooled down (proved through FirstMessageRecorded to CooledDownRefreshes) |
| CustomCooldown.Block | customcooldown/customcooldown.py:94-113 | the too-soon rule: delete when possible, DM the author if asked and human, warn the owner when the deletion failed (BlockKeepsChannels, BlockWarnsOnce, BlockAppends) |
| CustomCooldown.ChannelGate | customcooldown/customcooldown.py:77-121 | the channel rule: judge the author against the channel's stamps, then record, block or raise (ChannelGateWarnsOnce) |
| CustomCooldown.CategoryGate | customcooldown/customcooldown.py:123-166 | the category rule on the snapshot taken at the start, which writes its refresh under both keys (CategoryGateKeepsChannels, CategoryRefreshStoredUnderChannelKey) |
| CustomCooldown.OnMessageSpec | customcooldown/customcooldown.py:733-763 | the listener: ignored messages change nothing, otherwise the channel gate then the category gate (the lemmas from FirstMessageRecorded to OnMessageWarnsOnce) |
| CustomCooldown.FirstMessageRecorded | customcooldown/customcooldown.py:86-90 | a user's first message in a cooldown channel is let through and stamped with the current time; only the category gate can delete it |
| CustomCooldown.TooSoonDeletesAndKeepsTimestamp | customcooldown/customcooldown.py:94-113 | a message inside the cooldown is deleted first (or a deletion is attempted) and the stored timestamps are left as they were |
| CustomCooldown.CooledDownRefreshes | customcooldown/customcooldown.py:114-118 | a message after the cooldown ran out stores the current time for that user and changes nothing else |
| CustomCooldown.MissingTimeRaises | customcooldown/customcooldown.py:91-94 | a channel without a cooldown time raises, with no effect and no state change |
| CustomCooldown.IgnoredChangesNothing | customcooldown/customcooldown.py:733-763 | ignored messages (bots, ignored users or roles, DMs) and channels with no cooldown change nothing |
| CustomCooldown.CategoryGateKeepsChannels | customcooldown/customcooldown.py:123-166 | the category gate never touches channel cooldowns and only appends effects |
| CustomCooldown.BlockKeepsChannels | customcooldown/customcooldown.py:94-113 | blocking a message changes no configuration and only appends effects |
| CustomCooldown.BothGatesRun | customcooldown/customcooldown.py:756-763 | a message too early for both its channel and its category triggers two deletions, the second failing because the message is gone |
| CustomCooldown.CategoryRefreshStoredUnderChannelKey | customcooldown/customcooldown.py:159-162 | the refreshed category entry is written under the category's own id and, again, under the channel's id |
| CustomCooldown.BlockWarnsOnce | customcooldown/customcooldown.py:94-113 | one block warns the owner at most once, and only when they were not warned before |
| CustomCooldown.AppendWarnsOnce | customcooldown/customcooldown.py:830-841 | appending effects that warn once per newly warned owner keeps the warn-once property |
| CustomCooldown.CountWarnedAppend | customcooldown/customcooldown.py:830-841 | owner warnings add up over concatenated effect lists |
| CustomCooldown.OnMessageWarnsOnce | customcooldown/customcooldown.py:733-763 | one message warns the owner once if it adds them to the warned list and never otherwise; the list only grows |
| CustomCooldown.NoWarningStep | customcooldown/customcooldown.py:733-763 | a step that changes neither the effects nor the warned list keeps the warn-once property |
| CustomCooldown.ChannelGateWarnsOnce | customcooldown/customcooldown.py:77-121 | the channel gate keeps the warn-once property |
| CustomCooldown.CategoryGateWarnsOnce | customcooldown/customcooldown.py:123-166 | the category gate keeps the warn-once property |
| CustomCooldown.OwnerWarnedAtMostOnce | customcooldown/customcooldown.py:830-841 | over any run of messages the owner is warned at most once, never if warned before, and stays in the warned list afterwards |
| CustomCooldown.DmedKeeps | customcooldown/customcooldown.py:830-841 | an owner already warned stays warned for the rest of any run |
| CustomCooldown.CategoryGateAppends | customcooldown/customcooldown.py:123-166 | the category gate's effects do not depend on the effects already produced |
| CustomCooldown.BlockAppends | customcooldown/customcooldown.py:94-113 | a block's effects do not depend on the effects already produced |
| CustomCooldown.ReturnTime | customcooldown/customcooldown.py:815-819 | a parsed duration becomes its whole number of seconds, rounded down; no duration gives none |
| CustomCooldown.RemoveFirst | customcooldown/customcooldown.py:38-48 | removing an id takes out one entry when present and adds nothing |
| CustomCooldown.RemoveFirstNoDuplicates | customcooldown/customcooldown.py:38-48 | on a list without duplicates, removal leaves exactly the other ids and no duplicates |
| CustomCooldown.AddUsersSpec | customcooldown/customcooldown.py:498-506 | every member given ends in exactly one of: appended to the list, refused as a bot, reported as already ignored |
| CustomCooldown.AddRolesSpec | customcooldown/customcooldown.py:582-587 | every role given is either appended or reported as already ignored |
| CustomCooldown.RemoveSpec | customcooldown/customcooldown.py:531-536 | every id given either removes one entry from the list or is reported as not ignored |
| CustomCooldown.AppendIgnoredUsers | customcooldown/customcooldown.py:498-506 | the loop's list and reports are AddUsersSpec's; the ignore list keeps its old prefix and gains exactly the non-bot members; bots and already-listed users are reported; no duplicates are introduced |
| CustomCooldown.AppendIgnoredRoles | customcooldown/customcooldown.py:582-587 | the loop's list and report are AddRolesSpec's; the role list keeps its prefix and gains exactly the given roles; already-listed roles are reported; no duplicates are introduced |
| CustomCooldown.RemoveIgnored | customcooldown/customcooldown.py:531-536 | the loop's list and report are RemoveSpec's; removal keeps exactly the listed ids not asked for (on a duplicate-free list) and reports the ids that were not listed |
| CustomCooldown.Cog.constructor | customcooldown/customcooldown.py:53-62 | the cog starts with the registered defaults and nobody warned |
| CustomCooldown.Cog.DmOwner | customcooldown/customcooldown.py:830-841 | the cog's warned list and effects follow the owner-notification rule |
| CustomCooldown.Cog.Reject | customcooldown/customcooldown.py:94-113 | deleting a message that came too early follows the block rule |
| CustomCooldown.Cog.HandleChannelCooldown | customcooldown/customcooldown.py:77-121 | the new configuration, warned list and effects are those of the channel gate |
| CustomCooldown.Cog.HandleCategoryCooldown | customcooldown/customcooldown.py:123-166 | the new state and effects are those of the category gate, which never raises |
| CustomCooldown.Cog.OnMessage | customcooldown/customcooldown.py:733-763 | the listener's new state, effects and exception are those of the message rule proved above |
| CustomCooldown.Cog.UpdateChannelData | customcooldown/customcooldown.py:767-776 | a channel entry is (re)written with its time and no users on cooldown; nothing else changes |
| CustomCooldown.Cog.UpdateCategoryData | customcooldown/customcooldown.py:778-788 | a category entry is (re)written with its time, its channels and no users on cooldown |
| CustomCooldown.Cog.AddChannel | customcooldown/customcooldown.py:338-370 | the channel is registered only with manage-messages, when not yet registered and with a non-zero time; each refusal has its own reply and changes nothing |
| CustomCooldown.Cog.EditChannel | customcooldown/customcooldown.py:372-394 | a registered channel gets the new time (even a zero one, which draws a warning first) and its users are reset; an unknown channel changes nothing |
| CustomCooldown.Cog.AddCategory | customcooldown/customcooldown.py:205-242 | a new category with a non-zero time is registered with the current channel list; without manage-messages a warning comes first but the command goes on |
| CustomCooldown.Cog.EditCategory | customcooldown/customcooldown.py:244-269 | a registered category with a non-zero time is rewritten; otherwise nothing changes and the refusal is reported |
| CustomCooldown.Cog.UpdateCategory | customcooldown/customcooldown.py:296-308 | a registered category keeps its time, gets the new channel list and loses its users on cooldown |
| CustomCooldown.Cog.DeleteChannel | customcooldown/customcooldown.py:396-417 | only a confirmed deletion of a registered channel removes it; refusal, timeout and unknown channel leave the configuration as it was |
| CustomCooldown.Cog.DeleteCategory | customcooldown/customcooldown.py:271-294 | only a confirmed deletion of a registered category removes it; every other case changes nothing |
| CustomCooldown.Cog.SetDm | customcooldown/customcooldown.py:428-442 | a given value is stored and confirmed with a reply naming it; no value shows help and changes nothing |
| CustomCooldown.Cog.SetIgnoreBot | customcooldown/customcooldown.py:444-462 | a given value is stored and confirmed with a reply naming it; no value shows help and changes nothing |
| CustomCooldown.Cog.AddIgnoreUsers | customcooldown/customcooldown.py:489-522 | only the ignored-users list changes, gaining exactly the non-bot members given; the replies are the refused bots (exactly the bot members given) when there are any, the ids already ignored (every given id that was listed before) when there are any, then the tick |
| CustomCooldown.Cog.RemoveIgnoreUsers | customcooldown/customcooldown.py:524-547 | only the ignored-users list changes, losing exactly the ids given; the replies are the ids already not ignored (every given id not listed before) when there are any, then the tick |
| CustomCooldown.Cog.AddIgnoreRoles | customcooldown/customcooldown.py:574-597 | only the ignored-roles list changes, gaining exactly the roles given; the replies are the roles already ignored (every given role listed before) when there are any, then the tick |
| CustomCooldown.Cog.RemoveIgnoreRoles | customcooldown/customcooldown.py:599-622 | only the ignored-roles list changes, losing exactly the roles given; the replies are the roles already not ignored (every given role not listed before) when there are any, then the tick |
| CustomCooldown.Cog.BypassChannel | customcooldown/customcooldown.py:686-702 | a user on cooldown in the channel is taken off it; otherwise nothing changes and the reason is given |
| CustomCooldown.Cog.BypassCategory | customcooldown/customcooldown.py:704-728 | a user on cooldown in the category is taken off it; otherwise nothing changes |
| CustomCooldown.Cog.DeleteDataForUser | customcooldown/customcooldown.py:38-48 | any deletion request except one from the user themself removes the user from the ignore list; nothing else changes |
| CaptcherCore.GenerateCode | captcher/core.py:60-67 | the code is five decimal digits without a leading zero, reading back as the drawn number |
| CaptcherCore.GenerateCodeInjective | captcher/core.py:60-67 | different draws give different codes |
| CaptcherCore.LevelOf | captcher/core.py:194-206 | a recognised log level is exactly the level's name |
| CaptcherCore.LevelRoundTrip | captcher/core.py:194-206 | every level's name reads back as that level; any other text is unknown |
| CaptcherCore.InspectPermissions | captcher/core.py:247-282 | the check passes exactly when all three permissions are held; otherwise it lists each missing permission once, in plural form when more than one is missing |
| CaptcherCore.MuteOrUnmute | captcher/core.py:356-361 | the member's overwrite becomes "send messages" set to the option; every other overwrite is kept |
| CaptcherCore.UnmuteAfterMute | captcher/core.py:356-361 | unmuting after muting is the same as unmuting directly |
| CaptcherCore.MakeStaffOverwrites | captcher/core.py:340-354 | @everyone cannot read, the bot can read and send, and each mod and admin role can read but not send; no other target is present |
| CaptcherCore.RoleKeeper | captcher/core.py:287-293 | with at least two roles, the member's roles without @everyone are kept in reverse order; otherwise it raises |
| CaptcherCore.KeptRoles | captcher/core.py:288 | the roles but @everyone, last first; none when the member has only @everyone |
| CaptcherCore.RolesRemover | captcher/core.py:295-299 | exactly the roles other than @everyone are removed, last first; when the bot may not manage roles the first removal raises and nothing is removed |
| CaptcherCore.AddRole | captcher/core.py:301-303 | the given roles are added in order up to the first that fails (a bare id, or a role the bot may not manage), which raises; it raises exactly when one fails |
| CaptcherCore.GiveRoleSpec | captcher/core.py:169-191 | the give-role rule: which role is given and which temporary role is removed, refused or raising (GiveRoleOutcomes) |
| CaptcherCore.StartEffects | captcher/core.py:81-89 | a challenge starts by adding the temporary role when it resolves and may be managed (else an error log), then logs the start |
| CaptcherCore.KickEffects | captcher/core.py:222-243 | the kick: a kick and its log when allowed, an error log otherwise |
| CaptcherCore.EditEffects | captcher/core.py:118-124 | muting or unmuting edits the channel with the overwrites of MuteOrUnmute, or logs the failure |
| CaptcherCore.VerdictSpec | captcher/core.py:104-139 | the verdict rule (VerdictFailureOrder, VerdictFinishedCleansUp, VerdictAddsNoRole) |
| CaptcherCore.ChallengeSpec | captcher/core.py:69-167 | the challenge rule (ChallengeNotSent to ChallengeFinishedCleansUp, ChallengeAddsNoRole) |
| CaptcherCore.CacheAfterLog | captcher/core.py:212-220 | looking up the log channel changes the cache entry of that member only |
| CaptcherCore.GiveRoleOutcomes | captcher/core.py:169-191 | the configured role is reported as given (Named) exactly when it and the temporary role resolve and roles can be managed; it is in fact given whenever it resolves and roles can be managed, so a missing temporary role gives it and then raises; raising happens exactly on a configured role not found or on a missing temporary role once the configured role (if any) was given; the temporary role is removed whenever Named or Plain; no role is added and nobody kicked |
| CaptcherCore.ChallengeNotSent | captcher/core.py:69-80 | when the captcha cannot be sent the challenge stops before sending, deleting or kicking |
| CaptcherCore.ChallengePassesIffCodeMatches | captcher/core.py:92-139 | a wrong answer fails the challenge; the right answer passes it unless giving the role raised |
| CaptcherCore.ChallengeNoKickOnPass | captcher/core.py:92-139 | a member who answers the code is never kicked |
| CaptcherCore.VerdictFailureOrder | captcher/core.py:126-139 | on failure the member's mute comes first, then the bot announces it and deletes the captcha, kicks if it may and unmutes, and deletes the reply and the final message last |
| CaptcherCore.ChallengeFailureOrder | captcher/core.py:69-139 | inside a whole challenge with a wrong answer, the start effects and the captcha come first, then the same order as in a failed verdict |
| CaptcherCore.ChallengeTimeout | captcher/core.py:92-103 | no answer in time raises; the member is kicked exactly when the bot may kick, and nothing is deleted |
| CaptcherCore.ChallengeFinishedCleansUp | captcher/core.py:104-167 | a finished challenge deletes the captcha, deletes the reply and final messages last, and drops the member from the log cache |
| CaptcherCore.VerdictFinishedCleansUp | captcher/core.py:104-139 | a finished verdict deletes the captcha, then the reply and the final message |
| Captcher.RolesMethodOf | captcher/captcher.py:241-244 | only the answers 1, 2 and 3 select a role-removal method |
| Captcher.RemovalSpec | captcher/captcher.py:245-258 | a raised removal changes no role; only method 2 reports a missing role; a removal only ever removes roles |
| Captcher.Captcher.constructor | captcher/core.py:28-41 | a guild starts from the registered defaults with an empty log cache |
| Captcher.Captcher.GetLogChannel | captcher/core.py:212-220 | returns the configured log channel when it resolves, and records only that member in the cache |
| Captcher.Captcher.ReportLog | captcher/core.py:193-210 | the log message goes to the resolved log channel at the level named |
| Captcher.Captcher.Kicker | captcher/core.py:222-243 | the kick and its log follow the kick rule |
| Captcher.Captcher.EditOverwrites | captcher/core.py:118-124 | the verification channel's overwrites follow the mute rule |
| Captcher.Captcher.GiveRole | captcher/core.py:169-191 | role giving follows the give-role rule proved above |
| Captcher.Captcher.Challenge | captcher/core.py:69-167 | the challenge's outcome, effects and cache follow the challenge rule proved above |
| Captcher.Captcher.Verdict | captcher/core.py:104-139 | the verdict's effects follow the rule proved above; a finished verdict drops the member from the cache |
| Captcher.Captcher.KickAndUnmute | captcher/core.py:130-137 | kicking is followed by restoring the member's overwrite, and only that member's cache entry can change |
| Captcher.Captcher.PermissionsChecker | captcher/core.py:245-285 | the report of missing permissions as above; a failed check switches the captcha off |
| Captcher.Captcher.SetGiveRole | captcher/captcher.py:25-44 | a role is stored; no role clears a set one or says none was set |
| Captcher.Captcher.SetTempRole | captcher/captcher.py:46-68 | a role is stored; no role clears a set one or says none was set |
| Captcher.Captcher.SetVerificationChannel | captcher/captcher.py:70-95 | a channel is stored only when the bot has its permissions; otherwise the captcha is switched off; no channel clears it |
| Captcher.Captcher.SetLogsChannel | captcher/captcher.py:97-120 | as for the verification channel, for the log channel |
| Captcher.Captcher.Activate | captcher/captcher.py:122-154 | no option shows the status; activation needs a resolving channel, the permissions and a temporary role; a vanished channel is cleared |
| Captcher.Captcher.Autoconfig | captcher/captcher.py:156-160 | the command only answers that it is disabled |
| Captcher.Captcher.OnMemberJoin | captcher/captcher.py:196-218 | a challenge starts exactly for a human joining an active guild with a resolving verification channel, and then follows the challenge rule |
| Captcher.Captcher.RemoveRoles | captcher/captcher.py:245-258 | agrees with RemovalSpec: method 1 raises with at most @everyone or without the right to manage roles, else removes every other role and keeps their ids; method 2 raises on an unset role or a forbidden removal, notices a role not found, else removes it; method 3 removes none |
| Captcher.Captcher.ChallengeUser | captcher/captcher.py:220-272 | bots are refused and a missing or unknown choice cancels; otherwise the effects are the removal's followed by the whole challenge's, the challenge is skipped when the removal raises or the verification channel is not found, no role is ever added back, and with method 1 a passed challenge ends on the exception raised by re-adding bare ids |
| Captcher.ChallengeAddsNoRole | captcher/core.py:69-167 | a challenge itself never adds a role |
| Captcher.VerdictAddsNoRole | captcher/core.py:104-139 | a verdict never adds a role |
| Cleverbot.EmotionByName | cleverbot/asynccleverbot/cleverbot.py:30-42 | exactly the ten emotion names and aliases are recognised |
| Cleverbot.EmotionAliases | cleverbot/asynccleverbot/cleverbot.py:30-42 | each emotion's value reads back as it; each alias names its emotion; values are distinct |
| Cleverbot.UpdateContextSpec | cleverbot/asynccleverbot/cleverbot.py:59-73 | the query is sent and stored last in its context; other contexts are untouched |
| Cleverbot.UpdateContextWindow | cleverbot/asynccleverbot/cleverbot.py:59-73 | a context never holds more than two messages; the previous message is sent as context exactly when two were stored |
| Cleverbot.LastN | cleverbot/asynccleverbot/cleverbot.py:59-73 | the window is no longer than asked or than the history |
| Cleverbot.ReplayKeepsLastTwo | cleverbot/asynccleverbot/cleverbot.py:59-73 | after any run of queries a context holds exactly the last two |
| Cleverbot.ReplayLeavesOthers | cleverbot/asynccleverbot/cleverbot.py:59-73 | queries on one context never change another |
| Cleverbot.DictContext.constructor | cleverbot/asynccleverbot/cleverbot.py:56-57 | a context store starts empty |
| Cleverbot.DictContext.UpdateContext | cleverbot/asynccleverbot/cleverbot.py:59-73 | the store and the request follow the window rule |
| Cleverbot.FromRaw | cleverbot/asynccleverbot/cleverbot.py:89-95 | an answer missing its text or status is the API being down; otherwise they are read as they are |
| Cleverbot.Classify | cleverbot/asynccleverbot/cleverbot.py:133-148 | no answer means API down, the credentials error means an invalid key, the malformed sentinel means API down, and anything else is read as an answer |
| Cleverbot.Cleverbot.constructor | cleverbot/asynccleverbot/cleverbot.py:101-111 | a client starts with no context |
| Cleverbot.Cleverbot.SetContext | cleverbot/asynccleverbot/cleverbot.py:113-118 | only a dictionary context is accepted; anything else raises and changes nothing |
| Cleverbot.Cleverbot.Ask | cleverbot/asynccleverbot/cleverbot.py:120-148 | a non-emotion raises before sending; otherwise the request carries the emotion's value and the context window, and the answer is classified as above |
| CommandsCounter.StepEffects | commandscounter/count.py:68-88 | a bot's command changes nothing; a use or an error touches only that command's counter, and a first error also counts as a use |
| CommandsCounter.Step | commandscounter/count.py:68-88 | one listener call on the table (StepEffects) |
| CommandsCounter.Replay | commandscounter/count.py:68-88 | the listener calls in order from an empty table (ReplayCounts, TallyUnseen) |
| Strings.Lower | commandscounter/count.py:41 | the lower-cased command has the same length, maps each character through ASCII lower-casing and has no upper-case letter left |
| CommandsCounter.ReplayCounts | commandscounter/count.py:68-88 | after any run of events, a command is known exactly when seen, counting its uses (plus one for a first error) and its errors |
| CommandsCounter.TallyUnseen | commandscounter/count.py:68-88 | a command never seen has no uses and no errors |
| CommandsCounter.CommandsCounter.constructor | commandscounter/count.py:21-24 | the counter starts empty |
| CommandsCounter.CommandsCounter.OnCommand | commandscounter/count.py:68-77 | the counters follow the event rule for a use |
| CommandsCounter.CommandsCounter.OnCommandError | commandscounter/count.py:79-88 | the counters follow the event rule for an error |
| CommandsCounter.CommandsCounter.Count | commandscounter/count.py:35-55 | the answer names the lower-cased command, says whether it was used, and gives its uses and its errors when there is at least one |
| Leaderboard.TruncateText | leaderboard/leaderboard.py:175-179 | text within the limit is unchanged; longer text is cut to the limit, ending in an ellipsis |
| Leaderboard.PageCount | leaderboard/leaderboard.py:133 | the number of 15-row pages is the ceiling of the user count over 15 |
| Leaderboard.Label | leaderboard/leaderboard.py:150-157 | the first six ranks get their own emoji; the rest get the default |
| Leaderboard.LabelsDistinct | leaderboard/leaderboard.py:150-157 | the six special labels differ from each other and from the default |
| Leaderboard.Insert | leaderboard/leaderboard.py:119 | inserting keeps every entry and adds the new one |
| Leaderboard.InsertKeepsSorted | leaderboard/leaderboard.py:119 | inserting into a list sorted by descending points keeps it sorted |
| Leaderboard.SortByPoints | leaderboard/leaderboard.py:119 | the board is sorted by descending points and is a permutation of the users |
| Leaderboard.Scores | leaderboard/leaderboard.py:111-115 | each stored user becomes their name and points, in order |
| Leaderboard.FirstRank | leaderboard/leaderboard.py:120-125 | the rank is the 1-based position of the first entry with that name, or none when absent |
| Leaderboard.FindRank | leaderboard/leaderboard.py:120-125 | the search loop finds that rank |
| Leaderboard.PageLength | leaderboard/leaderboard.py:142-165 | every page but the last has 15 rows; the last holds the rest |
| Leaderboard.RowAt | leaderboard/leaderboard.py:150-163 | a row carries its rank, that entry's points and a name of at most 15 characters |
| Leaderboard.PageOf | leaderboard/leaderboard.py:142-165 | a page holds 1 to 15 rows ranked consecutively from 15(page-1)+1, each with its entry's points |
| Leaderboard.PageRows | leaderboard/leaderboard.py:142-165 | the loop builds the requested page's rows |
| Leaderboard.AuthorPoints | leaderboard/leaderboard.py:111-115 | the author's points are found exactly when the author is stored |
| Leaderboard.CollectUsers | leaderboard/leaderboard.py:111-115 | collection fails exactly when a stored user cannot be resolved; otherwise it yields the scores and the author's points |
| Leaderboard.RepboardSpec | leaderboard/leaderboard.py:99-173 | the board rule (RepboardOutcomes, RepboardShown, PageShown) |
| Leaderboard.Repboard | leaderboard/leaderboard.py:99-173 | the command's answer is the board rule's |
| Leaderboard.RepboardOutcomes | leaderboard/leaderboard.py:99-173 | an empty store answers "empty"; an unknown user or an author without points crashes; an out-of-range page is refused with the page count; otherwise the page is shown |
| Leaderboard.RepboardShown | leaderboard/leaderboard.py:99-173 | a shown board is the requested page of the sorted scores with the author's rank and points |
| Leaderboard.PageShown | leaderboard/leaderboard.py:142-173 | the shown page, page count, rows, rank and points are the ones computed from the sorted board |
| Leaderboard.LeaderBoard.constructor | leaderboard/leaderboard.py:30-34 | the store starts empty |
| Leaderboard.LeaderBoard.SetMention | leaderboard/leaderboard.py:72-78 | only the author's mention flag changes; their points are kept |
| Leaderboard.LeaderBoard.GiveRep | leaderboard/leaderboard.py:80-92 | the user gains one point and the reply reports the new total and whether to mention them |
| Leaderboard.LeaderBoard.Rep | leaderboard/leaderboard.py:45-64 | bots and oneself are refused with the cooldown reset; anyone else gets one point |
| Leaderboard.LeaderBoard.DeleteDataForUser | leaderboard/leaderboard.py:21-28 | only a request from Discord for a deleted user erases their data |
| Lyrics.YearShownAfter1970 | lyrics/lyrics.py:136-141 | a year is shown in bold only when it is after 1970 |
| Lyrics.YearSuffix | lyrics/lyrics.py:136-141 | the year part of a menu line, absent when the year is not a number (YearShownAfter1970) |
| Lyrics.MenuLine | lyrics/lyrics.py:136-142 | the numbered line of one result (MenuLinesAppend, MenuSpecLines) |
| Lyrics.MenuSpec | lyrics/lyrics.py:117-147 | the menu text and choices (MenuSpecFails, MenuSpecCount, MenuSpecLines, MenuSpecChoices) |
| Lyrics.Results | lyrics/lyrics.py:133-135 | the menu entries are at most as many as the search items and are all lyric results (their order is stated by ResultIndices) |
| Lyrics.ResultIndices | lyrics/lyrics.py:133-135 | the menu entries are the lyric results of the search, each once and in the search's order: entry k is the item at a strictly increasing index, and every lyric result's index is used |
| Lyrics.ResultsAreTheLyricResults | lyrics/lyrics.py:133-135 | the menu entries are exactly the lyric results of the search |
| Lyrics.NextKey | lyrics/lyrics.py:143-144 | the keys up to n+1 are those up to n plus the decimal n |
| Lyrics.KeyOf | lyrics/lyrics.py:143-144 | the decimal k is a key exactly when k is below the entry count, and reads back as k |
| Lyrics.KeysStep | lyrics/lyrics.py:143-144 | adding the next numbered entry keeps the keys exactly 0..n |
| Lyrics.ValuesStep | lyrics/lyrics.py:143-144 | adding the next entry keeps key i mapped to the i-th result |
| Lyrics.MenuSpecFails | lyrics/lyrics.py:117-147 | building the menu raises exactly when some result has an unusable album year |
| Lyrics.MenuSpecCount | lyrics/lyrics.py:117-147 | the menu numbers every lyric result |
| Lyrics.MenuLinesAppend | lyrics/lyrics.py:136-142 | one more result adds its numbered line at the end |
| Lyrics.MenuSpecLines | lyrics/lyrics.py:117-147 | the menu text is one numbered line per lyric result |
| Lyrics.MenuSpecChoices | lyrics/lyrics.py:117-147 | the choices map "0".."n-1" to the results in order |
| Lyrics.TitleChoose | lyrics/lyrics.py:117-147 | the loop raises exactly on an unusable year; otherwise the message is the header and one line per result, and the choices are numbered in order |
| Lyrics.MenuSpecPrefix | lyrics/lyrics.py:117-147 | a broken result in a prefix is a broken result of the whole search |
| Lyrics.OnlyFirstTenSelectable | lyrics/lyrics.py:87 | only the entries numbered below ten can be typed as a choice |
| Lyrics.Choose | lyrics/lyrics.py:88-102 | the choice check (ChooseFromMenu) |
| Lyrics.ChooseFromMenu | lyrics/lyrics.py:88-102 | a typed answer is accepted exactly when it is a menu key, and then selects that result |
| Lyrics.Embed.constructor | lyrics/lyrics.py:103-104 | a new embed has its title and no description |
| Lyrics.BuildEmbeds | lyrics/lyrics.py:103-109 | one embed object is appended once per chunk, so its description ends as the last chunk |
| Lyrics.Deliver | lyrics/lyrics.py:110-115 | no chunk raises, one chunk is sent, more are paged one per embed |
| Lyrics.MenuRepeatsLastChunk | lyrics/lyrics.py:103-115 | a paged menu shows every chunk only when all chunks equal the last one |
| Lyrics.ShowLyrics | lyrics/lyrics.py:103-115 | delivery follows the rule above |
| Lyrics.LyricsCog.constructor | lyrics/lyrics.py:32-35 | the cog starts without a client |
| Lyrics.LyricsCog.ObtainClient | lyrics/lyrics.py:149-168 | an existing client is reused; otherwise a non-empty key creates one, and no key gives none |
| Lyrics.LyricsCog.LyricsCommand | lyrics/lyrics.py:57-115 | no key and a failed search each get their reply; a broken year raises; otherwise the menu is shown and then silence, "not found" or the chosen lyrics |
| Lyrics.Respond | lyrics/lyrics.py:86-115 | the menu, the wait and the answer as above, for a successful search |
| Lyrics.Answer | lyrics/lyrics.py:86-115 | after the menu: silence, "not found" or the chosen result's lyrics |
| CodeSource.CodeSource | codesource/codesource.py:29-47 | an unknown command is reported; otherwise each chunk becomes one page labelled with its number and the page count, and wrapped in an escaped code block |
| CodeSource.Escape | codesource/codesource.py:41 | every fence in a chunk gets the invisible marker inside it (UnescapeRoundTrip, FourBackticksStillFence, NoBacktickUnchanged) |
| CodeSource.Wrap | codesource/codesource.py:41 | the escaped chunk inside a Python code block |
| CodeSource.PageLabel | codesource/codesource.py:45 | the "Page i/n" line, which reads back as i and n (ReadLabelOfPageLabel) |
| Strings.ReplaceAll | codesource/codesource.py:41 | Python's left-to-right, non-overlapping `str.replace` (UnescapeRoundTrip, StripReplacement) |
| Strings.NatToString | codesource/codesource.py:45 | Python's `str` of a natural number: at least one decimal digit, no leading zero, one digit exactly below ten; it reads back as the number (NatToStringRoundTrip) |
| CodeSource.LeadingDigits | codesource/codesource.py:45 | the digits at the head of a text are a prefix of it |
| CodeSource.LeadingDigitsOf | codesource/codesource.py:45 | the leading digits of digits followed by a non-digit are those digits |
| CodeSource.ReadCountsOf | codesource/codesource.py:45 | "i/n" followed by a newline reads back as i and n |
| CodeSource.ReadLabelOfPageLabel | codesource/codesource.py:45 | a page label reads back as the numbers it was written from |
| CodeSource.PagesNumbered | codesource/codesource.py:42-47 | page i reads as page i of the page count, so no two pages are equal |
| CodeSource.Strip | codesource/codesource.py:41 | taking out the marker leaves no marker |
| CodeSource.StripAppend | codesource/codesource.py:41 | taking out the marker distributes over concatenation |
| CodeSource.UnescapeRoundTrip | codesource/codesource.py:41 | escaping only inserts the marker: removing it gives back any chunk that did not contain it |
| CodeSource.StripReplacement | codesource/codesource.py:41 | the replacement is a fence with the marker inside |
| CodeSource.StripUnmarked | codesource/codesource.py:41 | text without the marker is unchanged by removing it |
| CodeSource.FourBackticksStillFence | codesource/codesource.py:41 | four backticks in a row still contain a fence after escaping |
| CodeSource.NoBacktickUnchanged | codesource/codesource.py:41 | a chunk without backticks is shown as it is |
| Sxcu.LinkFromFinds | sxcu/core.py:30 | the scan finds a link from position i exactly when one starts at or after i |
| Sxcu.LinkFrom | sxcu/core.py:30 | the regular-expression search for a link from position i on (LinkFromFinds) |
| Sxcu.IsLink | sxcu/core.py:30-33 | a text is accepted exactly when it contains "http://" or "https://" followed by a non-space |
| Sxcu.StripSlash | sxcu/core.py:131-132 | the stored URL loses exactly one trailing slash, and only when it has one |
| Sxcu.EmbedContentShowsDeletionIffNotDmed | sxcu/core.py:53-85 | the embed text starts with the URL and ends with the deletion URL exactly when that could not be DMed |
| Sxcu.DeletionFieldShowsIt | sxcu/core.py:53-85 | the deletion field contains the deletion URL |
| Sxcu.EmbedShowsDeletionIffNotDmed | sxcu/core.py:53-85 | the embed reply has the URL field and gains a "Deletion URL" field exactly when the DM failed |
| Sxcu.TextShowsDeletionIffNotDmed | sxcu/core.py:53-85 | the text reply starts with the URL and shows the deletion URL exactly when the DM failed |
| Sxcu.EmbedContent | sxcu/core.py:57-65 | the embed's text: the URL, then the deletion URL when the DM failed (EmbedContentShowsDeletionIffNotDmed) |
| Sxcu.AnswerText | sxcu/core.py:76-84 | the plain reply: the URL, then the deletion URL when the DM failed (TextShowsDeletionIffNotDmed) |
| Sxcu.Answer | sxcu/core.py:53-85 | an embed when embeds may be used, plain text otherwise (EmbedShowsDeletionIffNotDmed, TextShowsDeletionIffNotDmed) |
| Sxcu.Sxcu.constructor | sxcu/core.py:15-16 | the cog starts from the stored API tokens |
| Sxcu.Sxcu.ObtainCredentials | sxcu/core.py:110-134 | no URL is an error; asking for a key always raises; otherwise the URL without its trailing slash is returned and stored |
| Sxcu.Sxcu.Shortener | sxcu/core.py:87-108 | the link is posted to the stored URL plus "/shorten"; a status other than 200 is a server error, otherwise the URL and deletion URL are returned |
| Sxcu.Sxcu.ShortenCommand | sxcu/core.py:29-85 | an invalid link, a missing URL and a server error each get their reply; otherwise the deletion link is DMed and the reply shows it when the DM failed |
| Sxcu.StripSlashStable | sxcu/core.py:131-132 | stripping twice equals stripping once exactly when the URL does not end in two slashes |

## Left out

- Discord, the Red config store, HTTP and the clock are not modelled as I/O. What they return is a parameter of each operation, and what the bot sends is a returned list of effects or replies.
- Red's `parse_timedelta`, `humanize_timedelta`, `pagify`, `menu` and `MessagePredicate` are parameters or given results. Their own behaviour is not part of this model.
- CustomCooldown.Cog.OnMessage: the DM to the author is the effect `AuthorWarned(user, remaining)`; the custom message text and its humanized duration are not built.
- The `channelmessage` and `categorymessage` commands (customcooldown/customcooldown.py:626-678) and the listing commands of CustomCooldown only format or store text; they are not modelled.
- CustomCooldown.Cog.DeleteDataForUser: one guild's configuration is modelled; Red's iteration over every guild is not.
- The Captcher captcha image, the `_overwrite_channel` helper and the automatic setup that `autoconfig` would run are not modelled; `autoconfig` only answers that it is disabled, as the source does.
- Captcher.Captcher.RemoveRoles: roles are plain ids; what Discord does with a role that no longer exists, or with one above the bot's own, is not modelled apart from the single permission to manage roles.
- The Cleverbot HTTP session, the `close` call and the wrapper cog in cleverbot/cleverbot.py and cleverbot/core.py are not modelled. A payload is returned instead of being posted.
- Cleverbot.Cleverbot.constructor: the optional session and context arguments are not taken; a context is attached afterwards with SetContext, as the source's constructor itself does.
- The `count all` command of CommandsCounter formats a table of every counter; it is not modelled.
- Leaderboard.SortByPoints: sorted and a permutation are proved; that equal points keep their stored order (Python's stable sort) is not stated.
- The Leaderboard embeds, colours and DMs are not modelled; only their data are.
- Strings.Lower lower-cases ASCII letters only; Python's full Unicode case mapping is not modelled.
- Python's `int()` also accepts a sign, surrounding whitespace and underscores. The lyrics album year and the menu answer are modelled as plain decimal digits.
- Red's `bold` escaping of markdown in the album year is not modelled.
- The lyrics thumbnail, footer, colour and the `BOT_SONG_RE` clean-up of the query are not modelled.
- Lyrics.LyricsCog.LyricsCommand: the menu runs as a separate task in the source, and the command's `max_concurrency` limit is not modelled.
- Leaderboard.LeaderBoard.Rep: the command's cooldown (one use per user every 21600 seconds, leaderboard/leaderboard.py:47) is not modelled; the returned flag only says when the source resets it. The cooldown of `repboard` (one use per channel every 10 seconds, leaderboard/leaderboard.py:100) is not modelled either. Both are enforced by the bot framework before the command body runs.
- The ksoftapi client and its search are a given `Search` result.
- Sxcu.Sxcu.ObtainCredentials: the source builds a list holding the URL and the API key, then always raises when a key is needed, so the list is never returned. The model has the raise and not the list.
- The colour of the sxcu embeds and the `sxcu/commands.py` command group are not modelled.
- The `coronavirus` and `learning` cogs and the packages' `__init__` files are outside this model.
