# telegram-forwarder, modelled in Dafny

This project models the bookkeeping core of telegram-forwarder. The system listens to Telegram channels through a pool of user accounts. It fingerprints every message to drop duplicates, and it buffers albums (media groups) until a timer flushes them. Each forwarding group then passes messages through a status and schedule gate and a text filter. Finally, bots deliver the messages to the group's target channels under an hourly cap. Around this engine sit several smaller pieces: a pool of API credentials balanced over the accounts, a cron-style scheduler that opens and closes groups, a dotted-path settings store, a web login-code flow, the bot's command validators, a per-user rate limiter, the conversation-state store, an input sanitiser and the log readers.

There is one Dafny module per source file:

- `Database` (config/database.py): the tables as maps and sequences of records inside one `Database` class.
- `ApiPool` (core/api_pool_manager.py).
- `AccountManager` (core/account_manager.py).
- `Sender` (core/sender.py).
- `Listener` (core/listener.py).
- `GroupProcessor` (core/group_processor.py).
- `Scheduler` (core/scheduler.py).
- `Filters` (utils/filters.py).
- `Settings` (config/settings.py).
- `Auth` (web/auth.py).
- `Middleware` (bot/middleware.py).
- `States` (bot/states.py).
- `GroupHandlers` (bot/handlers/group.py).
- `ConfigHandlers` (bot/handlers/config.py).
- `Security` (utils/security.py).
- `Logger` (utils/logger.py).

Three shared modules support them:

- `Wrappers` holds `Option`.
- `PyStr` gives the Python string operations the code relies on: `strip`, `split`, `join`, `replace`, `count`, `lower`, `int()` and `str()`.
- `PyTime` gives `datetime.time.fromisoformat` as Python 3.10 and earlier define it: the `HH[:MM[:SS[.fff[fff]]]]` forms, with no time zone, plus the window comparison.

The objects whose fields the code updates in place are classes. Their methods say, in `ensures`, what the whole new state is. Pure decisions are functions, and the lemmas state the properties the code promises about them.

Everything external is a parameter:

- the current time (`now`, in seconds) and the time of day;
- random draws;
- the MD5 digest, as a function from string to string;
- the outcome of every Telegram call (authorised or not, and the send result);
- the rows a reload reads.

Timers are explicit events. Each album carries a timer generation, and a flush acts only when its generation is still the current one. That is how a cancelled asyncio timer, which never fires, is modelled.

## Model

| member | source | states |
|---|---|---|
| PyTime.FromIsoFormat | core/group_processor.py:148-149 | `time.fromisoformat` accepts only the `HH`, `HH:MM`, `HH:MM:SS` and fractional-second lengths |
| PyTime.FromIsoFormatHHMM | core/scheduler.py:337-338 | every two-digit `HH:MM` time parses to that time of day |
| PyTime.FromIsoFormatRejectsShortHour | core/group_processor.py:148-149 | `9:00` is refused |
| PyTime.OvernightWindow | core/group_processor.py:151-156 | a window whose start is after its end holds exactly outside the gap between end and start |
| PyTime.OvernightExample | core/scheduler.py:167-170 | a 22:00-08:00 window covers midnight and both bounds, and not the day in between |
| PyStr.Strip | utils/filters.py:246 | `str.strip` keeps no white space at either end and adds no character |
| PyStr.StripIdempotent | utils/security.py:107 | stripping twice is stripping once |
| PyStr.StripEmptyIffBlank | utils/filters.py:246-248 | a stripped line is empty exactly when the line is all white space |
| PyStr.Lower | utils/filters.py:113 | `str.lower` maps each character and keeps the length |
| PyStr.LowerIdempotent | utils/filters.py:113 | lowering twice is lowering once |
| PyStr.JoinSplit | utils/filters.py:228-230 | joining the pieces of a split with the same separator gives back the text |
| PyStr.SplitJoinChar | utils/filters.py:242-254 | splitting lines joined by a character none of them holds gives back the lines |
| PyStr.SplitPiecesLackSep | utils/filters.py:228 | no piece of a split holds the separator |
| PyStr.ContainsSplitsTwo | bot/handlers/group.py:370-372 | a text holding the separator splits into at least two pieces |
| PyStr.JoinEndsWithLast | bot/handlers/group.py:372 | two or more pieces joined end with the separator and the last piece |
| PyStr.SplitLastPiece | bot/handlers/group.py:372 | the last piece of a split ends the text, right after a separator, and holds no separator |
| PyStr.ReplaceAllSpec | utils/filters.py:225 | `str.replace` puts the replacement in every gap between the separator-free pieces of the text |
| PyStr.ReplaceAllAbsent | utils/security.py:101 | replacing a pattern the text lacks changes nothing |
| PyStr.CountOf | utils/filters.py:159 | `str.count` is one less than the number of split pieces |
| PyStr.ParseIntToString | core/scheduler.py:120-132 | an integer written out in decimal reads back as itself |
| PyStr.IntToStringInjective | core/scheduler.py:120-132 | two different integers are written out differently |
| States.StateOf | bot/states.py:43-45 | an unknown user is in the NORMAL state, a known one in the state stored for them |
| States.DataOf | bot/states.py:47-49 | an unknown user's data is the empty dictionary, a known one's is the stored dictionary |
| States.MergedData | bot/states.py:38-41 | `dict.update`: every updated key takes the new value, every other stored key keeps its value, no other key appears; an absent or empty update changes nothing |
| States.StateManager.constructor | bot/states.py:31-33 | both tables start empty |
| States.StateManager.SetUserState | bot/states.py:35-41 | the user's state is set; the data is merged only for a non-empty update; every other user's state and data are unchanged |
| States.StateManager.ClearUserState | bot/states.py:51-54 | the user is removed from both tables, reads NORMAL with empty data afterwards; every other user is unchanged |
| States.StateManager.InProcessIffStored | bot/states.py:56-59 | a user is in a process exactly when a state other than NORMAL is stored for them |
| States.ClearIdempotent | bot/states.py:51-54 | clearing twice is clearing once, and a cleared user reads NORMAL |
| States.MergeIdempotent | bot/states.py:38-41 | applying the same update twice is applying it once |
| Middleware.TakeWord | bot/middleware.py:26 | the first word of a text is a whitespace-free prefix that ends at whitespace or at the end of the text |
| Middleware.CommandWord | bot/middleware.py:26 | the logged command is a non-empty part of a non-empty message text |
| Middleware.AdminRequired | bot/middleware.py:11-32 | the handler runs only for a user in the admin list; every other user gets the permission-denied reply and nothing else |
| Middleware.AdminWithCommandProceeds | bot/middleware.py:25-29 | an admin's `/cmd args` message runs the handler and logs `/cmd` |
| Middleware.TakeWordOfWord | bot/middleware.py:26 | the first word of `word + " " + rest` is `word` |
| Middleware.ErrorHandler | bot/middleware.py:35-47 | a handler that returns passes its value through with no reply; one that raises yields no value and the error reply carrying the exception text |
| Middleware.Recent | bot/middleware.py:62-66 | the kept call times are exactly those younger than the window, each kept as often as it was stored |
| Middleware.RecentAppend | bot/middleware.py:62-66 | pruning distributes over concatenation, so the kept call times stay in their stored order |
| Middleware.RateLimiter.constructor | bot/middleware.py:50-52 | no call is recorded yet and the limits are the given ones |
| Middleware.RateLimiter.Call | bot/middleware.py:56-82 | expired call times are dropped; the call is allowed iff fewer than `max_calls` remain, and only an allowed call appends its time |
| Middleware.RecentAreYoung | bot/middleware.py:62-66 | every kept call time is younger than the window |
| Middleware.RecentIdempotent | bot/middleware.py:62-66 | pruning a pruned list changes nothing |
| Security.Without | utils/security.py:100-101 | `str.replace(c, '')` leaves no `c` and adds no character |
| Security.ReplaceCharIsRemoval | utils/security.py:101 | Python's `replace` with a one-character pattern and an empty replacement is exactly removal of that character |
| Security.WithoutAbsent | utils/security.py:101 | removing a character the text lacks changes nothing |
| Security.RemovedAllLacks | utils/security.py:99-101 | after the removal loop none of the dangerous characters remains and no character was added |
| Security.RemovedAllNoOp | utils/security.py:99-101 | a text without dangerous characters passes the loop unchanged |
| Security.SanitizeInput | utils/security.py:93-107 | the loop computes the sanitiser's function: empty for no text, else removal, truncation to 1000 characters, strip |
| Security.SanitizedSafe | utils/security.py:93-107 | a sanitised text has no dangerous character, at most 1000 characters and no surrounding whitespace |
| Security.SanitizeIdempotent | utils/security.py:93-107 | sanitising a sanitised text changes nothing |
| Security.EncryptData | utils/security.py:40-50 | without a key the data is returned as is; with one, the cipher's output when it succeeds and the data when it fails |
| Security.DecryptData | utils/security.py:52-63 | without a key the data is returned as is; with one, the cipher's output when it succeeds and the input when it fails |
| Security.EncryptDecryptRoundTrip | utils/security.py:40-63 | decrypting what was encrypted gives the data back, whenever the cipher itself round-trips |
| Auth.ExpiryInstant | web/auth.py:56 | at the instant `expires_at` a code is not yet expired (`>`) but no longer pending (`<`) |
| Auth.Unexpired | web/auth.py:133-139 | the cleanup keeps exactly the codes whose expiry has not passed, each unchanged |
| Auth.Cleaned | web/auth.py:125-142 | within a minute of the last cleanup the store is unchanged; after it exactly the unexpired codes remain, each unchanged |
| Auth.PendingCodes | web/auth.py:110-123 | exactly the unverified, unexpired codes are listed, with their expiry and the whole seconds remaining (`int` truncation) |
| Auth.VerifiedCodes | web/auth.py:150-152 | the active sessions are exactly the verified codes |
| Auth.AuthManager.constructor | web/auth.py:15-23 | no code is stored and the last cleanup is now |
| Auth.AuthManager.CleanupExpiredCodes | web/auth.py:125-142 | within 60 seconds of the last cleanup nothing changes; otherwise exactly the expired codes are dropped and the cleanup time is now |
| Auth.AuthManager.GenerateLoginCode | web/auth.py:25-46 | the store is what the cleanup leaves plus the first drawn six-digit code not in it, unverified and expiring in 300 seconds; the cleanup time moves to now exactly when a minute has passed since the last one |
| Auth.AuthManager.VerifyFromBot | web/auth.py:48-69 | success iff the code is stored, unexpired and the user is in the admin list read at this call; success marks it verified for that user, an expired code is deleted, anything else changes nothing |
| Auth.AuthManager.VerifyLoginCode | web/auth.py:71-88 | success iff the code is stored, unexpired, verified and carries a truthy user id; an expired code is deleted, otherwise the store is unchanged |
| Auth.AuthManager.GetUserByCode | web/auth.py:90-108 | a verified code yields its user's session and is consumed, the session marked admin exactly when the user is in the admin list read at this call (which may differ from the one the code was verified against); an unknown or unverified code yields nothing and changes nothing |
| Auth.AuthManager.RevokeAllCodes | web/auth.py:144-148 | the store is emptied and the count is the number of codes it held |
| Auth.AuthManager.PendingCodeListed | web/auth.py:110-123 | a code is pending exactly when the pending listing contains it, with the same expiry |
| Settings.SetSucceedsIffPathOpen | config/settings.py:97-108 | `set` succeeds exactly when no intermediate on the dotted path is a non-mapping |
| Settings.PathOpenInEmpty | config/settings.py:102-105 | in an empty configuration every path can be written, the intermediates being created |
| Settings.SetThenGet | config/settings.py:85-108 | after a successful `set`, `get` of the same path returns the written value |
| Settings.SetKeepsOtherPaths | config/settings.py:85-108 | a `set` leaves every path that diverges from the written one as it was |
| Settings.AdminUsersRoundTrip | config/settings.py:123-131 | `ADMIN_USERS` written as comma-separated decimals reads back as exactly those ids |
| Settings.SplitDecimals | config/settings.py:128 | splitting the comma-joined decimals on `,` gives the decimals back |
| Settings.DecimalEntry | config/settings.py:128 | a rendered integer has no comma, no surrounding space, and `int()` reads it back |
| Settings.DecimalsNonBlank | config/settings.py:128 | the `if u.strip()` filter drops none of the rendered ids |
| Settings.DecimalsParse | config/settings.py:128 | parsing every rendered id gives the ids back |
| Settings.AdminUsersRejectsBadEntry | config/settings.py:127-130 | one entry `int()` refuses makes the whole list `[]` (the `ValueError` branch) |
| Settings.MaskToken | config/settings.py:236 | an unset token shows as empty; otherwise its first ten characters (or all of a shorter token) followed by `...` |
| Settings.Settings.constructor | config/settings.py:17-40 | the loaded configuration, or the default configuration when there is no file |
| Settings.Settings.Get | config/settings.py:85-95 | a missing key or a step into a non-mapping yields the default |
| Settings.Settings.Set | config/settings.py:97-108 | succeeds iff the path is open; on success the new configuration is the written one and `get` returns the value; on failure nothing changes |
| Settings.Settings.IntSettingSources | config/settings.py:150-169 | a set environment variable wins and its `int()` failure raises; otherwise the configured value, then the default |
| Settings.Settings.BackupEnabled | config/settings.py:222-227 | a set `BACKUP_ENABLED` means true exactly when it reads `true` ignoring case |
| Settings.Settings.ToDictFields | config/settings.py:233-244 | `to_dict` fails exactly when an integer property raises; otherwise it carries the masked token, the admin ids, the interval and the whole configuration |
| Logger.FirstLevelFrom | utils/logger.py:195-199 | the level counted for a line is the first of DEBUG..CRITICAL whose `- LEVEL -` marker it contains, and none when it contains none |
| Logger.GetLogStats | utils/logger.py:169-204 | a missing file is the error result; otherwise the total is the line count and each level's count is the number of lines classified at that level |
| Logger.CountsBounded | utils/logger.py:195-199 | the per-level counts add up to the classified lines, never more than the total (the `break` counts a line once) |
| Logger.FirstMarkerWins | utils/logger.py:196-199 | a line carrying two markers is counted at the earlier level only |
| Logger.PyTailShape | utils/logger.py:222 | Python's `xs[-n:]`: the last `n` elements for positive `n`, everything for `0`, and a drop from the front for negative `n` |
| Logger.StripAll | utils/logger.py:224 | each returned line is the stripped line at the same place |
| Logger.RecentLogsAreLastLines | utils/logger.py:207-227 | the recent logs are the last `n` lines of the file (all of them when fewer), stripped, in order |
| Logger.Selected | utils/logger.py:245-248 | every selected line is the stripped form of a file line containing the marker |
| Logger.FilterLogsKeepsMarkedLines | utils/logger.py:230-256 | the result is the marked lines when at most `n`, else their last `n`; the level's case does not matter |
| Logger.UpperOfLower | utils/logger.py:247 | upper-casing a lower-cased level gives the upper-cased level |
| Logger.EmojiMonotone | utils/logger.py:131-139 | the emoji is monotone in the level: INFO and DEBUG get the info sign, then warning, error, critical |
| Logger.TelegramMessage | utils/logger.py:142 | the message starts with the emoji and the bold level name and ends with the formatted record in backquotes |
| ConfigHandlers.SetInterval | bot/handlers/config.py:39-77 | the intervals are written iff two integer arguments with `0 < min <= max` were given, and then both keys are written with those values |
| ConfigHandlers.SetLimit | bot/handlers/config.py:81-114 | the limit is written iff the first argument is an integer in 1..1000; a non-integer is the `ValueError` reply |
| ConfigHandlers.SetRotationStrategy | bot/handlers/config.py:156-193 | the strategy is written iff the lower-cased first argument is message, time or smart, and it is written lower-cased |
| ConfigHandlers.StrategyCaseInsensitive | bot/handlers/config.py:169 | an argument and its lower-cased form have the same effect |
| ConfigHandlers.Perform | bot/handlers/config.py:64-65 | the settings' configuration becomes the result of applying the writes in order, when each can be applied |
| ConfigHandlers.IntervalReadBack | bot/handlers/config.py:64-65 | after `/set_interval lo hi` the configuration holds `lo` and `hi` at the two interval paths |
| ConfigHandlers.LimitReadBack | bot/handlers/config.py:104 | after `/set_limit n` the configuration holds `n` at the hourly-limit path |
| ConfigHandlers.DottedPath | bot/handlers/config.py:64 | a two-part dotted key splits into its two parts |
| GroupHandlers.ParseChannelLink | bot/handlers/group.py:348-380 | a `-100` link gives its integer value and no username; `@name` gives `name`; a `joinchat` link gives neither; a `t.me/` link gives the text after its last `t.me/`; any other text is itself the username |
| GroupHandlers.ParsedIdNegative | bot/handlers/group.py:358-360 | a channel id parsed from a `-100` link is negative |
| GroupHandlers.MinusHundredNegative | bot/handlers/group.py:358-360 | an integer that starts with `-100` is negative |
| GroupHandlers.StripKeepsPrefix | bot/handlers/group.py:360 | `int()` strips whitespace, yet a text starting with `-100` keeps that prefix after the strip |
| GroupHandlers.DigitsPositive | bot/handlers/group.py:360 | a digit group containing a non-zero digit has a positive value |
| GroupHandlers.ParseChannelLinkExamples | bot/handlers/group.py:358-376 | `@news` gives the username `news`; a `-100` text that is not an integer gives neither (the caught `ValueError`) |
| GroupHandlers.AddChannelCommand | bot/handlers/group.py:158-232 | a channel is added iff there are two arguments, the group id is an integer and the link yields a channel id, which then comes from a `-100` link |
| GroupHandlers.UsernameLinksRefused | bot/handlers/group.py:173-177 | any link not starting with `-100` (a username, a t.me link) is refused as invalid |
| GroupHandlers.FormattedTimesMatch | bot/handlers/group.py:330 | every zero-padded `HH:MM` time passes the command's time pattern |
| GroupHandlers.AcceptedTwoDigitTimesParse | bot/handlers/group.py:330 | a five-character time the pattern accepts is also accepted by `time.fromisoformat` |
| GroupHandlers.OneDigitHourSlipsThrough | bot/handlers/group.py:330 | `9:00` passes the pattern although `time.fromisoformat` refuses it |
| GroupHandlers.SetScheduleCommand | bot/handlers/group.py:312-346 | a schedule is requested iff there are three arguments, the group id is an integer and both times match the pattern |
| GroupHandlers.SetFilterCommand | bot/handlers/group.py:234-269 | a filter is set iff the group id is an integer and the type is one of the five; it is enabled when no third argument is given or the third reads `true` in any case |
| GroupHandlers.ToggleFilterCommand | bot/handlers/group.py:273-308 | a toggle happens iff the group id is an integer of an existing group, and it sets the opposite of the current state (absent meaning off) |
| GroupHandlers.ToggleTwiceRestores | bot/handlers/group.py:273-308 | toggling twice brings the filter back to its original state |
| Filters.Hits | utils/filters.py:116 | the keyword hit count never exceeds the number of keywords |
| Filters.Matching | utils/filters.py:116 | the matched keywords are exactly the listed ones the text contains |
| Filters.HitsAsSet | utils/filters.py:116 | over a list without duplicates the hit count is the number of distinct matched keywords |
| Filters.UpperCaseKeywordNeverMatches | utils/filters.py:113-116 | the keyword `加QQ` is looked up in the lower-cased text, so it can never match |
| Filters.MoreKeywordsKeepAds | utils/filters.py:110-149 | adding keywords never turns an advertisement into a non-advertisement |
| Filters.SpamMatchesRatios | utils/filters.py:151-173 | the spam test stated with multiplications agrees with the source's three ratio tests (distinct characters, punctuation, upper-case share of Latin letters) |
| Filters.KeepLines | utils/filters.py:229 | the kept lines are exactly the lines without the pattern |
| Filters.ApplyCustomRules | utils/filters.py:209-236 | the loop applies the rules in order, skipping a rule without a pattern; a failing regex returns the text reached so far, after the earlier rules |
| Filters.SplitNewlinePieces | utils/filters.py:242 | no piece of a split on newlines contains a newline |
| Filters.RemoveLinesDropsEveryMatch | utils/filters.py:226-230 | after a `remove_line` rule no line contains its pattern |
| Filters.DropTrailingBlanks | utils/filters.py:250-252 | trailing blank lines are dropped: the result is a prefix whose last line is not blank |
| Filters.CleanWhitespace | utils/filters.py:238-258 | the two loops compute the cleaner's function: each line stripped, blank runs collapsed, leading and trailing blanks dropped |
| Filters.CleanAccTidy | utils/filters.py:243-248 | the first loop leaves stripped lines, no leading blank and no blank after a blank |
| Filters.CleanAccFixed | utils/filters.py:243-248 | the first loop leaves tidy lines as they are |
| Filters.CleanedTextShape | utils/filters.py:238-254 | a cleaned text's lines are tidy and its last line is not blank |
| Filters.CleanIdempotent | utils/filters.py:238-254 | cleaning a cleaned text changes nothing |
| Filters.TidyJoinStripped | utils/filters.py:254 | tidy lines ending in a non-blank one join into a text that has no surrounding whitespace |
| Filters.CleanedTextStripped | utils/filters.py:101-104 | the final `strip()` leaves a cleaned text as it is |
| Filters.FilteredTextIsClean | utils/filters.py:66-108 | a filtered text has no surrounding whitespace and cleaning it again changes nothing |
| Filters.SuppressionWins | utils/filters.py:75-82 | an advertisement (with ad detection on) or spam (with the smart filter on) yields the empty text, whatever the other filters |
| Filters.MessageFilter.constructor | utils/filters.py:13-30 | the keyword list starts as the built-in one |
| Filters.MessageFilter.FilterText | utils/filters.py:66-108 | the method computes the filter function with the current keyword list |
| Filters.MessageFilter.UpdateAdKeywords | utils/filters.py:305-314 | the new list holds exactly the old and the added keywords, each once |
| Filters.MessageFilter.GetAdKeywords | utils/filters.py:316-318 | a copy of the current keyword list |
| Database.AvailableApi | config/database.py:178-187 | no API is returned iff none is active with spare capacity; otherwise one that qualifies and that no qualifying API precedes in (`current_accounts`, `id`) order |
| Database.ApiByAppId | config/database.py:246 | the API with that `app_id`, or none when no row has it |
| Database.AccountByPhone | config/database.py:215-218 | the account with that phone, or none when no row has it |
| Database.AccountAt | config/database.py:215-218 | phones are unique, so looking up a row's phone finds that row |
| Database.AddToCurrent | config/database.py:193-196 | the `current_accounts` of the rows with that `app_id` moves by the delta, every other row is unchanged |
| Database.SetCurrent | core/api_pool_manager.py:248-251 | the `current_accounts` of the rows with that `app_id` is set, every other row is unchanged |
| Database.WithApiId | config/database.py:199-202 | the `api_id` of the rows with that phone is set, every other row is unchanged (an UPDATE of a missing phone changes nothing) |
| Database.WithLastMessageId | config/database.py:424-436 | `last_message_id` is set on every row of that group and channel, every other row is unchanged |
| Database.LastWriteWins | config/database.py:424-436 | of two updates of the same channel the later one decides |
| Database.WithStatus | config/database.py:281-299 | the account's status is set, and its error count only when one is given; every other row is unchanged |
| Database.SameKeysStatus | config/database.py:281-299 | a status update keeps ids and phones unique |
| Database.ClearBindings | core/api_pool_manager.py:227-230 | every account bound to that `app_id` is unbound, every other row is unchanged |
| Database.BoundPhones | config/database.py:244-246 | the phones listed for an API are exactly those of the accounts bound to it |
| Database.DropPhone | config/database.py:263 | the REPLACE half of `INSERT OR REPLACE`: every row with that phone is removed and the others stay |
| Database.DropPhoneValid | config/database.py:263 | removing a phone keeps ids and phones unique |
| Database.ActivePositions | config/database.py:272-279 | the positions of the active accounts, increasing (id order), and all of them |
| Database.ActiveAccounts | config/database.py:272-279 | the active accounts in id order |
| Database.PoolStatus | config/database.py:239-256 | one entry per API in id order, each with the phones bound to it |
| Database.HashCount | config/database.py:438-445 | the count of records with a hash is positive exactly when the hash is recorded |
| Database.KeepRecent | config/database.py:543-558 | the kept records are exactly those sent on or after the cutoff day |
| Database.Counted | config/database.py:473-496 | one more message, counted as a success or as an error |
| Database.CountedConsistent | config/database.py:473-496 | counting keeps `message_count = success_count + error_count` |
| Database.Database.constructor | config/database.py:35-163 | all tables start empty |
| Database.Database.AddApi | config/database.py:165-176 | inserted at the end with zero accounts and status active iff the `app_id` is new (the UNIQUE constraint); otherwise nothing changes |
| Database.Database.AssignApiToAccount | config/database.py:189-208 | the API's count goes up by one and the phone's row is bound to it, even when no row has that phone |
| Database.Database.ReleaseApiFromAccount | config/database.py:210-237 | an account bound to a non-empty `api_id` is unbound and that API's count goes down by one; otherwise nothing changes |
| Database.Database.AddListenerAccount | config/database.py:259-270 | any row with the phone is replaced by a fresh active row with a new id, no API and no errors |
| Database.Database.UpdateAccountStatus | config/database.py:281-299 | the account table becomes the status update, nothing else changes |
| Database.Database.AddSourceChannel | config/database.py:380-391 | one active row with `last_message_id` 0 is appended, nothing else changes |
| Database.Database.AddTargetChannel | config/database.py:393-404 | one active row is appended to the targets, nothing else changes |
| Database.Database.UpdateLastMessageId | config/database.py:424-436 | the sources table becomes the update, nothing else changes |
| Database.Database.AddMessageRecord | config/database.py:447-462 | one record is appended; its hash is forwarded afterwards and its count grows by one |
| Database.Database.UpdateStatistics | config/database.py:464-501 | today's row for the group and phone is counted, starting from zero when it is missing; nothing else changes |
| Database.Database.CleanupOldData | config/database.py:543-564 | records and statistics older than the cutoff are deleted, the rest are kept |
| Database.BindingFound | config/database.py:189-208 | after an assignment the phone's row is bound to the assigned API |
| Database.AssignReleaseCounts | config/database.py:189-237 | an assignment followed by a release of the same API restores every count |
| Database.ReleaseUnbinds | config/database.py:210-237 | after a release the phone's row has no API |
| Database.ReAddUnbinds | config/database.py:259-270 | re-adding an account yields a fresh row without its former API binding |
| Database.HashNotUnique | config/database.py:447-462 | recording the same hash twice keeps both records (the hash column is not unique) |
| ApiPool.StartEnd | core/api_pool_manager.py:217-224 | the runs of all APIs together cover every active account |
| ApiPool.StartStep | core/api_pool_manager.py:222-224 | each API's run starts where the previous one ended |
| ApiPool.StartMono | core/api_pool_manager.py:222-224 | run starts never decrease |
| ApiPool.TargetsBalanced | core/api_pool_manager.py:217-224 | two APIs' targets differ by at most one |
| ApiPool.TargetsSumPrefix | core/api_pool_manager.py:217-224 | the targets of the first `m` APIs add up to the start of run `m` |
| ApiPool.TargetsSum | core/api_pool_manager.py:217-224 | the targets add up to the number of active accounts |
| ApiPool.Slot | core/api_pool_manager.py:222-238 | every active account falls in the run of exactly one API |
| ApiPool.SlotOf | core/api_pool_manager.py:222-238 | an account inside API `i`'s run is assigned to API `i` |
| ApiPool.SlotBefore | core/api_pool_manager.py:222-238 | an account before API `i`'s run goes to an earlier API |
| ApiPool.ClearedStep | core/api_pool_manager.py:226-230 | one more clearing pass unbinds exactly the accounts bound to that API |
| ApiPool.WithoutApp | core/api_pool_manager.py:77-80 | the DELETE keeps exactly the rows with another `app_id` |
| ApiPool.WithoutAppValid | core/api_pool_manager.py:77-80 | the DELETE keeps ids and `app_id`s unique |
| ApiPool.Statistics | core/api_pool_manager.py:261-290 | the capacity and usage are the sums over the pool, `available` is their difference, the usage rate is used over capacity as a percentage and 0 for no capacity |
| ApiPool.AvailableIsHeadroom | core/api_pool_manager.py:261-290 | the available figure equals the free places of every API added up |
| ApiPool.SumAddToCurrent | config/database.py:193-196 | an assignment raises the total usage by one exactly when the API is in the pool |
| ApiPool.ApiPoolManager.constructor | core/api_pool_manager.py:13-17 | the manager works on the given database |
| ApiPool.ApiPoolManager.AddApi | core/api_pool_manager.py:39-64 | accepted iff the `app_id` is digits, the hash has 32 characters and the `app_id` is new; then it is appended under the next API id, otherwise nothing changes; the account id counter is kept |
| ApiPool.ApiPoolManager.RemoveApi | core/api_pool_manager.py:66-88 | refused while an account is bound to it, otherwise the API is deleted (an unknown `app_id` succeeds without change); both id counters are kept |
| ApiPool.ApiPoolManager.AssignApiToAccount | core/api_pool_manager.py:106-134 | an account already bound keeps its API; otherwise the least-used qualifying API is assigned and counted, and with none available nothing changes; both id counters are kept |
| ApiPool.ApiPoolManager.ReleaseApiFromAccount | core/api_pool_manager.py:136-151 | the database release, as a whole; both id counters are kept |
| ApiPool.ApiPoolManager.RebalanceApis | core/api_pool_manager.py:201-259 | refused with an empty pool; otherwise API `i` holds exactly the active accounts of its run, other bindings to listed APIs are cleared, and every count equals the accounts bound |
| ApiPool.ApiPoolManager.ClearAndAssign | core/api_pool_manager.py:222-238 | the outer loop processes every API and every active account |
| ApiPool.ApiPoolManager.ApiStep | core/api_pool_manager.py:222-238 | one iteration of the outer loop: clear the API's bindings, then assign its run |
| ApiPool.ApiPoolManager.ClearPass | core/api_pool_manager.py:226-230 | the clearing UPDATE unbinds exactly the accounts bound to that API |
| ApiPool.ApiPoolManager.AssignRun | core/api_pool_manager.py:232-238 | the inner loop binds the next `target_count` active accounts to the API |
| ApiPool.ApiPoolManager.Recount | core/api_pool_manager.py:240-251 | each API's count becomes the number of accounts bound to it |
| ApiPool.AssignIdempotent | core/api_pool_manager.py:106-114 | after an assignment the account's API is the assigned one, so a second request returns it unchanged |
| ApiPool.RemoveRefusedWhileBound | core/api_pool_manager.py:70-74 | while any account is bound to an API its listing is non-empty, so removal is refused |
| ApiPool.RemovedIsGone | core/api_pool_manager.py:77-80 | after a removal no API has that `app_id` |
| AccountManager.ShouldRotate | core/account_manager.py:341-366 | `message` always rotates; `time` rotates once the interval has passed; `smart` never before 600 seconds, always after the interval, and in between with probability 0.1; any other strategy never |
| AccountManager.RotationMonotone | core/account_manager.py:341-366 | with the same draw, waiting longer never turns a rotation into none |
| AccountManager.SmartAsTime | core/account_manager.py:352-364 | past the minimum and with a losing draw, `smart` behaves like `time` |
| AccountManager.ActivePhones | core/account_manager.py:328-329 | the candidates are exactly the loaded phones whose status is active, each as often as it was loaded |
| AccountManager.ActivePhonesAppend | core/account_manager.py:328-329 | the selection distributes over concatenation, so the candidates keep load order |
| AccountManager.ActivePhonesSnoc | core/account_manager.py:328-329 | one more loaded phone adds itself at the end exactly when it is active |
| AccountManager.ErrorStep | core/account_manager.py:429-441 | one error adds one to the count and suspends the account once the count reaches 5; nothing else changes |
| AccountManager.ErrorsSuspend | core/account_manager.py:429-441 | after `k` errors the count has grown by `k`, and the account is suspended iff the count reached 5 |
| AccountManager.FiveErrorsSuspend | core/account_manager.py:439-440 | from a clean active account, four errors keep it active and the fifth suspends it |
| AccountManager.WithError | core/account_manager.py:429-441 | an error on an unknown phone changes nothing; on a known one it applies one error step |
| AccountManager.WithLiveStatus | core/account_manager.py:448-455 | a loaded account shows its in-memory status and error count, any other shows `offline` with no errors; id and phone are kept |
| AccountManager.AccountList | core/account_manager.py:443-461 | one entry per database row, in order, each with its live status |
| AccountManager.ActiveAndErrorBound | core/account_manager.py:469-471 | active and error accounts together never exceed the total, so `offline` is never negative |
| AccountManager.CountStatusExtremes | core/account_manager.py:469-471 | a status count is zero iff no row has the status, and the whole total iff every row has it |
| AccountManager.Statistics | core/account_manager.py:463-491 | total, active and error counts, `offline` as the rest, and the usage rate as a percentage between 0 and 100 (0 without accounts) |
| AccountManager.RateBounds | core/account_manager.py:478 | `active / total * 100` lies between 0 and 100 |
| AccountManager.AccountManager.constructor | core/account_manager.py:19-36 | no client, status or login session; index 0 and the rotation clock started now |
| AccountManager.AccountManager.RotateClient | core/account_manager.py:368-378 | with clients the index advances by one modulo their number and the rotation time is now; without clients nothing changes |
| AccountManager.AccountManager.GetCurrentClient | core/account_manager.py:323-339 | none iff no client is active; otherwise the active client at the index (after the rotation, if due) modulo the number of active clients |
| AccountManager.AccountManager.HandleClientError | core/account_manager.py:429-441 | a known phone's count and status follow one error step and the database row is marked `error` with the new count; an unknown phone changes nothing |
| AccountManager.AccountManager.ReconnectClient | core/account_manager.py:411-436 | an authorised client is active with no errors and an unauthorised one is marked so, the account rows untouched; a failed connection (or a phone without a client) counts an error in memory and, for a phone with a status, writes `error` with the new count to its account row |
| AccountManager.AccountManager.StartLogin | core/account_manager.py:161-196 | succeeds iff an API is bound or available and the code was sent; then a session in step `code` is stored for the phone, otherwise nothing is stored; a phone with no bound API takes the first available one, whose use count goes up by one and whose id is written to the phone's row, and otherwise the tables are unchanged |
| AccountManager.AccountManager.CompleteLogin | core/account_manager.py:205-231 | the phone's rows are replaced by one fresh active row with the signed-in user, the phone joins the clients once, its status is active with no errors and the session's API, and the session is consumed |
| AccountManager.AccountManager.SubmitCode | core/account_manager.py:198-243 | without a session an error and no change; a sign-in leaves exactly the state `CompleteLogin` leaves; a two-step account moves the session to `2fa`; a refused code changes nothing |
| AccountManager.AccountManager.Submit2faPassword | core/account_manager.py:245-285 | success iff a session exists and the password signs in, which leaves exactly the state `CompleteLogin` leaves; otherwise an error and no change |
| Sender.WaitTime | core/sender.py:292-304 | the wait is never negative, brings the gap since the last send up to the interval, and is zero once the interval has passed |
| Sender.WaitBounded | core/sender.py:292-304 | with the interval drawn between the minimum and maximum, no wait exceeds the maximum |
| Sender.ActiveBots | core/sender.py:311-316 | the candidates are exactly the loaded bots whose status is active, each as often as it was loaded |
| Sender.ActiveBotsAppend | core/sender.py:311-316 | the selection distributes over concatenation, so the candidates keep load order |
| Sender.ActiveBotsSnoc | core/sender.py:311-316 | one more loaded bot adds itself at the end exactly when it is active |
| Sender.AllActive | core/sender.py:311-316 | when every bot is active the candidates are all bots |
| Sender.RotatedIsShift | core/sender.py:325-328 | `k` rotations from index `i` land on `(i + k) mod n` |
| Sender.RoundRobinVisitsAll | core/sender.py:306-328 | with every bot active, the `k`-th send after a fresh start goes to the `k`-th bot, so each bot is used in turn |
| Sender.ModSucc | core/sender.py:328 | rotating the reduced index equals reducing the advanced one |
| Sender.ErrorStep | core/sender.py:330-348 | one failure adds one to the bot's count and suspends it once the count reaches 5; its name and last use are kept |
| Sender.FailuresSuspend | core/sender.py:330-348 | after `k` failures the count has grown by `k` and the bot is suspended iff the count reached 5 |
| Sender.MessageSender.constructor | core/sender.py:18-36 | no bots, an empty queue, no sends this hour and the hour started now |
| Sender.MessageSender.AddBot | core/sender.py:112-140 | a bot whose `get_me` answers is appended as active with no errors; otherwise nothing changes |
| Sender.MessageSender.SendMessage | core/sender.py:142-153 | a text job is appended to the queue, nothing else changes |
| Sender.MessageSender.SendMediaGroup | core/sender.py:155-166 | a media-group job is appended to the queue, nothing else changes |
| Sender.MessageSender.GetCurrentBot | core/sender.py:306-323 | none iff no bot is active; otherwise the active bot at the index modulo the number of active bots |
| Sender.MessageSender.RotateBot | core/sender.py:325-328 | with bots the index advances by one modulo their number; nothing else changes |
| Sender.MessageSender.HandleSendError | core/sender.py:330-348 | a known bot takes one error step, its stored count is the new count; an unknown token changes nothing |
| Sender.MessageSender.ProcessSendMessage | core/sender.py:187-220 | at the hourly limit the job is dropped, nothing changes and the wait is a minute; otherwise the wait is the interval wait; without an active bot nothing changes; the current bot sends: a success counts, records the time and rotates, a failure takes one error step that is also written to the bot's stored count; the hourly count never passes the limit |
| Sender.MessageSender.SendProcessorStep | core/sender.py:168-185 | an empty queue changes nothing; otherwise the first job is taken off for good, and the outcome and the new counters, bots and statuses are those `ProcessSendMessage` gives; the count stays within the limit |
| Sender.MessageSender.HourlyReset | core/sender.py:350-367 | once an hour has passed the count is zeroed and the hour restarts now; otherwise nothing changes |
| Sender.MessageSender.GetSendStatistics | core/sender.py:369-402 | the bot totals, the active bots, the hourly count and limit and the queue length |
| Listener.MediaTag | core/listener.py:243-247 | a photo adds `photo_<id>`, a document `doc_<id>`, any other or no media nothing |
| Listener.SinglePreImage | core/listener.py:232-253 | the fingerprinted text is the message text, the media tag, then `_chat_from` |
| Listener.ChatsDistinguished | core/listener.py:250 | the same content posted in two different chats gives two different fingerprinted texts |
| Listener.GroupPreImage | core/listener.py:260-286 | the album text is the parts of the sorted messages, then `_group_`, the grouped id and the chat of the first sorted message |
| Listener.InsertById | core/listener.py:206 | inserting adds exactly that entry |
| Listener.InsertSorted | core/listener.py:206 | inserting into an id-sorted list keeps it sorted |
| Listener.SortById | core/listener.py:206 | the sort result is ordered by message id and a permutation of its input |
| Listener.DistinctPermutation | core/listener.py:206 | a permutation of entries with distinct ids has distinct ids |
| Listener.SortedUnique | core/listener.py:206 | two id-sorted permutations of entries with distinct ids are equal |
| Listener.ArrivalOrderIrrelevant | core/listener.py:260-286 | the album fingerprint does not depend on the order the messages arrived in |
| Listener.SortedLastIsMax | core/listener.py:214-215 | the last sorted message carries the largest id, the one written as `last_message_id` |
| Listener.ActiveSources | core/listener.py:72-85 | the source channels of the active groups, and only those |
| Listener.RegisterStep | core/listener.py:328-334 | registering one more channel adds one listener call exactly when it was not yet listened to |
| Listener.MessageListener.constructor | core/listener.py:19-37 | nothing is listened to, no listener was added, no album is buffered |
| Listener.MessageListener.AddChannelToListen | core/listener.py:328-337 | the channel is listened to afterwards, and a listener is added only when it was not before |
| Listener.MessageListener.RemoveChannelFromListen | core/listener.py:339-347 | the channel is no longer listened to; the listener added for it stays |
| Listener.MessageListener.SetupListeners | core/listener.py:69-90 | every source channel of an active group is listened to afterwards, and each new channel got exactly one listener call |
| Listener.MessageListener.ListenToSources | core/listener.py:81-85 | the channels of one group are added to the listened set, and each channel not listened to before gets exactly one listener call |
| Listener.MessageListener.HandleSingleMessage | core/listener.py:141-159 | a duplicate fingerprint is skipped with no change; otherwise `last_message_id` is set and the message goes on with its fingerprint |
| Listener.MessageListener.HandleMediaGroup | core/listener.py:161-188 | the message is appended to its album's buffer and the album's timer is replaced by a new one no earlier timer shares |
| Listener.MessageListener.ProcessMessage | core/listener.py:124-139 | a message with a set, non-zero `grouped_id` joins the back of its album's buffer under a fresh timer without touching the database; any other is handled at once without touching the buffers: dropped iff its fingerprint is recorded, otherwise forwarded with the channel's `last_message_id` updated |
| Listener.MessageListener.FlushMediaGroup | core/listener.py:190-230 | only the album's current timer acts; it empties the buffer and the timer; when it acts on a non-empty album, that album is sorted, fingerprinted, skipped iff recorded, otherwise forwarded under its first arrival's group with the largest id recorded |
| Listener.MessageListener.ForwardBatch | core/listener.py:199-220 | one buffered album is flushed as `Flushed` states |
| GroupProcessor.FindGroup | core/group_processor.py:162-168 | a group is found exactly when the cache holds an entry with that id, and the entry found carries that id |
| GroupProcessor.Put | core/group_processor.py:60 | after storing, the id finds the stored group, every other id finds what it found before, and the cache grows only for a new id |
| GroupProcessor.LoadedLookup | core/group_processor.py:49-70 | after a reload an id finds the last loaded row with that id, or the old cached entry when no row has it (the cache never evicts) |
| GroupProcessor.InScheduleTime | core/group_processor.py:144-160 | a start or end that does not parse leaves the gate open; otherwise the result is the schedule window test on the current time |
| GroupProcessor.ShortHourNeverCloses | core/group_processor.py:144-160 | a start written `9:00` does not parse, so the group is always in its schedule |
| GroupProcessor.Gate | core/group_processor.py:121-142 | a message passes only for a cached group with status `active`, and then exactly when the schedule is unset or the time is inside it |
| GroupProcessor.ItemText | core/group_processor.py:209 | an item's text, else its caption; nothing exactly when the text is empty and the message has no caption to read |
| GroupProcessor.FilteredItems | core/group_processor.py:197-220 | nothing exactly when some item's text cannot be read; otherwise one item per album message |
| GroupProcessor.FilteredItemsAt | core/group_processor.py:205-218 | in a readable album, item i carries message i and the filtered form of its text or caption |
| GroupProcessor.WithFooter | core/group_processor.py:222-227 | only the first item changes: the footer is appended after a blank line, or replaces an empty text; no footer changes nothing |
| GroupProcessor.FooterLast | core/group_processor.py:222-227 | the first item's text ends with the footer |
| GroupProcessor.RecordOf | core/group_processor.py:252-266 | a history row is written exactly when the delivery succeeded (and, for an album, returned an id), with the group, source id, target, hash and day |
| GroupProcessor.Records | core/group_processor.py:235-273 | at most one row per target, each carrying the hash and group |
| GroupProcessor.TallyCounts | core/group_processor.py:242-270 | the day's statistics row grows by one message per target, one success per delivery and one error per failure; other rows are unchanged |
| GroupProcessor.DeliveryRecordsHash | core/group_processor.py:252-257 | once one target got the message, its hash is recorded and a repeat is a duplicate |
| GroupProcessor.SumsSplit | core/group_processor.py:520-549 | channel and active-group counts add up over a split cache |
| GroupProcessor.UpdatedFilters | core/group_processor.py:387-425 | a toggle type sets its flag, `custom` with rules replaces the custom rules, any other request changes nothing |
| GroupProcessor.ToggleIsLocal | core/group_processor.py:398-410 | toggling a filter sets it to the requested value and leaves every other setting alone |
| GroupProcessor.GroupProcessor.constructor | core/group_processor.py:16-29 | empty cache, no refresh time, not running |
| GroupProcessor.GroupProcessor.LoadGroups | core/group_processor.py:49-70 | the cache becomes the reload of the rows read, stamped with the current time |
| GroupProcessor.GroupProcessor.Start | core/group_processor.py:31-39 | the groups are loaded and the processor runs |
| GroupProcessor.GroupProcessor.Stop | core/group_processor.py:41-47 | the cache is cleared and the processor stops |
| GroupProcessor.GroupProcessor.GetGroupData | core/group_processor.py:162-168 | a cache older than five minutes is reloaded first; the result is the cached entry for the id |
| GroupProcessor.GroupProcessor.FilterMessage | core/group_processor.py:170-195 | nothing is sent when filtering empties the text; otherwise the filtered text plus the footer after a blank line |
| GroupProcessor.GroupProcessor.FilterMediaGroup | core/group_processor.py:197-233 | an empty album, or one with an item whose caption read raises, yields nothing; otherwise every message filtered with the footer on the first item |
| GroupProcessor.GroupProcessor.FilterItem | core/group_processor.py:206-218 | nothing exactly when the text is empty and the caption read raises; otherwise the item holds the message and the filtered form of its text or caption |
| GroupProcessor.GroupProcessor.RecordDeliveries | core/group_processor.py:235-327 | the history gains the rows of the successful deliveries and the day's statistics are tallied, nothing else in the database changes |
| GroupProcessor.GroupProcessor.RecordOne | core/group_processor.py:304-324 | one target's row (if delivered) and one count in the day's statistics |
| GroupProcessor.GroupProcessor.ProcessMessage | core/group_processor.py:72-94 | skipped exactly when the gate is shut; filtered out exactly when the gate is open and the filtered text is empty; when sent, every target of the group was tried, each delivery has its ledger row and each target counts once in the day's statistics; otherwise the ledger and the statistics are untouched; the source and target tables, the id counters and `is_running` never change, and the group cache is reloaded exactly when its TTL has passed |
| GroupProcessor.GroupProcessor.ProcessMediaGroup | core/group_processor.py:96-119 | skipped exactly when the gate is shut, filtered out exactly when the gate is open and the album is empty or has an item whose caption read raises; when sent, the deliveries are recorded under the first message's id and each target counts once in the day's statistics; otherwise the ledger and the statistics are untouched; the source and target tables, the id counters and `is_running` never change, and the group cache is reloaded exactly when its TTL has passed |
| GroupProcessor.GroupProcessor.SetGroupFilter | core/group_processor.py:387-425 | an unknown group fails; otherwise the group's filters become the update and every other group is left as it was |
| GroupProcessor.GroupProcessor.GetStatistics | core/group_processor.py:520-549 | totals are the cache size; the active count is the number of cached groups whose status is active, and the inactive count the rest; the channel totals are sums over the groups |
| Scheduler.JobIdsDistinct | core/scheduler.py:120-132 | `group_<id>_start` and `group_<id>_end` determine the group, and a start id is never an end id |
| Scheduler.JobIdsDistinctAll | core/scheduler.py:120-132 | no other group shares a group's job ids |
| Scheduler.SplitTime | core/scheduler.py:116-117 | a time is split only when it has exactly two colon-separated fields |
| Scheduler.PlanOf | core/scheduler.py:112-157 | no job when a bound does not split or the start hour or minute is out of range; both jobs only with both bounds split into valid hours and minutes |
| Scheduler.StoreStartConsistent | core/scheduler.py:120-130 | storing a group's start job keeps every scheduled group's two jobs in place |
| Scheduler.StoreBothConsistent | core/scheduler.py:120-149 | storing both jobs and recording the group keeps every scheduled group's two jobs in place |
| Scheduler.DropConsistent | core/scheduler.py:374-387 | removing a group's jobs and its record keeps the others' jobs in place |
| Scheduler.WindowStatus | core/scheduler.py:159-179 | a status is written only when both bounds parse as times, and it is `active` or `scheduled` |
| Scheduler.StatusAgreesWithGate | core/scheduler.py:166-172 | the status written is `active` exactly when the message gate lets messages through at that time |
| Scheduler.SecondsFormNotScheduled | core/scheduler.py:332-343 | `09:00:00` passes the time-format check but gets no cron jobs |
| Scheduler.WithStatus | core/scheduler.py:199-215 | only the group's status changes; a missing row changes nothing |
| Scheduler.WithSchedule | core/scheduler.py:346 | only the group's schedule changes; a missing row changes nothing |
| Scheduler.NameLeTotal | core/scheduler.py:323 | file names compare either way round |
| Scheduler.NameLeTransitive | core/scheduler.py:323 | the file-name order is transitive |
| Scheduler.InsertName | core/scheduler.py:323 | inserting adds exactly that name |
| Scheduler.InsertNameSorted | core/scheduler.py:323 | inserting into a sorted listing keeps it sorted |
| Scheduler.SortNames | core/scheduler.py:323 | the sorted listing is ordered and a permutation of the directory listing |
| Scheduler.Retention | core/scheduler.py:323-327 | seven backups (or all, when fewer) are kept, and kept plus deleted is the whole listing |
| Scheduler.RetentionKeepsLatest | core/scheduler.py:323-327 | every deleted backup sorts before every kept one |
| Scheduler.RetentionIdempotent | core/scheduler.py:323-327 | a second cleanup deletes nothing |
| Scheduler.TaskScheduler.constructor | core/scheduler.py:16-27 | no jobs, no scheduled group, no status, not running |
| Scheduler.TaskScheduler.UpdateGroupStatus | core/scheduler.py:199-215 | the row and the in-memory status of the group take the new status, nothing else changes |
| Scheduler.TaskScheduler.ActivateGroup | core/scheduler.py:181-188 | the group's status becomes `active` |
| Scheduler.TaskScheduler.DeactivateGroup | core/scheduler.py:190-197 | the group's status becomes `scheduled` |
| Scheduler.TaskScheduler.CheckCurrentScheduleStatus | core/scheduler.py:159-179 | bounds that do not parse change nothing; otherwise the window status is written |
| Scheduler.TaskScheduler.AddGroupScheduleJobs | core/scheduler.py:112-157 | the state after is `Planned` for the plan of the two bounds, and every scheduled group keeps its two jobs |
| Scheduler.TaskScheduler.StoreJobs | core/scheduler.py:119-151 | the jobs of the plan are stored, as `Planned` states |
| Scheduler.PlannedEntries | core/scheduler.py:112-157 | adding a schedule records the group exactly when both jobs were made, keeps an earlier record otherwise, and touches no other group or any schedule in the table |
| Scheduler.TaskScheduler.RemoveGroupScheduleJobs | core/scheduler.py:371-392 | a scheduled group loses its two jobs, its record and its status; any other group id changes nothing |
| Scheduler.TaskScheduler.AddGroupSchedule | core/scheduler.py:332-355 | success exactly when both bounds parse as times; a refusal changes nothing; success is `Planned` for the plan of the two bounds followed by storing the bounds in the row, and without both jobs no group is recorded; `is_running` is kept |
| Scheduler.TaskScheduler.RemoveGroupSchedule | core/scheduler.py:357-369 | a scheduled group loses its two jobs, its record and its status, an unscheduled one keeps them all; the row's schedule is cleared and `is_running` is kept |
| Scheduler.TaskScheduler.SyncGroup | core/scheduler.py:258-276 | one row of the sync: a scheduled row without a record is `Planned`, a recorded row without a schedule loses its jobs, record and status, any other row changes nothing; `Synced` holds for it and nothing outside the group changes |
| Scheduler.TaskScheduler.ConfigSync | core/scheduler.py:251-280 | every row read is `Synced`; groups not read keep their records, rows and statuses, every job not belonging to a group read is kept, no schedule in the table changes and `is_running` is kept |
| Scheduler.SyncAgain | core/scheduler.py:258-276 | syncing one more group keeps the earlier groups synced |
| Scheduler.TaskScheduler.Stop | core/scheduler.py:45-57 | not running, no scheduled group and no status afterwards |

Where the code and its documentation disagree, the model follows the code. It models these behaviours as written:

- The sender never resets a bot's `error_count` after a success. A `forbidden` result is counted like any other error, not suspended at once. A job that meets the hourly limit is dropped, not requeued.
- `last_message_id` is written before the message is delivered, and it is written without any monotonicity check.
- `content_hash` is not unique in `message_history`, so the same hash can be recorded again.
- The `set_schedule` command accepts `9:00`, but `time.fromisoformat` refuses it. The gate of such a group therefore stays open all day (`GroupProcessor.ShortHourNeverCloses`).
- `add_group_schedule` reports success for `09:00:00` while `_add_group_schedule` adds no job (`Scheduler.SecondsFormNotScheduled`). An end time the cron trigger refuses leaves a start job behind with no record of it.
- The configuration sync does not pick up changed times for a group that already has jobs.
- The group cache never evicts a group that vanished from the table.
- `verify_login_code` rejects a code verified by user id 0, because 0 is falsy.
- `assign_api_to_account` raises `current_accounts` even for a phone without an account row. `start_login` does exactly that, so the counter leaks.
- `_handle_client_error` writes `error` to the database while the in-memory status becomes `suspended`.
- ProcessSendMessage and SendProcessorStep keep the hourly count within the limit only for one processor running each step atomically. `start` launches two `_send_processor` tasks, and each checks the limit before awaiting the interval sleep and the send, and only then counts. At one below the limit both can pass the check, so the source can send one message over the limit.
- An album item with empty text falls back to `message.caption`. Whether a message has that attribute is a field of the modelled message (`caption`), because the message class is library code. When the read raises, `_filter_media_group` returns `None` and the whole album is skipped (`GroupProcessor.GroupProcessor.FilterMediaGroup`).
- The admin list is `os.getenv('ADMIN_USERS')`, read again at every call, so it is a parameter of `VerifyFromBot` and `GetUserByCode`. A code verified by an admin can give a non-admin session if the list changed in between.

## Left out

- Network, SQL and asyncio plumbing is not modelled. Telegram clients, cursors and commits, tasks, queues, locks and `sleep` are absent. Each operation runs atomically. The one sleep the model keeps is `ProcessSendMessage`'s `wait`, in seconds: a minute at the hourly cap, otherwise the send interval wait; the `RetryAfter` sleep is folded into the send result.
- Regular expressions are uninterpreted predicates and string functions given as parameters. These cover links, mentions, contact patterns, emoji, special characters and user `regex` rules.
- MD5 is an uninterpreted function; only the pre-image strings are modelled.
- Floating point is not modelled. Percentages are exact reals with no `round(..., 2)`, and the jitter interval is a parameter.
- Python's `str.isdigit`, `lower`, `upper` and `strip` are modelled for ASCII and the usual white-space characters only.
- `time.fromisoformat` follows Python 3.10 and earlier, without time-zone suffixes. Python 3.11 and later also accept `T09:00`, the basic `0900` form and `,` before the fraction; the model refuses these.
- APScheduler internals are not modelled. That covers its system jobs (`_add_system_jobs`, `_cleanup_daily_task`, `_hourly_check_task`), `_load_group_schedules`, `start`, `get_schedule_status`, `get_job_statistics` and `reload_config`. Cron jobs are entries in a map.
- File operations are not modelled: the backup copy, log and session file deletion, and YAML and `.env` reading and writing. Backup retention is modelled on the directory listing.
- `cleanup_old_data` is modelled on whole day numbers, not on SQLite date arithmetic.
- `GROUP_CONCAT` in `get_api_pool_status` is modelled as a list in account order; SQLite leaves that order unspecified.
- `remove_account`, `_load_accounts`, `_create_client`, `_check_account_health`, `_rotation_loop` and `start`/`stop` of the account manager are left out. They are client creation, file deletion and loops around the modelled steps.
- AccountManager.WithLiveStatus: the merged entry carries no `last_active` key. The table's `last_active` column and the live status's `last_active` are wall-clock stamps, and the model keeps no clock in an account row.
- `sync_history` and `get_listening_status` of the listener are left out, as is the fallback hash taken when building a fingerprint raises. They are history fetching, a report and exception paths.
- `create_group`, `add_source_channel`, `add_target_channel`, `set_group_schedule`, `get_group_list`, `get_group_info` and `reload_config` of the group processor are left out. They are thin database wrappers and reports, and the database side is modelled in `Database`.
- GroupProcessor.GroupProcessor.SetGroupFilter: does not model the JSON write of the filters or the cache reload that follows it. The cache update it models is what the next message sees.
- GroupProcessor.GroupProcessor.RecordDeliveries: does not model the album caption, which is computed but never used, or the simulated send result. Deliveries are a parameter.
- `Database` has no `updated_at` and `created_at` columns, and SQL NULL strings are the empty string.
- `hash_password`, `verify_password`, `generate_random_key` and Fernet itself are not modelled; the cipher is a parameter.
- The bot handlers' reply texts are not modelled, and neither are `show_config`, `backup_config` and `reset_config`.
- `setup_logging` and `ColoredFormatter` are not modelled.
- The sender's `_load_bots`, its flood-wait `sleep` and the Telegram send are not modelled; the send result is a parameter.
- The Flask web routes, the browser UI, the monitor handlers, the config watcher and `core/manager.py` wiring are not part of this model.
