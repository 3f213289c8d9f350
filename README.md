# Discord Lobbies SDK glue, modelled in Dafny

This project models the sequential logic that the Discord_Lobbies_SDK repository wraps around
the closed Discord Social SDK:

- the stdio command subprocess `rust-native/src/main.rs` (`handle_command`, the polling loops,
  `init_discord_sdk` with its stored-token format and ready wait, the `MESSAGE_EVENTS` drain,
  `cleanup`);
- its smaller variant `rust-native/src/main_improved.rs`;
- the two C++ clients behind the Node addon, `native/src/discord_client.cc` and
  `native/src/discord_client_new.cc`, with their shared `IsValidUint64` validator;
- the message queue `native/src/message_handler.cc`;
- the SDK search of the build script `rust-native/build.rs`;
- the safe Rust wrapper and its C exports in `rust-native/src/lib.rs`.

Every call into the SDK is an oracle. What it returns, and when its callback fires, is a
parameter of the model (`Replies`, `Callback<T>`, a return code). Wall-clock time is a tick
counter in milliseconds. A callback fires at some tick or never (`Polling.Callback`). A polling
loop pumps, reads its flag and sleeps, and it is written once, as `Polling.PumpUntilDone`
(main.rs, where callbacks run only in the loop's pump) and `Polling.WaitForFlag`
(main_improved.rs, where a background thread runs them and the flag is read once more after
the loop).

Each stateful component has two layers. Pure specification functions give every operation's
reply, next state and SDK calls, and lemmas over them state what the source promises. These
are `BridgeSpec.Dispatch`, `ImprovedBridge.Dispatch`, `CppClient.InitializeOp`,
`SdkLocator.LibPath`, `RustWrapper.ChannelsResult`, and so on. Classes then hold the globals as
fields (`BridgeSession.Session`, `ImprovedBridge.Process`, `CppClient.DiscordClient`,
`MessageHandler.Queue`, `RustWrapper.DiscordClientWrapper`). Their methods keep the source's
loops and in-place updates, and each is proved to produce exactly what the specification
function says, with a ghost trace of the SDK calls it made.

Files, one module each: `wrappers.dfy`, `decimal.dfy` (Rust's integer parsing and printing),
`json.dfy`, `text_order.dfy`, `polling.dfy`, `bridge_types.dfy`, `bridge_args.dfy`,
`bridge_ready.dfy`, `bridge_spec.dfy`, `bridge_props.dfy`, `bridge_session.dfy` (main.rs),
`improved_bridge.dfy` (main_improved.rs), `uint64_text.dfy`, `native_types.dfy`,
`cpp_client.dfy`, `cpp_client_new.dfy`, `message_handler.dfy`, `sdk_locator.dfy` (build.rs),
`rust_wrapper.dfy` (lib.rs).

## Model

| member | source | states |
|---|---|---|
| Polling.PumpUntilDone | rust-native/src/main.rs:513-531 | the pump/check/sleep loop ends with its flag set iff the callback fires at a pump tick before the deadline; it reports the tick it stopped at |
| Polling.WaitForFlag | rust-native/src/main_improved.rs:227-239 | the flag-only wait plus the read after it returns true iff the callback has fired by the last read, the first multiple of the interval not before the deadline |
| Polling.MultipleInWindow | rust-native/src/main.rs:515-528 | the only pump tick in [t, t + interval) is the rounded-up tick of t |
| Polling.PumpTickBounds | rust-native/src/main.rs:515-528 | a callback at tick t is seen at the first pump at or after t, less than one interval later |
| Polling.TimeoutWithinOneInterval | rust-native/src/main.rs:515-528 | the loop gives up at the deadline and less than one interval after it |
| Polling.LateCallbackIgnored | rust-native/src/main.rs:515-531 | a callback that fires at or after the deadline is never seen |
| Polling.EarlyCallbackSeen | rust-native/src/main.rs:515-531 | a callback that has already fired is seen at the first check |
| Decimal.DigitChar | rust-native/src/main.rs:780-790 | a printed digit is a digit character of that value |
| Decimal.DigitsValuePrefix | rust-native/src/main.rs:548-553 | a digit appended at the end multiplies the value so far by ten and adds the digit |
| Decimal.NatToStringDigits | rust-native/src/main.rs:487-490 | `to_string` of a number is a non-empty digit string whose value is that number |
| Decimal.ParseU64OfNatToString | rust-native/src/main.rs:548-553 | round trip: `n.to_string().parse::<u64>()` is `n` |
| Decimal.ParseI32OfIntToString | rust-native/src/main.rs:2128-2132 | round trip for `c_int`, negative values included |
| Decimal.IntToStringHasNoColon | rust-native/src/main.rs:2126-2133 | a printed integer has no ':', so it cannot end the type field early |
| Decimal.ParseU64Accepts | rust-native/src/main.rs:548-553 | Rust's u64 parser accepts only digits, with at most one leading '+' |
| Json.U64TextOfDecimal | rust-native/src/main.rs:548-553 | an argument string holding the decimal text of n reads as n |
| TextOrder.LexLessIrreflexive | rust-native/build.rs:86 | no key sorts before itself |
| TextOrder.LexLessTotal | rust-native/build.rs:86 | any two different keys are ordered one way, never both |
| TextOrder.LexLessTransitive | rust-native/build.rs:86 | string order is transitive |
| BridgeTypes.MapJson | rust-native/src/main.rs:485-492 | a callback's collected list has one entry per record |
| BridgeTypes.MapJsonAt | rust-native/src/main.rs:485-492 | entry k of the collected list is record k converted, in span order |
| BridgeTypes.FriendsLength | rust-native/src/main.rs:805-835 | relationships without a user are dropped; none is dropped when all have one, all are when none has |
| BridgeTypes.MetadataKeys | rust-native/src/main.rs:958-975 | the metadata object's keys are exactly the keys of the pairs both of whose strings were read |
| BridgeTypes.MetadataLastWins | rust-native/src/main.rs:958-975 | a key written twice keeps the value of the last pair |
| BridgeArgs.LobbyIdArg | rust-native/src/main.rs:909-919 | a non-zero lobby id came from a u64 number or from a string that parses as that u64 |
| BridgeArgs.LobbyIdAcceptsBothForms | rust-native/src/main.rs:1557-1574 | an id sent as a number or as its decimal text reads as that id |
| BridgeArgs.LobbyIdOtherwiseZero | rust-native/src/main.rs:1668-1686 | a missing id, any other JSON value, an out-of-range number or an unparsable string reads as 0 |
| BridgeArgs.WrapI32 | rust-native/src/main.rs:1099-1101 | `as i32` keeps the value when it fits and is congruent to it modulo 2^32 otherwise |
| BridgeArgs.LimitArg | rust-native/src/main.rs:1099-1101 | a missing or non-integer `limit` is 50 |
| BridgeArgs.FindColon | rust-native/src/main.rs:2126-2127 | `find(':')` gives the first colon's index, or none when there is no colon |
| BridgeArgs.FindColonAt | rust-native/src/main.rs:2126-2127 | the first colon is found wherever it is |
| BridgeArgs.ParseStoredToken | rust-native/src/main.rs:2122-2139 | the token handed to the SDK is always a suffix of the stored token |
| BridgeArgs.StoredTokenRoundTrip | rust-native/src/main.rs:2122-2139 | `type=N:rest` reads back as (N, rest), whatever rest holds |
| BridgeArgs.StoredTokenBadTypeIsBearer | rust-native/src/main.rs:2128-2132 | a type field that is not a `c_int` falls back to 1 (Bearer) |
| BridgeArgs.StoredTokenLegacy | rust-native/src/main.rs:2134-2139 | a token without the `type=` prefix or without a colon is used whole as a Bearer token |
| BridgeReady.FirstReady | rust-native/src/main.rs:2236-2250 | the first status read before the deadline that shows Ready (>= 3), and none is missed before it |
| BridgeReady.WaitForReady | rust-native/src/main.rs:2232-2270 | the wait succeeds iff some read within 30 s shows status >= 3; as written it never reports error 4004, because `last_status` is overwritten before the 2→0 test |
| BridgeReady.ExpectedOutcomeOk | rust-native/src/main.rs:2236-2250 | the intended outcome is a success iff some read before the deadline shows Ready |
| BridgeReady.FirstReadyIs | rust-native/src/main.rs:2236-2250 | the first Ready read is the one the loop stops at |
| BridgeReady.IntToStringNot4004 | rust-native/src/main.rs:2262-2268 | the "stuck at status=" report never equals the 4004 message |
| BridgeReady.RegressionReportedAsStuck | rust-native/src/main.rs:2244-2268 | a status that regresses from 2 to 0 is reported as stuck at 0, not as error 4004 |
| BridgeReady.LateReadyMissed | rust-native/src/main.rs:2236 | a Ready status arriving after the 150th read is not seen |
| BridgeProperties.PingInAnyState | rust-native/src/main.rs:2061 | `ping` succeeds with `{pong:true}` in any state, echoes the id and changes nothing |
| BridgeProperties.UnknownCommand | rust-native/src/main.rs:2062 | an unknown name fails with `Unknown: <name>`, no result and no effect |
| BridgeProperties.GuardBlocksWithoutSdkCall | rust-native/src/main.rs:426-428 | without INITIALIZED every session command fails with no SDK call and no change; its error is "SDK not initialized" unless an argument check placed before the guard failed first |
| BridgeProperties.ChannelsValidateBeforeGuard | rust-native/src/main.rs:548-553 | `get_guild_channels` reports missing or invalid arguments before the guard |
| BridgeProperties.GetLobbyRejectsZeroFirst | rust-native/src/main.rs:918-923 | `get_lobby` rejects lobby 0 before the guard, in every state |
| BridgeProperties.SendLobbyGuardBeforeLobbyCheck | rust-native/src/main.rs:1570-1574 | `send_lobby_message` applies the guard before the lobby check, and with a session refuses lobby 0 without an SDK call |
| BridgeProperties.ChannelsTimeoutIffNotDone | rust-native/src/main.rs:644-648 | `get_guild_channels` fails with "Timeout for guild {id}" exactly when its done flag is unset at the deadline |
| BridgeProperties.GuildsFailOnlyOnNullSpan | rust-native/src/main.rs:532-536 | `get_guilds` fails only when the callback ran with a null span; a timeout succeeds with an empty list |
| BridgeProperties.CreateOrJoinOutcomes | rust-native/src/main.rs:2044-2058 | `create_or_join_lobby` succeeds iff it completed with an id > 0; completion with 0 and a timeout are distinct failures |
| BridgeProperties.SendLobbyThreeOutcomes | rust-native/src/main.rs:1646-1664 | `send_lobby_message` tells a timeout, an SDK error and a success apart |
| BridgeProperties.DisconnectIdempotent | rust-native/src/main.rs:421-424 | after `disconnect` the session is torn down, and a second one changes nothing and calls nothing |
| BridgeProperties.MessageEventsDrainAll | rust-native/src/main.rs:1959-1975 | `get_message_events` returns every queued event in arrival order and leaves the queue empty |
| BridgeProperties.InitializedOnlyWhenReady | rust-native/src/main.rs:2236-2250 | INITIALIZED becomes true only after a Ready status is read before the deadline |
| BridgeProperties.InitNever4004 | rust-native/src/main.rs:2252-2268 | no `initialize` reply is the 4004 error |
| BridgeProperties.InitRequiresAppId | rust-native/src/main.rs:400-420 | without an app id, `initialize` fails after creating the client and leaves the globals alone |
| BridgeProperties.StoredTokenReachesSdk | rust-native/src/main.rs:2122-2150 | a stored `type=N:rest` token makes `UpdateToken(N, rest)` the fifth SDK call and keeps rest in TOKEN |
| BridgeSession.CollectEach | rust-native/src/main.rs:485-492 | a callback's push loop collects exactly the converted records, in order |
| BridgeSession.CollectFriends | rust-native/src/main.rs:805-835 | the relationship loop collects exactly `Friends` |
| BridgeSession.CollectMetadata | rust-native/src/main.rs:958-975 | the metadata loop builds exactly `Metadata` |
| BridgeSession.Session.constructor | rust-native/src/main.rs:325-332 | the globals start uninitialised, with no client, no token and no events |
| BridgeSession.Session.Cleanup | rust-native/src/main.rs:2674-2690 | drops a live client, then resets CLIENT_PTR, TOKEN and INITIALIZED |
| BridgeSession.Session.OnMessageCreated | rust-native/src/main.rs:2206-2211 | the message callback appends one event at the back |
| BridgeSession.Session.OnStatusChanged | rust-native/src/main.rs:2099-2116 | the status callback records the new status and nothing else |
| BridgeSession.Session.AwaitReady | rust-native/src/main.rs:2232-2270 | the ready wait gives `ReadyFinish` of the observed statuses |
| BridgeSession.Session.InitDiscordSdk | rust-native/src/main.rs:2072-2270 | `init_discord_sdk` has the result, globals and calls that `InitSpec` gives |
| BridgeSession.Session.InitWithStoredToken | rust-native/src/main.rs:2122-2270 | the stored-token path follows `StoredTokenInit` |
| BridgeSession.Session.InitWithOAuth | rust-native/src/main.rs:2273-2670 | the OAuth path follows `OAuthInit` |
| BridgeSession.Session.Initialize | rust-native/src/main.rs:400-420 | the `initialize` arm does what `InitializeStep` says |
| BridgeSession.Session.GetGuilds | rust-native/src/main.rs:425-546 | the `get_guilds` arm, poll included, does what `GuildsStep` says |
| BridgeSession.Session.GetGuildChannels | rust-native/src/main.rs:547-659 | the `get_guild_channels` arm does what `ChannelsStep` says |
| BridgeSession.Session.SendMessage | rust-native/src/main.rs:660-734 | the `send_message` arm does what `SendMessageStep` says |
| BridgeSession.Session.SetActivity | rust-native/src/main.rs:735-784 | the `set_activity` arm does what `SetActivityStep` says |
| BridgeSession.Session.GetRelationships | rust-native/src/main.rs:785-846 | the `get_relationships` arm does what `RelationshipsStep` says |
| BridgeSession.Session.GetLobbyIds | rust-native/src/main.rs:847-907 | the `get_lobby_ids` arm does what `LobbyIdsStep` says |
| BridgeSession.Session.GetLobby | rust-native/src/main.rs:908-996 | the `get_lobby` arm does what `GetLobbyStep` says |
| BridgeSession.Session.SendDm | rust-native/src/main.rs:997-1088 | the `send_dm` arm does what `SendDmStep` says |
| BridgeSession.Session.GetMessages | rust-native/src/main.rs:1089-1226 | `get_lobby_messages`, and `get_user_messages` (1304-1437), do what `MessagesStep` says |
| BridgeSession.Session.GetMessage | rust-native/src/main.rs:1227-1303 | the `get_message` arm does what `GetMessageStep` says |
| BridgeSession.Session.CreateLobby | rust-native/src/main.rs:1438-1554 | the `create_lobby` arm does what `CreateLobbyStep` says |
| BridgeSession.Session.SendLobbyMessageCmd | rust-native/src/main.rs:1555-1666 | the `send_lobby_message` arm does what `SendLobbyStep` says |
| BridgeSession.Session.LeaveLobbyCmd | rust-native/src/main.rs:1667-1733 | the `leave_lobby` arm does what `LeaveLobbyStep` says |
| BridgeSession.Session.SetSelf | rust-native/src/main.rs:1734-1781 | `set_mute` and `set_deaf` do what `SetSelfStep` says |
| BridgeSession.Session.GetSelf | rust-native/src/main.rs:1782-1815 | `get_mute_status` and `get_deaf_status` do what `GetSelfStep` says |
| BridgeSession.Session.ConnectLobbyVoice | rust-native/src/main.rs:1816-1890 | the `connect_lobby_voice` arm does what `ConnectVoiceStep` says |
| BridgeSession.Session.DisconnectLobbyVoice | rust-native/src/main.rs:1891-1956 | the `disconnect_lobby_voice` arm does what `DisconnectVoiceStep` says |
| BridgeSession.Session.GetMessageEvents | rust-native/src/main.rs:1957-1977 | `get_message_events` drains the queue as `MessageEventsStep` says |
| BridgeSession.Session.CreateOrJoinLobby | rust-native/src/main.rs:1978-2060 | the `create_or_join_lobby` arm does what `CreateOrJoinStep` says |
| BridgeSession.Session.HandleCommand | rust-native/src/main.rs:398-2070 | `handle_command` answers `Respond(req, Dispatch(...))` and leaves the globals and calls as `Dispatch` says |
| BridgeSession.ServeAnswersEach | rust-native/src/main.rs:334-396 | the threaded answers are one response per request, in order, each with that request's id |
| BridgeSession.Session.ServeLines | rust-native/src/main.rs:334-396 | the read loop gives `Serve`: each parsed line is answered by `Dispatch` on the globals the previous lines left, blank and unparsable lines are skipped, and the SDK calls are those of the handled commands; then `cleanup` resets CLIENT_PTR, TOKEN and INITIALIZED |
| ImprovedBridge.FirstNul | rust-native/src/main_improved.rs:281-284 | the index of the first NUL, and none exactly when there is no NUL |
| ImprovedBridge.ChannelNameOfTerminated | rust-native/src/main_improved.rs:278-290 | a non-empty NUL-terminated name is read back as written |
| ImprovedBridge.NameLength | rust-native/src/main_improved.rs:281-284 | the scan loop finds the first NUL's index, or leaves 0 when there is none |
| ImprovedBridge.Collected | rust-native/src/main_improved.rs:273-276 | a null or empty span collects nothing; otherwise one entry per record |
| ImprovedBridge.OnlyFiveCommands | rust-native/src/main_improved.rs:126-136 | only five names are dispatched; any other fails with `Unknown: <name>`, with the id and no effect |
| ImprovedBridge.InitCmdOrder | rust-native/src/main_improved.rs:140-154 | `init_cmd` checks for args, then for a string token; a missing or unparsable app_id is 0, so `SetApplicationId` is skipped |
| ImprovedBridge.GuardWithoutState | rust-native/src/main_improved.rs:163-167 | without an initialised STATE, `get_guilds` and `get_guild_channels` give "Not initialized" and call nothing |
| ImprovedBridge.ChannelsValidateFirst | rust-native/src/main_improved.rs:242-251 | a bad or missing guild_id is rejected before the session is checked |
| ImprovedBridge.InitReplacesState | rust-native/src/main_improved.rs:372-379 | a successful `initialize` sets STATE to {client ≠ 0, token, status 0, initialized}, whatever was there, after `UpdateToken(1, token)` and `Connect` |
| ImprovedBridge.DisconnectIdempotent | rust-native/src/main_improved.rs:329-341 | `disconnect` always succeeds, leaves STATE None, and a second one drops nothing |
| ImprovedBridge.StatusChangedOnlyWithState | rust-native/src/main_improved.rs:354-358 | `status_cb` changes only the status, and only of an existing STATE |
| ImprovedBridge.TimeoutIffFlagDown | rust-native/src/main_improved.rs:234-239 | the guild and channel commands time out exactly when the flag is still down at the last read |
| ImprovedBridge.ChannelJsonName | rust-native/src/main_improved.rs:278-290 | a name array without a NUL, or starting with one, shows "Unknown" |
| ImprovedBridge.CollectChannels | rust-native/src/main_improved.rs:278-297 | the channel loop collects exactly the converted records |
| ImprovedBridge.CollectGuilds | rust-native/src/main_improved.rs:199-210 | the guild loop collects exactly the converted records |
| ImprovedBridge.AwaitConnection | rust-native/src/main_improved.rs:173-181 | the connect wait ends at once for status >= 1 and otherwise runs the full 3 s |
| ImprovedBridge.Process.constructor | rust-native/src/main_improved.rs:89 | STATE starts as None |
| ImprovedBridge.Process.InitDiscordSdk | rust-native/src/main_improved.rs:345-383 | `init_discord` follows `InitDiscord`: a NUL in the token is refused after the first calls, otherwise STATE is replaced |
| ImprovedBridge.Process.Init | rust-native/src/main_improved.rs:140-160 | `init_cmd` follows `InitCmd` |
| ImprovedBridge.Process.Guilds | rust-native/src/main_improved.rs:162-240 | `guilds_cmd` follows `GuildsCmd` |
| ImprovedBridge.Process.Channels | rust-native/src/main_improved.rs:242-327 | `channels_cmd` follows `ChannelsCmd` |
| ImprovedBridge.Process.Disconnect | rust-native/src/main_improved.rs:329-341 | `disconnect_cmd` follows `DisconnectCmd` |
| ImprovedBridge.Process.OnStatusChanged | rust-native/src/main_improved.rs:354-358 | `status_cb` follows `StatusChanged` |
| ImprovedBridge.Process.HandleCommand | rust-native/src/main_improved.rs:126-136 | `handle_command` answers `Respond(req, Dispatch(...))` and updates STATE as `Dispatch` says |
| Uint64Text.Pow10 | native/src/discord_client.cc:12-24 | every power of ten is at least 1 |
| Uint64Text.Strtoull | native/src/discord_client.cc:20-22 | `strtoull` of a digit string that fits is its value |
| Uint64Text.IsValidUint64 | native/src/discord_client.cc:12-24 | accepts iff non-empty, all digits, at most 20 long and, at 20, not above "18446744073709551615"; then `out_value` is the value; the copy in native/src/discord_client_new.cc:11-26 is the same |
| Uint64Text.DigitsValueBound | native/src/discord_client.cc:17-19 | an n-digit string's value is below 10^n |
| Uint64Text.DigitsValueFront | native/src/discord_client.cc:17-19 | the leading digit weighs 10^(n-1) |
| Uint64Text.LexOrderIsNumeric | native/src/discord_client.cc:19 | for digit strings of equal length, string order is numeric order |
| Uint64Text.MaxTextValue | native/src/discord_client.cc:19 | the bound text is 20 digits worth 2^64 - 1 |
| Uint64Text.ValidMeansFits | native/src/discord_client.cc:12-24 | the checks accept exactly the digit strings of at most 20 characters whose value fits in 64 bits |
| Uint64Text.AcceptedAlsoParses | native/src/discord_client.cc:12-24 | whatever the validator accepts, Rust's `parse::<u64>` reads as the same number |
| Uint64Text.StricterThanRust | native/src/discord_client.cc:13-18 | "+1" and 21-character zero-padded text parse in Rust but are refused here |
| NativeTypes.CText | native/src/discord_client_new.cc:152-153 | what a reader of a `c_str()` pointer sees: the longest NUL-free prefix, stopped by a NUL or the end of the text |
| CppClient.InitializeValidatesFirst | native/src/discord_client.cc:113-128 | `Initialize` is false exactly for an invalid app id or an empty token, and then calls nothing and changes nothing |
| CppClient.InitializeSetsParsedId | native/src/discord_client.cc:118-141 | an accepted application id reaches `SetApplicationId` as the number it spells |
| CppClient.NatToStringLength | native/src/discord_client.cc:46 | a u64 prints in at most 20 digits |
| CppClient.DisconnectOnlyOnce | native/src/discord_client.cc:170-182 | `Disconnect` acts once; afterwards, even after another `Initialize`, it does nothing |
| CppClient.DroppedIsPermanent | native/src/discord_client.cc:29 | nothing resets `g_client_dropped` |
| CppClient.GuardedByInitialized | native/src/discord_client.cc:184-205 | `RunCallbacks` and `FetchGuilds` call nothing before initialisation |
| CppClient.CacheRefilled | native/src/discord_client.cc:41-95 | after a callback the cache holds exactly the delivered records on success and nothing on failure |
| CppClient.ParentIdText | native/src/discord_client.cc:84-88 | a channel without a parent shows `parent_id` "", one with a parent shows its id |
| CppClient.DiscordClient.constructor | native/src/discord_client.cc:105-107 | the client starts uninitialised with empty caches |
| CppClient.DiscordClient.Initialize | native/src/discord_client.cc:113-168 | follows `InitializeOp` |
| CppClient.DiscordClient.Disconnect | native/src/discord_client.cc:170-182 | follows `DisconnectOp` |
| CppClient.DiscordClient.Destroy | native/src/discord_client.cc:109-111 | the destructor disconnects |
| CppClient.DiscordClient.RunCallbacks | native/src/discord_client.cc:184-193 | pumps only when initialised |
| CppClient.DiscordClient.FetchGuilds | native/src/discord_client.cc:195-205 | requests guilds only when initialised |
| CppClient.DiscordClient.OnUserGuilds | native/src/discord_client.cc:36-67 | clears the guild cache, refills it on success, drops a non-null result |
| CppClient.DiscordClient.OnGuildChannels | native/src/discord_client.cc:69-103 | the same for the channel cache |
| CppClient.DiscordClient.GetGuilds | native/src/discord_client.cc:207-210 | returns the guild cache |
| CppClient.DiscordClient.GetGuildChannels | native/src/discord_client.cc:212-215 | returns the channel cache whatever guild is asked for |
| CppClient.DiscordClient.GetCurrentUser | native/src/discord_client.cc:217-220 | returns the never-assigned default user |
| CppClient.DiscordClient.SendMessage | native/src/discord_client.cc:222-226 | always false |
| CppClient.DiscordClient.JoinVoiceChannel | native/src/discord_client.cc:228-233 | answers whether the client is initialised |
| CppClient.DiscordClient.LeaveVoiceChannel | native/src/discord_client.cc:235-239 | answers whether the client is initialised |
| CppClient.DiscordClient.SetActivityRichPresence | native/src/discord_client.cc:241-246 | always false |
| CppClientNew.InitializeValidatesFirst | native/src/discord_client_new.cc:44-58 | `Initialize` is false exactly for an invalid app id or an empty token, and then touches nothing |
| CppClientNew.DisconnectIdempotent | native/src/discord_client_new.cc:100-110 | `Disconnect` acts only while `g_initialized`, leaves it false, and a second call does nothing |
| CppClientNew.ChannelsCacheFirst | native/src/discord_client_new.cc:124-139 | returns the cache; a request goes out only for an empty cache on an initialised client with a valid guild id |
| CppClientNew.ActivityGuard | native/src/discord_client_new.cc:112-117 | `SetActivityRichPresence` is false iff not initialised (146-158); `RunCallbacks` pumps only when initialised |
| CppClientNew.ActivityTextsStopAtNul | native/src/discord_client_new.cc:152-153 | a NUL-free text reaches the SDK whole, and "a\0b" reaches it as "a" |
| CppClientNew.CachesNeverWritten | native/src/discord_client_new.cc:31-32 | no operation of this client writes the caches |
| CppClientNew.AlwaysRequestsFromStart | native/src/discord_client_new.cc:124-139 | after `Initialize` from the start state, every channel query with a valid id issues a fresh request and returns nothing |
| CppClientNew.DiscordClient.constructor | native/src/discord_client_new.cc:36-38 | the client starts uninitialised with empty caches |
| CppClientNew.DiscordClient.Initialize | native/src/discord_client_new.cc:44-98 | follows `InitializeOp` |
| CppClientNew.DiscordClient.Disconnect | native/src/discord_client_new.cc:100-110 | follows `DisconnectOp` |
| CppClientNew.DiscordClient.Destroy | native/src/discord_client_new.cc:40-42 | the destructor disconnects |
| CppClientNew.DiscordClient.RunCallbacks | native/src/discord_client_new.cc:112-117 | pumps only when initialised |
| CppClientNew.DiscordClient.GetGuilds | native/src/discord_client_new.cc:119-122 | returns the guild cache |
| CppClientNew.DiscordClient.GetGuildChannels | native/src/discord_client_new.cc:124-139 | follows `GetGuildChannelsOp` |
| CppClientNew.DiscordClient.GetCurrentUser | native/src/discord_client_new.cc:141-144 | returns the never-assigned default user |
| CppClientNew.DiscordClient.SetActivityRichPresence | native/src/discord_client_new.cc:146-158 | follows `SetActivityOp`: false without a session; otherwise the SDK gets each text up to its first NUL, as `c_str()` hands it over |
| MessageHandler.Next | native/src/message_handler.cc:34-42 | an empty queue gives the sentinel and stays empty; otherwise the front element and the rest |
| MessageHandler.TakeInOrder | native/src/message_handler.cc:29-42 | taking as many messages as were queued returns them in arrival order (FIFO) |
| MessageHandler.PushKeepsFront | native/src/message_handler.cc:29-41 | pushing at the back leaves the next message unchanged |
| MessageHandler.Queue.constructor | native/src/message_handler.cc:26 | the queue starts empty |
| MessageHandler.Queue.QueueMessage | native/src/message_handler.cc:29-32 | appends at the back |
| MessageHandler.Queue.GetNextMessage | native/src/message_handler.cc:34-42 | follows `Next`; an empty queue is left unchanged |
| MessageHandler.Queue.HasMessages | native/src/message_handler.cc:44-47 | true iff the queue is non-empty |
| MessageHandler.Queue.ClearQueue | native/src/message_handler.cc:49-54 | leaves the queue empty |
| SdkLocator.FirstGreatestIsFirstMaximal | rust-native/build.rs:85-87 | the chosen candidate's key is the greatest, and every earlier candidate's key is strictly smaller, as a stable descending sort leaves it |
| SdkLocator.CandidatesFromEntries | rust-native/build.rs:58-82 | every candidate comes from one directory entry, and every qualifying entry gives one |
| SdkLocator.CandidateShape | rust-native/build.rs:64-80 | an entry qualifies iff it is a directory named `DiscordSocialSdk-<v>` or `discord_social_sdk` whose lib/release exists; the path lies under it |
| SdkLocator.NoneIffNoCandidate | rust-native/build.rs:85-90 | nothing is found iff no entry qualifies |
| SdkLocator.ChosenIsGreatest | rust-native/build.rs:85-90 | the found path is an existing lib/release of a qualifying entry whose key no other exceeds |
| SdkLocator.VersionsCompareAsText | rust-native/build.rs:86 | keys compare as text: "1.10" sorts below "1.9" |
| SdkLocator.NineBeatsTen | rust-native/build.rs:54-91 | with `DiscordSocialSdk-1.10` and `DiscordSocialSdk-1.9` present, the 1.9 SDK is chosen |
| SdkLocator.UnversionedOutranks | rust-native/build.rs:77 | the unversioned key "999.999.999" outranks every version starting below '9' |
| SdkLocator.EnvironmentFirst | rust-native/build.rs:7-17 | a valid `DISCORD_SDK_PATH` wins over everything, and the path itself over its `discord_social_sdk` subdirectory |
| SdkLocator.ProjectRootSecond | rust-native/build.rs:19-22 | without a usable variable, an SDK in the project root wins over the system locations |
| SdkLocator.SystemLocationsInOrder | rust-native/build.rs:43-51 | otherwise the first existing system location that holds an SDK, in listed order; nothing iff none does |
| SdkLocator.FoundPathsExist | rust-native/build.rs:19-49 | a path found in the project root or a system location exists |
| SdkLocator.FirstExists | rust-native/build.rs:43-49 | a path found among the system locations exists |
| SdkLocator.EnvironmentNotChecked | rust-native/build.rs:9-11 | the variable's path is returned when `lib` exists even if lib/release does not |
| SdkLocator.FindSdkInDirectory | rust-native/build.rs:54-91 | the entry loop and the selection give `FindIn` |
| SdkLocator.FindDiscordSdkLibPath | rust-native/build.rs:5-52 | the search, with its early returns, gives `LibPath` |
| RustWrapper.CStr | rust-native/src/lib.rs:304-306 | `CStr::from_ptr` reads the bytes before the first NUL |
| RustWrapper.Buffer | rust-native/src/lib.rs:289-295 | `get_channels` offers exactly 100 slots |
| RustWrapper.CheckOkIffZero | rust-native/src/lib.rs:226-257 | a call is Ok iff its code is 0, and an error carries the code unchanged |
| RustWrapper.StubsAlwaysFail | rust-native/src/lib.rs:110-188 | off Linux no client is created and every call fails with code -1 |
| RustWrapper.ExportedCodes | rust-native/src/lib.rs:393-433 | the exports answer 0 or -1, and 0 exactly for a live handle whose SDK call returned 0 |
| RustWrapper.CStrStopsAtNul | rust-native/src/lib.rs:304-306 | a C string followed by a NUL reads back as itself |
| RustWrapper.FieldReadsBack | rust-native/src/lib.rs:316-339 | each activity text is truncated to one byte less than its field, the field stays NUL-terminated, and it reads back as the kept prefix |
| RustWrapper.ChannelCount | rust-native/src/lib.rs:289-311 | the list has `count` entries for 0 <= count <= 100 and 100 otherwise; slots the SDK did not write read as id 0 with an empty name |
| RustWrapper.DiscordActivity.constructor | rust-native/src/lib.rs:316 | `mem::zeroed` gives five separate zeroed fields of 128, 128, 256, 128 and 128 bytes |
| RustWrapper.CopyNonoverlapping | rust-native/src/lib.rs:323-327 | copies n bytes to the front and leaves the rest |
| RustWrapper.CopyText | rust-native/src/lib.rs:323-339 | one capped copy into a zeroed field gives `Field` |
| RustWrapper.DiscordClientWrapper.constructor | rust-native/src/lib.rs:219-222 | the wrapper holds the created client pointer and id |
| RustWrapper.DiscordClientWrapper.Connect | rust-native/src/lib.rs:226-235 | calls connect with the client pointer and maps the code |
| RustWrapper.DiscordClientWrapper.Disconnect | rust-native/src/lib.rs:237-246 | calls disconnect with the client pointer and maps the code |
| RustWrapper.DiscordClientWrapper.RunCallbacks | rust-native/src/lib.rs:248-257 | calls run_callbacks with the client pointer and maps the code |
| RustWrapper.DiscordClientWrapper.ClearActivity | rust-native/src/lib.rs:350-359 | calls activity_clear and maps the code |
| RustWrapper.DiscordClientWrapper.GetCurrentUser | rust-native/src/lib.rs:259-273 | an error code is an error; otherwise the id and the name up to its NUL |
| RustWrapper.DiscordClientWrapper.SendMessage | rust-native/src/lib.rs:275-285 | a content with a NUL is refused before the SDK sees it; otherwise the code is mapped |
| RustWrapper.DiscordClientWrapper.GetChannels | rust-native/src/lib.rs:287-312 | follows `ChannelsResult` |
| RustWrapper.DiscordClientWrapper.SetActivity | rust-native/src/lib.rs:314-348 | all three texts must be NUL-free before anything is sent; the SDK gets the capped fields and two zero fields |
| RustWrapper.DiscordClientWrapper.Drop | rust-native/src/lib.rs:362-372 | destroys a live client once and nulls its client pointer |
| RustWrapper.New | rust-native/src/lib.rs:213-224 | `Err(NullPointer)` iff create returns null, which the stubs always do (110-113) |
| RustWrapper.CreateDiscordClient | rust-native/src/lib.rs:376-382 | a handle, or null exactly when `new` failed |
| RustWrapper.DestroyDiscordClient | rust-native/src/lib.rs:384-391 | a null handle is ignored; otherwise the wrapper is dropped |
| RustWrapper.ClientConnect | rust-native/src/lib.rs:393-405 | -1 for a null handle without a call; otherwise 0 on Ok and -1 on Err |
| RustWrapper.ClientDisconnect | rust-native/src/lib.rs:407-419 | the same for disconnect |
| RustWrapper.ClientRunCallbacks | rust-native/src/lib.rs:421-433 | the same for run_callbacks |

## Left out

- Every `Discord_*` and `discord_client_*` foreign call: the vendor SDK is not visible, so each is an oracle. Its answer (status, span, flag, return code, written record) is a parameter.
- Memory handling around callbacks (`Box::into_raw`/`from_raw` user data, free functions, `msg_free` being a no-op) and the lifetime of the boxed client behind a handle: a `Session`, `Process` or wrapper object stands for it.
- Concurrency: the background pump thread of main_improved.rs, `Mutex` locking and poisoning (locks always succeed), `Discord_SetFreeThreaded` (recorded only as a call), and several C++ `DiscordClient` objects sharing the file's globals. Each command is atomic.
- Status callbacks during a command follow from that: `Session.OnStatusChanged` and `Process.OnStatusChanged` model the callback between commands. A command's own ready wait reads the statuses as an oracle sequence.
- ImprovedBridge.AwaitConnection: because commands are atomic, the status it reads does not change while it waits, so the 3 s connect wait in `guilds_cmd` either ends at once or runs fully.
- ImprovedBridge.Process.Guilds: the race between the background callback and the read after the wait is not modelled; the callback is seen iff it fired by that read.
- Real time: `Instant`, `thread::sleep`, the 200 ms post-response sleep and the floating-point timing logs. Time is a tick counter, and the poll loops' deadlines and intervals are the source's constants in milliseconds.
- `Discord_RunCallbacks` pumps are not recorded in the call traces of the main.rs and main_improved.rs models (`BridgeSession`, `ImprovedBridge`); only requests and state-changing calls are. The C++ clients and the Rust wrapper do record their pump calls.
- Standard input and output and serde: line reading, JSON parsing and printing are oracles (`InputLine`). A failed stdout write ends the loop in the source and is not modelled.
- The OAuth/PKCE flow of `init_discord_sdk` (rust-native/src/main.rs:2273-2670) is an oracle: `AuthFlow` says how it ended. Only its final token checks (NUL, empty, shorter than 20) and the ready wait are modelled.
- The stored-token path re-checks the token after `UsesStoredToken` has already held; those checks can never fail and are modelled as they are, without separate properties.
- `Discord_Client_StartCall`'s user data and the connect-voice done flag, which nothing sets, so `ConnectLobbyVoice` always reports not connected.
- UTF-8: names and texts are character (main.rs, main_improved.rs, C++) or byte (lib.rs) sequences. Lossy decoding, `to_string_lossy`, and truncation in the middle of a multi-byte character are not modelled.
- RustWrapper.CStr: `CStr::from_ptr` on a field with no NUL reads past the field, which is undefined behaviour; the model stops at the field's end.
- Uint64Text.Strtoull: only called on digit strings; `strtoull`'s handling of signs, spaces and other bases is not modelled, and `out_value` is not written on a refusal.
- C++ exceptions (`try`/`catch` around the SDK calls in `Initialize`) and all `std::cout`/`std::cerr` logging. The SDK calls are assumed not to throw.
- The `init_time` assignment of native/src/discord_client_new.cc:87, a clock reading nothing uses.
- SdkLocator.FindSdkInDirectory: `sort_by` is a library call; the model takes its consequence for index 0 (the stable descending sort leaves the first candidate with the greatest key there) rather than sorting.
- SdkLocator: paths are sequences of components, so separators, `..`, symlinks, absolute components inside `join` and Windows drive syntax are not modelled. Entries whose metadata cannot be read count as non-directories; entries with I/O errors are not listed. The build script's `main` (cargo output, `exit`) is not part of this model.
- The N-API glue (native/src/discord_social_sdk.cc, rust-native/src/napi_bridge.rs) and the declarations-only header native/src/discord_client.h are not part of this model.
