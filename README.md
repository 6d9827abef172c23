# botnek core in Dafny

botnek is a Discord bot. Each guild gets its own audio playback engine: a
FIFO of audio requests and a voice connection. The engine joins the
requester's voice channel, plays each track to the end and leaves once the
queue runs dry. Around this engine sit the `sfx` commands: add, delete, list,
play and chain stored sound effects, each named with the alias language
`alias#MOD#MOD`. The `emote` commands keep a per-guild table of
BetterTTV/7TV emotes, recognise emote page URLs and register a webhook per
channel.

This project models the following. Each piece proves the behaviour the
source promises.

- **`AudioQueue`** (module `Queue`): a class over a `seq` of requests.
- **`AudioHandler`** (modules `Engine`, `EngineProperties`, `Handler`).
  - `Engine` is a pure state machine over an `EngineState` value. It holds:
    - the queue and the player status;
    - the optional connection, with its status, channel, rejoin count and the
      track it was created for;
    - `queueLock` and `readyLock`.
  - Each handler is one transition:
    - `stop`;
    - one drain step of `playNextFromQueue`;
    - `playRequest`;
    - the player and connection `stateChange` listeners.
  - Timers and `entersState` become boolean outcome parameters.
  - The drain's self-retry is a loop that consumes one audio outcome per
    attempt. Its result is `OutOfBudget` when the outcomes run out.
  - `Handler.AudioHandler` is the class with those fields. Each of its methods
    is proved equal to the matching transition of the old state.
- **`GuildResource<T>`** (module `Registry`): a class over a `map`. `get`
  returns an error for an unknown guild.
- **Data types and validators**: `isValidSfxAlias`, `SfxModifier`,
  `isSfxModifier`, `DEFAULT_GUILD_DATA` (module `SfxTypes`), and
  `isEmoteAlias` (module `EmoteTypes`). `GuildDb.GuildDatabase` is the mutable
  guild data that the commands update.
- **The sfx alias language** (module `SfxCommon`):
  - `sfxAliasToString`, `sfxExists`, `loadSfxPath`;
  - `randomSfxAlias` with the random value as a parameter;
  - `normalizeAliasInput` and `parseSfxAlias`;
  - `handleModifiers`, with its loop over the modifiers. The rate adjustment
    is an abstract `(path, dir, rate) -> path` function.
- **The sfx subcommands**:
  - `sfxChain` (module `SfxChain`), enqueued on the engine one request at a
    time;
  - `sfxAdd` (module `SfxAdd`) and `sfxDel` (module `SfxDel`), as their
    effect on the sounds map;
  - `sfxList` (module `SfxList`): sort, chunk by 10, render;
  - the prefix-command dispatch of `Sfx.executeMessage` (module
    `SfxDispatch`).
- **`EmoteConfigManager`** (module `EmoteConfigs`): a class over the guild
  store.
- **The emote URL matchers**: the two `tryParseUrl` regular expressions (module
  `EmoteUrl`, used by `BttvGateway` and `SevenTvGateway`), and the API-record
  to `Emote` mappings.
- **The `emote` command** (module `EmoteCommand`):
  - the listing text;
  - the decision order of `addEmote`;
  - the webhook registration of `tryRegisterEmoteHook`;
  - the `executeMessage` dispatch.

The regular expressions are modelled as JavaScript evaluates them.

- **`/[a-z0-9]{1,20}$/`**: it is not anchored at the start, so it accepts
  exactly the non-empty strings whose last character is in `[a-z0-9]`
  (`SfxTypes.ValidSfxAliasIffLastChar`).
- **`/http.*(host)\/emote(s?)\/(?<id>\w+).*$/`**:
  - the leftmost `http` starts the match;
  - the greedy `.*` takes the last position where a host, a path and a word
    character follow;
  - for BetterTTV, the `.` in the host pattern is the "any character" wildcard;
  - `/emotes/` is tried before `/emote/`;
  - the id is the longest `\w+` run;
  - the trailing `.*$` fails when a line terminator follows.

## Model

| member | source | states |
|---|---|---|
| Queue.AudioQueue.constructor | src/audio/audioQueue.ts:12-15 | a new queue is empty |
| Queue.AudioQueue.Clear | src/audio/audioQueue.ts:17-19 | the queue is empty afterwards, whatever it held |
| Queue.AudioQueue.IsEmpty | src/audio/audioQueue.ts:21-23 | true exactly when the length is 0 |
| Queue.AudioQueue.Length | src/audio/audioQueue.ts:25-27 | the number of queued requests |
| Queue.AudioQueue.Enqueue | src/audio/audioQueue.ts:29-31 | contents become old contents followed by the request |
| Queue.AudioQueue.NextRequest | src/audio/audioQueue.ts:33-35 | on a non-empty queue returns the head and leaves exactly the tail; on an empty queue returns `undefined` and stays empty |
| Queue.ServeInOrder | src/audio/audioQueue.ts:29-35 | for any interleaving of enqueues and dequeues, the served requests are a prefix of the pushed ones in push order, and served ++ pending is all of them |
| Handler.AudioHandler.constructor | src/audio/audioHandler.ts:35-50 | a new handler is idle, unlocked, without connection and with an empty queue |
| Handler.AudioHandler.Stop | src/audio/audioHandler.ts:61-69 | the new state is `Stop` of the old one |
| Handler.AudioHandler.DestroyConnection | src/audio/audioHandler.ts:162-163 | destroying a live connection marks it Destroyed and runs `stop()` through the Destroyed listener |
| Handler.AudioHandler.PlayRequest | src/audio/audioHandler.ts:109-186 | state and outcome are the `playRequest` transition of the old state |
| Handler.AudioHandler.PlayNextOnce | src/audio/audioHandler.ts:74-98 | one drain attempt equals `DrainStep` of the old state |
| Handler.AudioHandler.PlayNextFromQueue | src/audio/audioHandler.ts:74-99 | the drain with its retries equals `Drain` of the old state |
| Handler.AudioHandler.Enqueue | src/audio/audioHandler.ts:52-56 | a request without a track throws at the title read and changes nothing; otherwise appends the request, then drains |
| Handler.AudioHandler.OnPlayerStateChange | src/audio/audioHandler.ts:40-45 | the player listener equals its transition |
| Handler.AudioHandler.OnConnectionStateChange | src/audio/audioHandler.ts:143-181 | the connection listener equals its transition, with Ready resetting `rejoinAttempts` so only consecutive drops count |
| EngineProperties.StopResets | src/audio/audioHandler.ts:61-69 | after `stop` the queue is empty, `queueLock` is false, the player is stopped and any connection is Destroyed |
| EngineProperties.StopIdempotent | src/audio/audioHandler.ts:65-67 | a second `stop()` yields the same state |
| EngineProperties.DrainSkipsWhenBusy | src/audio/audioHandler.ts:75-78 | with `queueLock` held or the player not Idle the drain changes nothing |
| EngineProperties.DrainTearsDownWhenEmpty | src/audio/audioHandler.ts:81-85 | empty queue and a live connection: the connection is destroyed, nothing is locked or dequeued |
| EngineProperties.DrainRejectsWhenDestroyed | src/audio/audioHandler.ts:81-85 | empty queue and an already Destroyed connection: the repeated `destroy()` throws and the state is unchanged |
| EngineProperties.DrainTakesHead | src/audio/audioHandler.ts:87-98 | otherwise the drain locks, dequeues exactly the head and plays it; the lock is released on success and on failure, and the drain retries exactly on failure |
| EngineProperties.DrainSpinsWithoutConnection | src/audio/audioHandler.ts:81-98 | empty queue and no connection: every attempt followed dequeues `undefined`, fails and retries from the same state, so every finite budget runs out |
| EngineProperties.DrainReleasesLock | src/audio/audioHandler.ts:87-98 | a drain that starts unlocked ends unlocked |
| EngineProperties.FirstInvalidRequestSpins | src/audio/audioHandler.ts:52-98 | an invalid first request with a track on a fresh handler is dropped, and every attempt after it retries on the empty queue; one without a track is never queued |
| EngineProperties.InvalidRequestDoesNotStall | src/audio/audioHandler.ts:94-98 | an invalid request is dropped and the next one is played |
| EngineProperties.EnqueueWhileBusy | src/audio/audioHandler.ts:52-56 | while busy, `enqueue` of a request with a track only appends; one without a track throws and changes nothing |
| EngineProperties.TracklessRequestNotQueued | src/audio/audioHandler.ts:52-54 | a request without a track throws when its title is read, before it is queued, and the state is unchanged |
| EngineProperties.PlayerIdleDrains | src/audio/audioHandler.ts:40-45 | a transition non-Idle → Idle drains; Idle → Idle does nothing |
| EngineProperties.TrackEndTearsDown | src/audio/audioHandler.ts:40-85 | the last track ending with nothing queued destroys the connection |
| EngineProperties.JoinDecision | src/audio/audioHandler.ts:124-185 | a new connection is created iff there is none, it is Destroyed, or it is in another channel; otherwise the audio goes straight to the player; the queue and the locks are untouched |
| EngineProperties.ValidationFailsFirst | src/audio/audioHandler.ts:110-120 | a malformed request throws before the connection is touched, and the state is unchanged |
| EngineProperties.ValidationCases | src/audio/audioHandler.ts:110-120 | the three guards, in order: interaction or track missing, not a guild member, no channel or guild |
| EngineProperties.SecondRequestOvertakesFirst | src/audio/audioHandler.ts:131-181 | the lock is released before the new connection is Ready, so a second request plays first and the first request's track replaces it on Connecting |
| EngineProperties.RejoinBudget | src/audio/audioHandler.ts:156-161 | two non-4014 drops rejoin after 5 s and 10 s; the third destroys the connection |
| EngineProperties.RecoveryResetsRejoins | src/audio/audioHandler.ts:156-161 | a connection that became Ready again rejoins at its next drop with one attempt counted, whatever it had used before |
| EngineProperties.StaleConnectionRejects | src/audio/audioHandler.ts:52-99 | with a Destroyed connection left over, an invalid request with a track is dropped, the retry calls `destroy()` again and the drain throws; one without a track throws before queuing; the state is left as it was either way |
| EngineProperties.ResumableClose | src/audio/audioHandler.ts:150-155 | a 4014 close waits for Connecting and destroys the connection if that does not come |
| EngineProperties.DestroyedStops | src/audio/audioHandler.ts:162-163 | Destroyed runs `stop()` |
| EngineProperties.ConnectingOutcomes | src/audio/audioHandler.ts:164-179 | Ready in time: subscribe and play the connection's track; otherwise destroy; `readyLock` is false either way |
| EngineProperties.ReadyLockGuards | src/audio/audioHandler.ts:164 | Connecting/Signalling while `readyLock` is held only records the status |
| EngineProperties.ReadyLockReleased | src/audio/audioHandler.ts:164-179 | no transition leaves `readyLock` set when it was clear |
| Registry.GuildResource.constructor | src/types/guildResource.ts:6-8 | starts empty |
| Registry.GuildResource.Get | src/types/guildResource.ts:10-13 | the stored resource exactly when the guild was put; otherwise the "No database for guild" error |
| Registry.GuildResource.Put | src/types/guildResource.ts:15-17 | sets or overwrites that guild's entry; every other entry is unchanged |
| Registry.PutThenGet | src/types/guildResource.ts:10-17 | `get` after `put` returns the resource; other guilds read as before |
| GuildDb.GuildDatabase.constructor | src/data/types.ts:36-40 | new guild data: no sounds, no emote config, no webhooks |
| SfxTypes.ValidSfxAliasIffLastChar | src/data/types.ts:7-10 | valid iff non-empty and the last character is in `[a-z0-9]` |
| SfxTypes.ValidSfxAliasExamples | src/data/types.ts:7-10 | `""` is invalid; any prefix followed by `[a-z0-9]` is valid |
| SfxTypes.IsSfxModifierSpec | src/data/types.ts:20-26 | a known modifier is returned iff the upper-cased text is its name |
| SfxTypes.ModifierNameRoundTrip | src/data/types.ts:20-24 | text that upper-cases to a modifier's name is that modifier |
| SfxTypes.IsSfxModifierExamples | test/data/types.test.ts:5-8 | `'turbo'` is TURBO; `'burbo'` is UNKNOWN |
| SfxTypes.DefaultGuildDataHasNoSounds | src/data/types.ts:36-40 | the default sounds map has no alias |
| EmoteTypes.EmoteAliasLength | src/data/types/emote.ts:19-22 | the empty alias and any alias over 20 characters are rejected |
| EmoteTypes.EmoteAliasBadChar | src/data/types/emote.ts:19-22 | a space, `#` or `:` anywhere makes the alias invalid |
| EmoteTypes.EmoteAliasConcat | src/data/types/emote.ts:19-22 | joining two valid aliases of total length ≤ 20 gives a valid one, since any mix of `[_\-a-zA-Z0-9]` is accepted |
| EmoteTypes.EmoteAliasExamples | src/data/types/emote.ts:19-22 | upper case, `_` and `-` are accepted; `cat jam` and `a:b` are not |
| Text.SplitJoin | src/commands/sfx/common.ts:52 | splitting pieces joined by a separator they do not contain gives the pieces back |
| Text.SplitChainJoin | src/commands/sfx/chain.ts:25 | splitting on `/[ ,]+/` words joined by single spaces gives the words back |
| Text.SplitChainLeadingSep | src/commands/sfx/chain.ts:25 | a chain starting with a separator splits into an empty first piece |
| SfxCommon.SfxAliasToString | src/commands/sfx/common.ts:16-20 | back-quoted, and holds the alias, followed by `#` and the joined modifiers when there are any |
| SfxCommon.LoadSfxPath | src/commands/sfx/common.ts:110-119 | the stored path iff the alias exists (`sfxExists`), otherwise `undefined` |
| SfxCommon.RandomPickRange | src/commands/sfx/common.ts:30-33 | with n ≥ 2 sounds the random pick is an existing key but never the last one |
| SfxCommon.RandomPickReaches | src/commands/sfx/common.ts:30-33 | every key but the last is picked for some random value |
| SfxCommon.RandomPickSmall | src/commands/sfx/common.ts:30-33 | one sound is always picked; with none the text is "undefined" |
| SfxCommon.KnownModifiers | src/commands/sfx/common.ts:67-69 | the mapped modifiers with UNKNOWN filtered out |
| SfxCommon.KnownModifiersConcat | src/commands/sfx/common.ts:67-69 | recognition distributes over concatenation, so input order is kept |
| SfxCommon.ParseNeverEmpty | src/commands/sfx/common.ts:52-56 | the "Could not parse" error never occurs |
| SfxCommon.ParseSfxAliasSpec | src/commands/sfx/common.ts:51-74 | the result is the normalised text before the first `#` iff that is valid, else the "Invalid sfx alias" error; the modifiers are the known ones after it, in order, at most 2 |
| SfxCommon.ParseAliasText | src/commands/sfx/common.ts:51-74 | parsing the text form of an alias with at most two known modifiers gives them back |
| SfxCommon.ParseJoined | src/commands/sfx/common.ts:51-74 | an alias joined with `#`-free pieces parses to the first two recognised modifiers among the pieces |
| SfxCommon.ParseExample | test/commands/sfx/common.test.ts:6-12 | `fart#turbo` parses to `fart` with the modifiers `[TURBO]` |
| SfxCommon.ParseDropsExtraModifiers | src/commands/sfx/common.ts:63-71 | unknown modifiers are skipped and only the first two known ones are kept |
| SfxCommon.AdjustedPathConcat | src/commands/sfx/common.ts:80-103 | the path is transformed left to right, one modifier at a time |
| SfxCommon.AdjustedPathSingle | src/commands/sfx/common.ts:82-101 | TURBO 4/3, TURBO2 2, SLOW 3/4, SLOW2 1/2; UNKNOWN leaves the path unchanged |
| SfxCommon.HandleModifiers | src/commands/sfx/common.ts:76-105 | no modifiers: the original file titled with the alias; otherwise the file transformed by each rate in turn, titled `alias [M1,M2]` |
| SfxChain.ParsePieces | src/commands/sfx/chain.ts:25 | each piece parsed separately, in order |
| SfxChain.Collect | src/commands/sfx/chain.ts:25 | all results when every parse succeeds |
| SfxChain.CollectFirstError | src/commands/sfx/chain.ts:25 | the first failing piece's error is the one raised |
| SfxChain.CollectAllOk | src/commands/sfx/chain.ts:25 | no error when every piece parses |
| SfxChain.MissingAliases | src/commands/sfx/chain.ts:41 | lists only aliases that are not stored, and is empty iff every piece exists |
| SfxChain.PlanChain | src/commands/sfx/chain.ts:17-49 | an accepted chain has 1 to 5 pieces, all existing sounds |
| SfxChain.ChainRequests | src/commands/sfx/chain.ts:54-58 | one request per piece, in order, with the track `handleModifiers` makes from its stored file |
| SfxChain.AliasStrings | src/commands/sfx/chain.ts:62 | each piece in its `sfxAliasToString` form |
| SfxChain.NoChainRejected | src/commands/sfx/chain.ts:17-23 | a missing or empty chain is refused |
| SfxChain.LeadingSeparatorFails | src/commands/sfx/chain.ts:25 | a leading space or comma gives an empty piece, which fails alias validation |
| SfxChain.EmptyAliasInvalid | src/commands/sfx/common.ts:58-61 | the empty alias fails with "Invalid sfx alias" |
| SfxChain.NeverNothingToChain | src/commands/sfx/chain.ts:33-38 | the "at least one sfx" branch is unreachable |
| SfxChain.TooManyAfterParsing | src/commands/sfx/chain.ts:25-32 | more than 5 pieces is refused, but only after every piece parsed |
| SfxChain.PlanChainSpec | src/commands/sfx/chain.ts:25-49 | an accepted plan is the parsed pieces, in order; a parsed chain within the limit is refused iff some piece is missing, naming the missing ones |
| SfxChain.PlanOfParsedPieces | src/commands/sfx/chain.ts:41-49 | a parsed chain within the limit is refused with the missing aliases, or accepted |
| SfxChain.ChainOfWords | src/commands/sfx/chain.ts:25-49 | words joined by spaces are accepted iff every word parses to an existing sound, giving one piece per word in order |
| SfxChain.EnqueueAllWhileBusy | src/commands/sfx/chain.ts:54-60 | while the engine is busy, requests with tracks, as a chain's are, are appended in order |
| SfxChain.ChainEnding | src/commands/sfx/chain.ts:60-63 | the confirmation "Queued chain of A -> B" exactly when every drain settled without throwing; no reply when one threw, in its drain or before queuing |
| SfxChain.ChainWhileBusyConfirmed | src/commands/sfx/chain.ts:54-63 | while the engine is busy every `enqueue` returns without playing, so the chain is confirmed |
| SfxChain.StaleConnectionChainThrows | src/commands/sfx/chain.ts:54-63 | a chain into a handler holding a Destroyed connection, from someone outside a voice channel, rejects at `Promise.all` and is not confirmed |
| SfxChain.SfxChain | src/commands/sfx/chain.ts:13-64 | a refused chain changes nothing; an accepted one enqueues each piece in order and ends as `ChainEnding` of the drains' results |
| SfxChain.EnqueueChain | src/commands/sfx/chain.ts:54-60 | the loop enqueues exactly the chain's requests, in order, and returns what each `enqueue` settled with |
| SfxAdd.AcceptedUntrimmedIsShort | src/commands/sfx/add.ts:138-143 | without a start time, an accepted video (saved whole by `saveAudio`) is at most 30 seconds long |
| SfxAdd.StartTimeSavesWholeVideo | src/commands/sfx/add.ts:125-143 | as written: with a start time, a video over 30 seconds whose remainder fits is accepted and saved whole |
| SfxAdd.EndTimeSavesWholeVideo | src/commands/sfx/add.ts:125-143 | as written: a start and an end within 30 seconds accept a video of any length, which is saved whole |
| SfxAdd.LongSoundsAccepted | src/commands/sfx/add.ts:125-143 | as written: a 59 s video from 0:29 and a 600 s video from 0:10 to 0:20 are accepted and stored at full length |
| SfxAdd.AcceptedClipIsShort | src/commands/sfx/add.ts:124-143 | corrected: the trimmed clip from start to end that the rule is written for is at most 30 seconds long whenever the rule accepts |
| SfxAdd.LengthRuleCases | src/commands/sfx/add.ts:124-140 | the three cases of the 30-second rule, each an iff |
| SfxAdd.SfxAdd | src/commands/sfx/add.ts:44-147 | a refused add leaves the sounds map as it was; a successful one inserts one new alias |
| SfxAdd.AddSucceeds | src/commands/sfx/add.ts:143-147 | success stores the given alias, which is not reserved and is valid and new, with the saved path, and keeps every other entry |
| SfxAdd.MissingInputRejected | src/commands/sfx/add.ts:44-50 | a missing alias or url is refused and nothing changes |
| SfxAdd.AddGuardOrder | src/commands/sfx/add.ts:74-111 | reserved, then invalid, then existing alias, then unsupported url |
| SfxAdd.StartAfterEndNeedsBoth | src/commands/sfx/add.ts:66-72 | start after end is refused iff both are non-zero |
| SfxAdd.SfxAddTo | src/commands/sfx/add.ts:34-159 | the store's sounds map becomes `SfxAdd` of the old one |
| SfxDel.SfxDel | src/commands/sfx/del.ts:20-72 | a refused delete leaves the sounds map as it was |
| SfxDel.DelGuardOrder | src/commands/sfx/del.ts:20-46 | no alias, then an invalid one, then one that does not exist |
| SfxDel.DelRemovesExactlyOne | src/commands/sfx/del.ts:48-72 | a valid, existing alias is removed, even when its file is missing; every other entry is unchanged |
| SfxDel.DelUndoesAdd | src/commands/sfx/del.ts:50 | deleting a just-added alias restores the map |
| SfxDel.SfxDelFrom | src/commands/sfx/del.ts:13-73 | the store's sounds map becomes `SfxDel` of the old one |
| SfxList.BeforeIrreflexive | src/commands/sfx/list.ts:15 | the comparison is irreflexive |
| SfxList.BeforeTotal | src/commands/sfx/list.ts:15 | and total |
| SfxList.BeforeTransitive | src/commands/sfx/list.ts:15 | and transitive |
| SfxList.SortAliases | src/commands/sfx/list.ts:10-15 | a permutation of the aliases |
| SfxList.SortAliasesSorted | src/commands/sfx/list.ts:10-15 | ascending and a permutation |
| SfxList.ChunksSpec | src/commands/sfx/list.ts:23-27 | the chunks concatenate to the list; each holds 1 to 10 aliases and all but the last exactly 10; there are ⌈n/10⌉ |
| SfxList.ChunkAliases | src/commands/sfx/list.ts:23-27 | the loop produces exactly those chunks |
| SfxList.SfxList | src/commands/sfx/list.ts:10-31 | the reply renders the sorted, chunked aliases |
| SfxList.ListEmpty | src/commands/sfx/list.ts:23-31 | no sounds give "```\n\n```" |
| SfxList.ListTwoLines | src/commands/sfx/list.ts:23-31 | 11 aliases give a line of 10 joined by " \| " and a line of 1 |
| SfxDispatch.Arg | src/commands/sfx.ts:121-123 | `args[k]`, `undefined` past the end |
| SfxDispatch.OptionalArg | src/commands/sfx.ts:128-129 | set iff present and not empty |
| SfxDispatch.DispatchNoParameters | src/commands/sfx.ts:118-140 | `list` and `help` take no parameters |
| SfxDispatch.DispatchAliasWord | src/commands/sfx.ts:121-137 | `del` and `play` pass `args[1]` |
| SfxDispatch.DispatchAdd | src/commands/sfx.ts:124-131 | `add` passes alias, url, and start and end with empty treated as absent |
| SfxDispatch.DispatchDefault | src/commands/sfx.ts:141-143 | any other first word, or none, plays `args[0]` |
| SfxDispatch.DispatchChain | src/commands/sfx.ts:132-134 | `chain` passes the rest joined by single spaces |
| SfxDispatch.DispatchChainWords | src/commands/sfx.ts:132-134 | the chain of typed words splits back into those words |
| SfxDispatch.DispatchEmptyChain | src/commands/sfx.ts:132-134 | a bare `chain` passes the empty chain |
| EmoteConfigs.InitialisedSpec | src/data/emoteConfigManager.ts:16-25 | creates the missing maps as empty, never overwrites, and is idempotent |
| EmoteConfigs.EmoteConfigManager.constructor | src/data/emoteConfigManager.ts:14-25 | the store's emote config becomes `Initialised` of the old one; nothing else changes |
| EmoteConfigs.EmoteConfigManager.Get | src/data/emoteConfigManager.ts:41-47 | the stored emote iff the alias exists |
| EmoteConfigs.EmoteConfigManager.Put | src/data/emoteConfigManager.ts:27-31 | an existing alias fails and changes nothing; a new one is stored, and nothing else changes |
| EmoteConfigs.EmoteConfigManager.Remove | src/data/emoteConfigManager.ts:33-39 | fails iff the alias is absent; otherwise returns the stored emote |
| EmoteConfigs.EmoteConfigManager.ListEmotes | src/data/emoteConfigManager.ts:49-51 | every (alias, emote) pair exactly once |
| EmoteConfigs.ListEntries | src/data/emoteConfigManager.ts:49-51 | the entries of a map, each key exactly once |
| EmoteConfigs.ListingDistinct | src/data/emoteConfigManager.ts:49-51 | no alias is listed twice |
| EmoteConfigs.PutThenGet | src/data/emoteConfigManager.ts:27-47 | after a put of a new alias, `get` and `remove` give the emote; other aliases read as before |
| EmoteUrl.WordRun | src/commands/emotes/betterTTVEmoteGateway.ts:14 | the longest `\w+` run at a position |
| EmoteUrl.LastCandidate | src/commands/emotes/betterTTVEmoteGateway.ts:14 | the greedy `.*`: the last position with host, path and a word character |
| EmoteUrl.MatchAt | src/commands/emotes/betterTTVEmoteGateway.ts:14 | a match from one `http` yields a word |
| EmoteUrl.Search | src/commands/emotes/betterTTVEmoteGateway.ts:14 | the leftmost successful `http` yields a word |
| EmoteUrl.TryParseUrl | src/commands/emotes/betterTTVEmoteGateway.ts:60-63 | a defined id is non-empty and made of `[A-Za-z0-9_]` |
| EmoteUrl.NoHttpNoMatch | src/commands/emotes/betterTTVEmoteGateway.ts:14 | without `http` the result is `undefined` |
| EmoteUrl.NoHostNoMatch | src/commands/emotes/betterTTVEmoteGateway.ts:14 | a URL without the host's first letter gives `undefined` |
| EmoteUrl.TrailingLineTerminatorNoMatch | src/commands/emotes/betterTTVEmoteGateway.ts:14 | a final line terminator defeats `.*$` |
| EmoteUrl.CanonicalUrlId | src/commands/emotes/betterTTVEmoteGateway.ts:14 | a canonical prefix followed by a word id gives exactly that id |
| BttvGateway.TryParseUrl | src/commands/emotes/betterTTVEmoteGateway.ts:60-63 | a defined id is a word |
| BttvGateway.ToEmote | src/commands/emotes/betterTTVEmoteGateway.ts:36-40 | {id, defaultAlias: code, source: BTTV} |
| BttvGateway.Hosts | src/commands/emotes/betterTTVEmoteGateway.ts:14 | both `betterttv.com` and `betterttv.net` match the host pattern |
| BttvGateway.UrlIdRoundTrip | src/commands/emotes/betterTTVEmoteGateway.ts:14 | either host and either path give back any word id |
| BttvGateway.EmotePageUrl | test/commands/emotes/betterTTVEmoteGateway.test.ts:21-25 | `https://betterttv.com/emotes/ID` gives ID |
| BttvGateway.OtherSiteUrl | test/commands/emotes/betterTTVEmoteGateway.test.ts:27-31 | `https://example.com/emote/123` gives `undefined` |
| SevenTvGateway.TryParseUrl | src/commands/emotes/sevenTVEmoteGateway.ts:71-74 | a defined id is a word |
| SevenTvGateway.ToEmote | src/commands/emotes/sevenTVEmoteGateway.ts:37-41 | {id, defaultAlias: name, source: SEVENTV} |
| SevenTvGateway.Host | src/commands/emotes/sevenTVEmoteGateway.ts:14 | `7tv.app` matches the host pattern |
| SevenTvGateway.UrlIdRoundTrip | src/commands/emotes/sevenTVEmoteGateway.ts:14 | either path gives back any word id |
| SevenTvGateway.OtherSiteUrl | src/commands/emotes/sevenTVEmoteGateway.ts:14 | `https://example.com/emote/123` gives `undefined` |
| EmoteCommand.EmoteLine | src/commands/emote.ts:70 | each line starts with the back-quoted alias |
| EmoteCommand.EmoteLines | src/commands/emote.ts:59-71 | one line per listed emote, in order |
| EmoteCommand.EmoteListReplySpec | src/commands/emote.ts:59-74 | "No emotes!" iff there are none; otherwise splitting on newlines gives the lines |
| EmoteCommand.ListedUrlParsesBack | src/commands/emote.ts:57-58 | the page URL of a listed emote parses back to its id with its own gateway |
| EmoteCommand.EmoteList | src/commands/emote.ts:54-75 | the reply lists every stored emote once |
| EmoteCommand.SuppliedAliasCheckedFirst | src/commands/emote.ts:89-98 | a supplied invalid or taken alias is refused before any URL is looked at |
| EmoteCommand.SevenTvWins | src/commands/emote.ts:100-109 | when both gateways match, the 7TV emote is used |
| EmoteCommand.AddedEmote | src/commands/emote.ts:111-122 | an added emote came from a matching gateway and is stored under a valid, free alias: the supplied one or its default |
| EmoteCommand.AddEmote | src/commands/emote.ts:83-126 | the emote map gains exactly the planned entry, or nothing |
| EmoteCommand.RegisterHookSpec | src/commands/emote.ts:23-45 | a channel without an emote hook gains exactly one at the end of its list; other channels are unchanged |
| EmoteCommand.RegisterHookIdempotent | src/commands/emote.ts:23-29 | registering again changes nothing |
| EmoteCommand.TryRegisterEmoteHook | src/commands/emote.ts:18-52 | outside a text channel nothing; otherwise the lists become `RegisterHook` of the old ones; a hook is created iff none existed |
| EmoteCommand.DispatchCases | src/commands/emote.ts:166-181 | `list`, `add` and `disable` go to their handlers; anything else registers the hook |

## Left out

- Discord and voice I/O are not modelled: replies, webhook creation and sending, `joinVoiceChannel`, `AudioPlayer` and audio resources. They appear as status values and outcome parameters.
- Real time is not modelled: `wait`, `setTimeout` and the `entersState` time limits become booleans saying whether the awaited state came.
- Interleavings are not modelled. Each handler runs as one atomic transition, so a JavaScript run can order awaits in ways the model does not produce.
- SfxChain.SfxChain: each `enqueue` is modelled as completing its drain before the next starts. In JavaScript, later enqueues run while the first drain still holds `queueLock`, so they only append; `EnqueueAllWhileBusy` and `ChainWhileBusyConfirmed` prove that case separately. A drain still retrying when its attempts run out ends as `StillRetrying`: the model follows finitely many attempts and cannot say whether the promise settles later.
- SfxChain.ParsePieces and SfxChain.SfxChain: they model `parseSfxAlias(db, alias)` with both arguments, as common.ts:51 declares it. As written, chain.ts:25 (and play.ts:26) pass only the piece, so the piece lands in `db` and `alias` is `undefined`. Then `alias.split('#')` throws, and every non-empty `sfx chain` rejects before any reply. The model follows the declared two-argument contract instead.
- EngineProperties.DrainSpinsWithoutConnection: the retry on an empty queue with no connection is shown only as a fixed point over the finitely many attempts the model follows. Neither termination nor non-termination is claimed.
- The end of that retry is not modelled. The template literal at audioHandler.ts:91 throws on the `undefined` request inside the `try` and before any `await`, so the `catch` at audioHandler.ts:94-97 recurses synchronously. The call stack then overflows, and the drain's promise rejects with a `RangeError` after finitely many attempts. Where the overflow lands, and so whether `queueLock` is left set, depends on the JavaScript engine.
- Text.ToLower: case mapping covers ASCII letters only; JavaScript's Unicode case mapping is not modelled.
- Text.ToUpper: ASCII letters only as well, so `SfxTypes.IsSfxModifier` does not see JavaScript's wider upper-casing (for example `'ſ'` to `'S'`).
- SfxList.SortAliases: `localeCompare` is modelled as code-point order of the characters; locale collation is not modelled.
- SfxAdd.SfxAdd: `momentParse` is a parameter giving whole seconds. Moment's duration parsing and fractional seconds are not modelled.
- SfxCommon.HandleModifiers: `ffmpegAdjustRate` is an abstract path function over exact rates. Its shell-out, hashing, floating-point rates and errors are not modelled.
- The HTTP fetches and file caching of `fetchEmote`/`emoteApi` are not modelled: a fetch is a parameter that returns the API record or fails.
- The 7TV `urls` fallback that picks the download address is not modelled. It only feeds the download.
- Persistence is not modelled: lowdb/lodash, `db.write()`, `fs.existsSync`, `rmSync` and `mkdirSync`. File-system answers are parameters (`fileExists`, `removed`).
- GuildDb.GuildDatabase.constructor: each guild gets its own fresh default data. In the source, db.ts:25 gives every guild without a database file the same module-level `DEFAULT_GUILD_DATA` object (types.ts:36-40). lodash `set` (add.ts:145), `unset` (del.ts:50) and the `EmoteConfigManager` constructor change that object in place. So within one process, a sound added in one such guild shows up in `sfx list` and play for every other one. The model's separate databases never share data.
- Keys as paths are not modelled. The sounds and emote tables are flat maps keyed by the whole alias, but lodash `has`, `get`, `set` and `unset` read a key as a property path (add.ts:92,145; del.ts:48-50; common.ts:23-24,118; emoteConfigManager.ts:29,46). Two effects follow that the model omits. First, an alias with a `.` or `[` is stored nested: `sfx add my.clip URL` stores `clip` under `my`, and `sfx list` then shows `my`. Second, `set` silently stores nothing for `__proto__`, `constructor` and `prototype`, yet the command still replies "Added". The members below are stated for aliases without these.
- SfxAdd.SfxAdd: a success is said to insert the alias as one flat key. For a dotted alias or one of the three reserved property names, this does not hold.
- SfxAdd.AddSucceeds: "stores the given alias" does not hold for a dotted alias or for `__proto__`, `constructor` or `prototype`, which `isValidSfxAlias` accepts.
- EmoteConfigs.EmoteConfigManager.Put: "a new alias is stored" does not hold for `__proto__`, `constructor` or `prototype`, which `isEmoteAlias` accepts and lodash `set` refuses.
- EmoteCommand.AddEmote: "the emote map gains exactly the planned entry" does not hold for the aliases `__proto__`, `constructor` and `prototype`.
- SfxCommon.LoadSfxPath: a flat lookup. lodash `has` and `get` resolve a dotted alias through nested objects, so `my.clip` is found as `clip` under `my`.
- SfxDel.SfxDel: a flat removal. lodash `unset` of a dotted alias removes the nested entry instead.
- EmoteConfigs.EmoteConfigManager.Remove: it does not promise the alias is gone afterwards. The source's lodash `omit(...).commit()` builds a copy and leaves the stored map unchanged, and the model does the same.
- Reply texts are not modelled except where a property is about them (the chain confirmation, the sfx and emote listings).
- `sfxPlay` (src/commands/sfx/play.ts) is not part of this model. The dispatch stops at `Play(alias)`.
- `tryRemoveEmoteHook` is not modelled: it only replies "TODO".
- The slash-command paths of `executeCommand` are not modelled: they pass the same parameters through Discord's option API.
- EmoteConfigs.EmoteConfigManager.ListEmotes: the listing is any order that enumerates the map. The insertion order lodash happens to produce is not modelled.
- The random value of `Math.random()` is a parameter: a fraction in [0, 1), per chain piece.
- `chatgpt`, the YouTube track (apart from the length of what `saveAudio` writes), the image tools, logging and the bot wiring are not modelled: they are outside the core.

## Findings

| source | as written | input that shows it | evidently intended | confidence | as-written member | corrected member |
|---|---|---|---|---|---|---|
| src/commands/sfx/add.ts:143 with src/audio/tracks/youtubeTrack.ts:27-33 | `saveAudio(soundsPath, startFromSeconds, endAtSeconds)` calls a one-parameter method that streams the whole video, so the start and end are dropped and the 30-second rule does not bound the stored sound | a 59 s video with start 29 and no end, or a 600 s video with start 10 and end 20: both pass the rule and are stored at full length | save only the part from the start to the end, which the rule then bounds by 30 seconds | not executed; high | SfxAdd.LongSoundsAccepted | SfxAdd.AcceptedClipIsShort |
