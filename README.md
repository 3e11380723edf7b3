# World channel and skill-data loader of a game server, in Dafny

This project models two parts of the ArgonMS game server.

**The world channel** (`GameNet.WorldChannel`) is one channel of a game world. It keeps:

- the directory of connected players, keyed by player id;
- the queue of channel changes still waiting for the destination channel. Each entry holds the destination channel id and a timeout task armed for 5000 ms;
- the continuations (carried-over buffs) that players leaving another channel stored here.

It reports to the center server in two messages:

- its population after every add and remove;
- its port, which is -1 when the channel is down.

A client whose channel change succeeds gets the redirect message with the new game host. A client whose change fails or times out gets its actions enabled again.

The outbound connections are modelled as append-only outboxes:

- `centerOutbox` for the center server;
- `clientOutbox` for client sessions;
- `bridgeOutbox` for the inter-channel bridge.

The scheduler is the table `timers` of armed timeout tasks. A task firing is the event `FireTimeout`.

**The message layouts** are byte sequences built by the little-endian writer:

- `LittleEndian` holds the writer primitives and the field readers;
- `ChannelPackets` holds the three messages, each with its decoder and both round-trip lemmas.

**The skill-data loader** (`SkillLoading`) is a read-through cache:

- `getSkill` and `getMobSkill` call the loader only on a miss, then return what the cache holds;
- the two caches are independent;
- the process-wide loader is installed once, chosen by the data-file type, and the first installation wins.

The source behind the loader is a map given at construction. `ReadThrough` is the pure specification of one cached lookup, and `Lookup` is the uncached reference. From a cache that holds only the source's entries, which the loader always keeps (`Valid`), `ReadThrough` answers what `Lookup` does (`ReadThroughTransparent`).

Behaviour worth knowing, as the code is written:

- A second channel-change request for a player overwrites the first, but the first timeout stays armed. When it fires, it drops the second request (`RequestedTwice`).
- `startup` acts only when it is given the port -1.

## Model

| member | source | states |
|---|---|---|
| LittleEndian.Field | src/argonms/game/net/WorldChannel.java:205-209 | a field of n bytes holds exactly the value modulo 256^n, low byte first |
| LittleEndian.Byte | src/argonms/game/net/WorldChannel.java:183-184 | writeByte writes one byte, the value modulo 256 |
| LittleEndian.Short | src/argonms/game/net/WorldChannel.java:185 | writeShort writes two bytes holding the value modulo 2^16 |
| LittleEndian.Int | src/argonms/game/net/WorldChannel.java:209 | writeInt writes four bytes holding the value modulo 2^32 |
| LittleEndian.Bool | src/argonms/game/net/WorldChannel.java:232 | writeBool writes one byte, 1 exactly for true and 0 exactly for false |
| LittleEndian.Signed | src/argonms/game/net/WorldChannel.java:209 | the two's-complement reading of a field lies in the signed range and agrees with the unsigned reading modulo 256^n |
| LittleEndian.FieldOfUnsigned | src/argonms/game/net/WorldChannel.java:185 | writing back the value read from a field gives the same bytes (induction on the field) |
| LittleEndian.UnsignedInjective | src/argonms/game/net/WorldChannel.java:185 | two fields of one width with the same value are the same bytes |
| LittleEndian.SignedField | src/argonms/game/net/WorldChannel.java:209 | every value of an n-byte signed type reads back from its field unchanged |
| ChannelPackets.PopulationChanged | src/argonms/game/net/WorldChannel.java:181-187 | the population report is 4 bytes (the writer starts with room for 3): opcode, channel, and the count modulo 2^16 |
| ChannelPackets.PopulationRoundTrip | src/argonms/game/net/WorldChannel.java:181-187 | the center decodes the report to the opcode, the channel and the count modulo 2^16 |
| ChannelPackets.PopulationDecodeInverse | src/argonms/game/net/WorldChannel.java:181-187 | every 4-byte message is the report of what it decodes to |
| ChannelPackets.ChannelPortChanged | src/argonms/game/net/WorldChannel.java:204-211 | the port report is 7 bytes: opcode, world, channel, and the port as a signed 32-bit field |
| ChannelPackets.PortChangeRoundTrip | src/argonms/game/net/WorldChannel.java:204-211 | the center decodes the report to the opcode, world, channel and exact port |
| ChannelPackets.PortChangeDecodeInverse | src/argonms/game/net/WorldChannel.java:204-211 | every 7-byte message is the port report of what it decodes to |
| ChannelPackets.ShutdownPortBytes | src/argonms/game/net/WorldChannel.java:199-211 | the report shutdown sends ends in four 0xFF bytes (port -1) |
| ChannelPackets.NewGameHost | src/argonms/game/net/WorldChannel.java:229-236 | the redirect is the 16-bit opcode, the true flag, the host bytes and the port truncated to 16 bits; 5 bytes longer than the host |
| ChannelPackets.NewGameHostRoundTrip | src/argonms/game/net/WorldChannel.java:229-236 | the client decodes the opcode, the whole host and the port modulo 2^16 |
| ChannelPackets.NewGameHostDecodeInverse | src/argonms/game/net/WorldChannel.java:229-236 | every message of at least 5 bytes with the true flag is the redirect of what it decodes to |
| GameNet.CenterBytes | src/argonms/game/net/WorldChannel.java:181-211 | the center decodes a load report to the population opcode, the channel and the count modulo 2^16, and a port report to the port opcode, world, channel and exact port |
| GameNet.ClientBytes | src/argonms/game/net/WorldChannel.java:229-236 | an enable-actions message is the enable-actions packet; the redirect decodes to the game-host opcode, the whole host and the port modulo 2^16 |
| GameNet.Apply | src/argonms/game/net/WorldChannel.java:105-113 | adding stores the player under its id; removing leaves no entry for the id |
| GameNet.ApplyFrame | src/argonms/game/net/WorldChannel.java:105-113 | adding puts exactly the player's id into the directory, removing takes exactly that id out, and every other id keeps its player |
| GameNet.Destination | src/argonms/game/net/WorldChannel.java:150-161 | the player is redirected exactly when resolution succeeded with a host and a port other than -1, and then to that host and port |
| GameNet.LoadReportsTrackDirectory | src/argonms/game/net/WorldChannel.java:105-113 | over any run of adds and removes (the run `RunEvents` performs on a channel), one report per event, and report i carries this channel and the connected count right after event i (induction on the run) |
| GameNet.LoadReportsDecode | src/argonms/game/net/WorldChannel.java:105-113 | the center decodes report i of any run to the population opcode, this channel and the count after event i modulo 2^16 |
| GameNet.ReplayAppend | src/argonms/game/net/WorldChannel.java:105-113 | the directory after one more event is that event applied to the directory before it |
| GameNet.LoadReportsAppend | src/argonms/game/net/WorldChannel.java:105-113 | one more add or remove sends exactly one more report, carrying the count right after it |
| GameNet.ReplaySize | src/argonms/game/net/WorldChannel.java:105-113 | for the directory a run of `RunEvents` leaves: when every add is of an absent player and every remove of a present one, the directory holds its start size plus adds minus removes |
| GameNet.TwoJoinOneLeaves | src/argonms/game/net/WorldChannel.java:105-113 | add a, add b, remove a leaves directories of sizes 1, 2 and 1 |
| GameNet.WorldChannel.constructor | src/argonms/game/net/WorldChannel.java:64-78 | a new channel has the given world, channel and port and empty directory, queue, continuations and outboxes |
| GameNet.WorldChannel.Listen | src/argonms/game/net/WorldChannel.java:80-86 | a failed bind shuts the channel down (port -1 reported); a successful one changes nothing modelled |
| GameNet.WorldChannel.PlayerById | src/argonms/game/net/WorldChannel.java:115-117 | the directory's entry for the id (a player with that id), none exactly when the id is not in the directory |
| GameNet.WorldChannel.IsPlayerConnected | src/argonms/game/net/WorldChannel.java:123-125 | true exactly when the id is in the directory |
| GameNet.WorldChannel.AddPlayer | src/argonms/game/net/WorldChannel.java:105-108 | the player is stored under its id and exactly one report with the new connected count is sent; invariant kept |
| GameNet.WorldChannel.RemovePlayer | src/argonms/game/net/WorldChannel.java:110-113 | the id leaves the directory and exactly one report with the new connected count is sent; invariant kept |
| GameNet.WorldChannel.SendNewLoad | src/argonms/game/net/WorldChannel.java:181-187 | one population report with the given count is appended |
| GameNet.WorldChannel.ChannelChangeError | src/argonms/game/net/WorldChannel.java:131-135 | the player's queued change is gone (removing an absent one changes nothing) and exactly one enable-actions packet is sent |
| GameNet.WorldChannel.RequestChannelChange | src/argonms/game/net/WorldChannel.java:137-145 | the queue maps the player to the destination and a fresh timeout, overwriting an earlier entry without cancelling its timeout; other entries unchanged; one bridge request sent |
| GameNet.WorldChannel.FireTimeout | src/argonms/game/net/WorldChannel.java:138-143 | an armed task runs the error path once for the player it was armed for; a cancelled task does nothing |
| GameNet.WorldChannel.PerformChannelChange | src/argonms/game/net/WorldChannel.java:147-167 | the queued change is removed and its timeout cancelled, other entries unchanged; a resolved destination prepares the player and sends the redirect, otherwise the error path runs |
| GameNet.WorldChannel.StorePlayerBuffs | src/argonms/game/net/WorldChannel.java:169-171 | the continuation is stored under the id, overwriting any earlier one |
| GameNet.WorldChannel.ApplyBuffsFromLastChannel | src/argonms/game/net/WorldChannel.java:173-179 | true exactly when a continuation was stored; it is removed and applied once |
| GameNet.WorldChannel.Startup | src/argonms/game/net/WorldChannel.java:189-197 | only the port -1 is acted on: it is recorded and reported if the bind succeeds; any other port changes nothing |
| GameNet.WorldChannel.Shutdown | src/argonms/game/net/WorldChannel.java:199-202 | the port becomes -1 and one port report with -1 is sent |
| GameNet.WorldChannel.SendNewPort | src/argonms/game/net/WorldChannel.java:204-211 | one port report with the current port is appended |
| GameNet.ApplyEvent | src/argonms/game/net/WorldChannel.java:105-113 | one addPlayer or removePlayer call extends the run the directory and the reports describe by that event; invariant kept |
| GameNet.RunEvents | src/argonms/game/net/WorldChannel.java:105-113 | any run of addPlayer and removePlayer calls leaves the directory `Replay` gives and sends exactly the reports `LoadReports` gives; invariant kept |
| GameNet.AddAddRemove | src/argonms/game/net/WorldChannel.java:105-113 | add a, add b, remove a: one player is left and the center gets the counts 1, 2, 1 |
| GameNet.UnansweredChange | src/argonms/game/net/WorldChannel.java:131-145 | an unanswered change times out: nothing stays queued, one enable-actions packet, the player stays connected |
| GameNet.AnsweredChange | src/argonms/game/net/WorldChannel.java:137-167 | an answered change redirects the player once, and the cancelled timeout never takes the error path |
| GameNet.UnreachableDestination | src/argonms/game/net/WorldChannel.java:147-166 | an unresolvable destination takes the error path: the player is not prepared for leaving and gets one enable-actions packet |
| GameNet.RequestedTwice | src/argonms/game/net/WorldChannel.java:137-145 | a second request overwrites the first, the first timeout drops it, and the client gets two enable-actions packets |
| GameNet.ContinuationUsedOnce | src/argonms/game/net/WorldChannel.java:169-179 | a stored continuation is found and applied on the first arrival only |
| GameNet.ShutdownReport | src/argonms/game/net/WorldChannel.java:199-211 | the center decodes the shutdown report as port -1 for this world and channel |
| SkillLoading.KindFor | src/argonms/loading/skill/SkillDataLoader.java:67-74 | KVJ selects the KVJ loader on the given path, MCDB the MCDB loader |
| SkillLoading.Lookup | src/argonms/loading/skill/SkillDataLoader.java:41-43 | the source's own answer: present exactly when the source has the id |
| SkillLoading.ReadThrough | src/argonms/loading/skill/SkillDataLoader.java:51-56 | a lookup answers something exactly when the cache afterwards holds the id, and then that entry |
| SkillLoading.ReadThroughTransparent | src/argonms/loading/skill/SkillDataLoader.java:51-56 | with a cache that holds only the source's entries, a lookup answers what the source does and the cache stays so |
| SkillLoading.ReadThroughTouchesOnlyId | src/argonms/loading/skill/SkillDataLoader.java:51-56 | a lookup adds at most the requested id and changes no cached entry |
| SkillLoading.ReadThroughIdempotent | src/argonms/loading/skill/SkillDataLoader.java:51-56 | a repeated lookup answers the same and leaves the cache alone |
| SkillLoading.ReadAll | src/argonms/loading/skill/SkillDataLoader.java:51-56 | a run of lookups answers once per id |
| SkillLoading.ReadAllTransparent | src/argonms/loading/skill/SkillDataLoader.java:51-56 | every answer of every run of lookups from a coherent cache is the source's answer (induction on the run) |
| SkillLoading.SkillDataLoader.constructor | src/argonms/loading/skill/SkillDataLoader.java:36-39 | a new loader has both caches empty |
| SkillLoading.SkillDataLoader.LoadPlayerSkill | src/argonms/loading/skill/SkillDataLoader.java:41 | only the requested id is added to the player cache, and only if the source has it |
| SkillLoading.SkillDataLoader.LoadMobSkill | src/argonms/loading/skill/SkillDataLoader.java:43 | only the requested id is added to the mob cache, and only if the source has it |
| SkillLoading.SkillDataLoader.GetSkill | src/argonms/loading/skill/SkillDataLoader.java:51-56 | the loader is called on a miss only; the answer is the source's; the mob cache is untouched |
| SkillLoading.SkillDataLoader.GetMobSkill | src/argonms/loading/skill/SkillDataLoader.java:58-63 | the loader is called on a miss only; the answer is the source's; the player cache is untouched |
| SkillLoading.LoaderSlot.constructor | src/argonms/loading/skill/SkillDataLoader.java:31 | no loader is installed at first |
| SkillLoading.LoaderSlot.SetInstance | src/argonms/loading/skill/SkillDataLoader.java:65-76 | a loader is installed only while none is; it is new, of the selected kind, with empty caches |
| SkillLoading.LoaderSlot.GetInstance | src/argonms/loading/skill/SkillDataLoader.java:78-80 | the installed loader, null before the first installation |
| SkillLoading.FirstInstallWins | src/argonms/loading/skill/SkillDataLoader.java:65-80 | after two installations the installed loader is of the kind the first one chose |
| SkillLoading.LoadsPerLookup | src/argonms/loading/skill/SkillDataLoader.java:51-56 | looking a skill up twice loads it once when the source has it and twice when it does not (a miss caches nothing) |

## Left out

- Concurrency: the concurrent maps and the scheduler's threads are modelled as one call at a time. A timeout is the explicit event `FireTimeout`, with no clock, so the 5000 ms delay before it fires is not modelled.
- Socket binding in `listen` and `startup` is a boolean input. The 10-second mob-respawn ticker belongs to the map simulation, which is not part of this model. `startTime` and all logging are left out as well.
- The center connection, the client sessions and the inter-channel bridge are modelled as append-only outboxes of typed messages. `CenterBytes` and `ClientBytes` give their bytes. The actual sending is I/O.
- Host resolution is a function parameter returning a host and port, or an unknown-host failure. The `InterChannelCommunication` class is not part of this model.
- The opcode values and the enable-actions packet come from classes that are not part of this model. They are parameters of the channel (`Opcodes`).
- The writer's initial capacity only sizes a growable buffer, so the model has no capacity. The lengths it leads to are stated on the messages.
- `getPlayerByName`, `getConnectedPlayers`, `getChannelId`, `getTimeStarted`, `getPort`, `getMapFactory`, `createWorldComm` and `getInterChannelInterface` are plain accessors and wiring, so they are not modelled.
- The player log is modelled as a map from id to player. A player is its id and name. The internals of `PlayerContinuation.applyTo` and `GameCharacter.prepareChannelChange` are not part of this model. They are recorded as the `applied` log and the `departing` set.
- GameNet.WorldChannel.PerformChannelChange: requires a queued change and a connected player, because the code dereferences both without a check. A call without them would throw, and that failure is not modelled. In particular, when the player is no longer connected the code has already removed the queued change and cancelled its timeout before it throws, so that player's timeout never fires and the client never gets control back; the model's precondition excludes this state.
- The concrete KVJ and MCDB loaders, `loadAll` and `canLoadPlayerSkill`/`canLoadMobSkill` read files and a database that are not part of this model. The loaders' data is a map given at construction.
- Skill statistics are opaque payloads: their fields are defined by classes that are not part of this model.
- Only the `KVJ` and `MCDB` data-file types are modelled. Any other type, or a null one, would leave the instance unset or throw, and that is not modelled.
