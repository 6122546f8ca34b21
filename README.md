# Positional Discord audio: a verified model

This project models the sequential core of a Minecraft plugin that bridges Discord voice and the game world:

- Every Discord user in the proximity voice channel has an input queue of received PCM frames.
- Every listener has a timer task. Each 20 ms tick, that task collects one frame from each nearby speaker.
  - It will not mix the same frame twice for that listener.
  - It weights each frame's left and right samples for that speaker.
  - It sums the weighted samples into one 3840-byte frame, saturating to 16 bits.
  - It appends the result to the listener's output queue.
- The send handler hands the output queue back to Discord, oldest frame first.
- A registry links Discord ids and player UUIDs in two maps that should be inverse to each other.
- The plugin keeps three per-player maps, updated by the `/radio` and `/volume` commands:
  - a channel number;
  - a channel lock;
  - volume percents.

| file | module | models |
|---|---|---|
| `wrappers.dfy` | `Wrappers` | `Option`, for the source's `null` results |
| `pcm.dfy` | `Pcm` | the byte and sample arithmetic of the mixer: the `(short)` and `(byte)` casts, decode, encode, saturation |
| `mixing.dfy` | `Mixing` | the mixing loops of `UpdateQueue.run` on an array, against the specification `Mixed` |
| `queues.dfy` | `Queues` | the admission policy of `handleUserAudio` and the FIFO poll of the output queue |
| `registry.dfy` | `Registry` | the two id maps, `enterAfterRegistered`, `deRegister` and the rebuild in `loadFile` |
| `gathering.dfy` | `Gathering` | the collection loop of `UpdateQueue.run`, with the last-mixed-frame check |
| `forwarding.dfy` | `Forwarding` | the classes `AudioForwarder` (here `Forwarder`), `AudioHandler` and `UpdateQueue` |
| `positional.dfy` | `Positional` | `PositionalDiscord`: the channel, lock and volume commands and the lookups |

Modelling choices:

- A Java `byte` is stored as its bit pattern, `0..255`. The casts and `& 0xff` of the source are written out as arithmetic modulo 2^8 or 2^16.
- The frame ids are a per-forwarder counter, `nextFrameId`.
  - The source compares frames by reference (line 471 of `AudioForwarder.java`), and JDA hands over a new array for every received frame. The id stands for that array's identity.
- Each speaker's weighting is an opaque pair of integer functions, one per channel.
  - In the source it is `(int) (sample * multiplier[k])` with floating-point multipliers from `getAngularVolume`.
  - The `int` accumulator is unbounded. Overflowing it would take more than 65536 contributors.
- All world and server lookups are parameters:
  - `online` is the set of online players;
  - `nearbyPlayers` is the plugin's neighbour map;
  - the gain is given per speaker;
  - the entities near a player are a list of `Entity` values.
- Chat arguments are already parsed into `RadioCommand` and `VolumeCommand`.
- UUIDs are compared by value. At lines 177 and 213 of `PositionalDiscord.java` the source compares `UUID` objects with `!=`, which compares references.
  - So in the source, a lock whose UUID came from a different object counts as someone else's lock. A lock loaded from the stored file is one example: its owner can neither unlock it nor join it.
  - The model does not reproduce that.
- The `Player` comparison at line 303 is also modelled by UUID.

Two points about the shape of the code:

- **Who trims the input queue.** There is no barrier between the listeners' ticks and no separate trim step. `handleUserAudio` drops the head itself once the queue holds more than two frames. The tick's only removal is of a head it has already mixed.
- **Length of the mixed frame.** The mixed frame is always 3840 bytes. Past the longest contribution its bytes stay zero.

## Model

| member | source | states |
|---|---|---|
| Pcm.ToShort | src/main/java/me/tgwaffles/positionaldiscord/AudioForwarder.java:500-502 | the `(short)` cast gives a 16-bit value, is the identity on 16-bit values, and wraps values in 32768..65535 by 65536 |
| Pcm.Sample | src/main/java/me/tgwaffles/positionaldiscord/AudioForwarder.java:498-502 | the decoded sample is 16-bit and equals `hi*256 + lo` read as two's complement (minus 65536 when the high bit is set) |
| Pcm.Saturate | src/main/java/me/tgwaffles/positionaldiscord/AudioForwarder.java:513-519 | the clamped sum is always in the 16-bit range |
| Pcm.SaturateIsNearest | src/main/java/me/tgwaffles/positionaldiscord/AudioForwarder.java:513-519 | the clamp keeps a 16-bit sum as it is, and otherwise gives the 16-bit value nearest to the sum: it never wraps |
| Pcm.SampleOfEncoding | src/main/java/me/tgwaffles/positionaldiscord/AudioForwarder.java:520-521 | writing a 16-bit value as `(byte)(v >> 8)`, `(byte)v` and decoding the pair gives the value back |
| Pcm.EncodingOfSample | src/main/java/me/tgwaffles/positionaldiscord/AudioForwarder.java:498-521 | decoding a byte pair and encoding the sample again gives the same two bytes |
| Mixing.MaxLength | src/main/java/me/tgwaffles/positionaldiscord/AudioForwarder.java:487 | the result is at least every contributor's length and equal to one of them |
| Mixing.Mixed | src/main/java/me/tgwaffles/positionaldiscord/AudioForwarder.java:486 | the mixed frame is always 3840 bytes |
| Mixing.MixFrames | src/main/java/me/tgwaffles/positionaldiscord/AudioForwarder.java:486-522 | the nested loops, filling a zeroed 3840-byte array in place and dropping exhausted contributors, produce exactly `Mixed(combining)` |
| Mixing.SumLive | src/main/java/me/tgwaffles/positionaldiscord/AudioForwarder.java:493-512 | one pass of the inner loop gives the weighted sum over the contributors live at `i` and leaves exactly those live ones in the working list, in order |
| Mixing.MixAt | src/main/java/me/tgwaffles/positionaldiscord/AudioForwarder.java:493-521 | one pass of the outer loop writes the two bytes of `Mixed` at offset `i` and nothing else, and the survivors it keeps have the same sums as all contributors at every later offset |
| Mixing.SurvivorsOfSurvivors | src/main/java/me/tgwaffles/positionaldiscord/AudioForwarder.java:509-511 | removing contributors exhausted at an earlier offset changes neither which ones are live at a later offset nor the sum there |
| Mixing.SumAtBeyond | src/main/java/me/tgwaffles/positionaldiscord/AudioForwarder.java:497 | from the last byte pair of the longest frame on, no contributor is read and the sum is 0, so an odd trailing byte is never read |
| Mixing.MixedSampleAt | src/main/java/me/tgwaffles/positionaldiscord/AudioForwarder.java:492-522 | at every even offset the output pair decodes to the clamped sum of the weighted samples of the contributors live there |
| Mixing.MixedSilentBeyond | src/main/java/me/tgwaffles/positionaldiscord/AudioForwarder.java:486-492 | every byte at or past the longest frame stays 0 |
| Mixing.MixedSingleUnity | src/main/java/me/tgwaffles/positionaldiscord/AudioForwarder.java:498-521 | one contributor with unit weighting comes out byte for byte unchanged on every pair it fully holds |
| Mixing.MixedMutedLeft | src/main/java/me/tgwaffles/positionaldiscord/AudioForwarder.java:503-507 | the left weighting applies exactly at offsets `i % 4 == 0`: muting it silences those samples and leaves the others unchanged |
| Mixing.MixedWithSilence | src/main/java/me/tgwaffles/positionaldiscord/AudioForwarder.java:494-512 | adding an all-zero contributor of any length gives exactly the same mixed frame |
| Mixing.MixedAgree | src/main/java/me/tgwaffles/positionaldiscord/AudioForwarder.java:486-522 | the mix depends only on the sums at each offset and on the longest frame, and only up to the last offset with a non-zero sum |
| Mixing.MixedTwo | src/main/java/me/tgwaffles/positionaldiscord/AudioForwarder.java:494-519 | with two contributors, each output sample is the clamped sum of the two weighted samples live at that offset |
| Mixing.SaturationVector | src/main/java/me/tgwaffles/positionaldiscord/AudioForwarder.java:513-521 | two copies of the sample 0x4000 mix to 0x7F 0xFF (saturated, not wrapped to 0x80 0x00), followed by zeros |
| Queues.AdmitLength | src/main/java/me/tgwaffles/positionaldiscord/AudioForwarder.java:356-360 | after admission a queue grows by one while it has fewer than two frames, stays the same size from two to nine, and shrinks by one from ten on |
| Queues.AdmitIsFifo | src/main/java/me/tgwaffles/positionaldiscord/AudioForwarder.java:356-360 | below ten frames the new frame is the last one and the result is a suffix of the queue with the frame appended. At ten or more only the head is dropped. A queue of at most two frames stays at most two |
| Queues.AdmitAllKeepsNewestTwo | src/main/java/me/tgwaffles/positionaldiscord/AudioForwarder.java:356-360 | fed by the producer alone, a queue starting with at most two frames always holds exactly the two newest frames, in arrival order |
| Queues.Poll | src/main/java/me/tgwaffles/positionaldiscord/AudioForwarder.java:380-381 | polling an empty queue gives nothing and leaves it empty; otherwise it gives the head and leaves the rest |
| Queues.PollAfterAppend | src/main/java/me/tgwaffles/positionaldiscord/AudioForwarder.java:380 | appending a frame behind a queue does not change what the next poll returns |
| Queues.DrainIsFifo | src/main/java/me/tgwaffles/positionaldiscord/AudioForwarder.java:380-381 | polling until empty returns the frames exactly in the order they were queued |
| Registry.EnterAsWritten | src/main/java/me/tgwaffles/positionaldiscord/AudioForwarder.java:219-222 | after the two puts the player and the account are linked both ways, and no other entry changes |
| Registry.EnterAsWrittenKeepsInverseIff | src/main/java/me/tgwaffles/positionaldiscord/AudioForwarder.java:219-222 | on inverse maps, the two puts keep the maps inverse if and only if neither side is already linked to someone else |
| Registry.EnterAsWrittenBreaksInverse | src/main/java/me/tgwaffles/positionaldiscord/AudioForwarder.java:219-222 | entering the same player for a second account leaves the first account pointing at the player while the player points at the second account |
| Registry.Enter | src/main/java/me/tgwaffles/positionaldiscord/AudioForwarder.java:219-222 | with the line-195 check repeated: the maps stay inverse; the link is made when both sides are free, and nothing changes otherwise |
| Registry.DeRegister | src/main/java/me/tgwaffles/positionaldiscord/AudioForwarder.java:231-237 | an unknown player gives false and no change. Otherwise the result is true, and each map loses exactly one key: the player, and the account the player was linked to. Inverse maps stay inverse, and then no account points at the player afterwards |
| Registry.PutInverse | src/main/java/me/tgwaffles/positionaldiscord/AudioForwarder.java:55-57 | the rebuild maps every loaded player back to an account linked to it. Starting from an empty map with injective loaded ids, the two maps are mutual inverses |
| Gathering.GatherStep | src/main/java/me/tgwaffles/positionaldiscord/AudioForwarder.java:457-465 | a player with no Discord id, or with a missing or empty input queue, changes nothing, and a pass never adds or removes a queue |
| Gathering.GatherStepCases | src/main/java/me/tgwaffles/positionaldiscord/AudioForwarder.java:466-483 | the three outcomes of one pass. The head was mixed last time and is the only frame: it is removed and nothing is collected. The head was mixed last time: it is removed and the next frame is collected and remembered. Otherwise the head is collected and remembered |
| Gathering.GatherStepQueuesFrame | src/main/java/me/tgwaffles/positionaldiscord/AudioForwarder.java:469-474 | a pass leaves every other speaker's queue unchanged. It leaves the speaker's queue as it was or without its head |
| Gathering.GatherStepMemoryFrame | src/main/java/me/tgwaffles/positionaldiscord/AudioForwarder.java:478-481 | a pass changes no other speaker's remembered frame |
| Gathering.GatherStepCollects | src/main/java/me/tgwaffles/positionaldiscord/AudioForwarder.java:466-483 | a pass collects at most one frame and keeps what was collected before. A collected frame is the speaker's queue head after the pass and becomes the remembered frame. A pass that collects nothing leaves the memory alone, and if it removed a frame the queue is now empty |
| Gathering.GatherStepKeepsQueues | src/main/java/me/tgwaffles/positionaldiscord/AudioForwarder.java:461-483 | one pass keeps the input queues well formed (increasing frame ids, frames of at most 3840 bytes), so every collected frame fits |
| Gathering.GatherStepKeepsMemory | src/main/java/me/tgwaffles/positionaldiscord/AudioForwarder.java:469-482 | one pass keeps the listener's memory fresh: the frame last mixed from a speaker is never newer than that speaker's queue head |
| Gathering.GatherStepNeverRepeats | src/main/java/me/tgwaffles/positionaldiscord/AudioForwarder.java:469-482 | a collected frame is strictly newer than the frame last mixed from that speaker (no double mixing), and the memory only moves forward |
| Gathering.GatherAllShape | src/main/java/me/tgwaffles/positionaldiscord/AudioForwarder.java:455-484 | the loop keeps the set of queues, collects at most one frame per nearby player and only appends to the collected list |
| Gathering.GatherAllKeepsQueues | src/main/java/me/tgwaffles/positionaldiscord/AudioForwarder.java:456-484 | the whole loop keeps the queues well formed, and every collected frame is at most 3840 bytes |
| Gathering.GatherAllKeepsMemory | src/main/java/me/tgwaffles/positionaldiscord/AudioForwarder.java:456-484 | the whole loop keeps the memory fresh, and the memory for every speaker only moves forward |
| Gathering.GatherStepKeepsOthersFresh | src/main/java/me/tgwaffles/positionaldiscord/AudioForwarder.java:469-474 | one pass of any listener's tick keeps every other listener's memory fresh for the shared input queues, because it only drops a head and the next head is newer |
| Gathering.GatherAllKeepsOthersFresh | src/main/java/me/tgwaffles/positionaldiscord/AudioForwarder.java:456-484 | one listener's whole loop keeps every other listener's memory fresh, so interleaved ticks of several listeners never mix a frame twice for any of them |
| Gathering.AdmitKeeps | src/main/java/me/tgwaffles/positionaldiscord/AudioForwarder.java:356-360 | admitting a new frame keeps the queues well formed and every listener's memory fresh |
| Gathering.AdmitQueueKeeps | src/main/java/me/tgwaffles/positionaldiscord/AudioForwarder.java:356-360 | admission keeps one queue well formed; its new head is the old head or a later frame, or the new frame |
| Gathering.SessionChangeKeeps | src/main/java/me/tgwaffles/positionaldiscord/AudioForwarder.java:283 | installing an empty queue or removing one keeps the queues well formed and the memory fresh |
| Forwarding.DisconnectQueues | src/main/java/me/tgwaffles/positionaldiscord/AudioForwarder.java:134-150 | disconnecting removes the player's account entry when some guild's handler serves that account. It removes nothing else, and changes nothing for a player without an account or without a session |
| Forwarding.DeRegisterAsWrittenKeepsSessions | src/main/java/me/tgwaffles/positionaldiscord/AudioForwarder.java:231-245 | as written, deregistering leaves every queue in place, because the disconnect runs after the player was unlinked |
| Forwarding.DeRegisterAsWrittenMissesSession | src/main/java/me/tgwaffles/positionaldiscord/AudioForwarder.java:231-245 | a linked player with a live session keeps its queues after deregistration as written, and loses them when the disconnect comes first |
| Forwarding.DeRegisterQueues | src/main/java/me/tgwaffles/positionaldiscord/AudioForwarder.java:231-245 | disconnecting while the player is still linked removes the account's queues when it has a session, and leaves every other entry unchanged |
| Forwarding.Forwarder.constructor | src/main/java/me/tgwaffles/positionaldiscord/AudioForwarder.java:38-57 | starts with the loaded account map and its rebuilt inverse: every rebuilt entry maps back to an account linked to that player, and the maps are mutual inverses when the loaded map is injective. No queues or sessions |
| Forwarding.Forwarder.ConnectTo | src/main/java/me/tgwaffles/positionaldiscord/AudioForwarder.java:281-295 | installs fresh empty input and output queues for the caller, replacing any, and makes a new handler whose task holds the output queue and starts with no memory |
| Forwarding.Forwarder.CloseGuild | src/main/java/me/tgwaffles/positionaldiscord/AudioForwarder.java:174-184 | removes both queues of the guild's receiving user and nothing else; a guild without a handler changes nothing |
| Forwarding.Forwarder.OnMinecraftDisconnect | src/main/java/me/tgwaffles/positionaldiscord/AudioForwarder.java:134-150 | the loop over guilds has the effect `DisconnectQueues` on both queue maps |
| Forwarding.Forwarder.EnterAfterRegistered | src/main/java/me/tgwaffles/positionaldiscord/AudioForwarder.java:219-229 | the registry becomes `Enter` of the old one, so inverse maps stay inverse; queues are untouched |
| Forwarding.Forwarder.DeRegister | src/main/java/me/tgwaffles/positionaldiscord/AudioForwarder.java:231-245 | the registry and the result are `Registry.DeRegister` of the old registry, and both queue maps become `DeRegisterQueues` of the old ones |
| Forwarding.AudioHandler.constructor | src/main/java/me/tgwaffles/positionaldiscord/AudioForwarder.java:303-311 | records the forwarder and user, and creates its tick task |
| Forwarding.AudioHandler.HandleUserAudio | src/main/java/me/tgwaffles/positionaldiscord/AudioForwarder.java:350-361 | a user without an input queue changes nothing. Otherwise the queue becomes `Admit` of the new frame, and the frame counter advances exactly when the frame was added. The queues stay well formed |
| Forwarding.AudioHandler.CanProvide | src/main/java/me/tgwaffles/positionaldiscord/AudioForwarder.java:366-374 | true exactly when the listener's output queue exists and is not empty |
| Forwarding.AudioHandler.Provide20MsAudio | src/main/java/me/tgwaffles/positionaldiscord/AudioForwarder.java:377-382 | returns the FIFO head of the listener's output queue, or nothing when it is empty, and changes no other queue |
| Forwarding.UpdateQueue.constructor | src/main/java/me/tgwaffles/positionaldiscord/AudioForwarder.java:430-437 | caches whether the output queue exists and the listener's UUID if the account is linked |
| Forwarding.UpdateQueue.Run | src/main/java/me/tgwaffles/positionaldiscord/AudioForwarder.java:439-525 | see the paragraph after this table |
| Forwarding.UpdateQueue.Tick | src/main/java/me/tgwaffles/positionaldiscord/AudioForwarder.java:455-523 | past the guards, the input queues and the memory become those of `GatherAll`, and the output queue gains `Mixed` of the collected frames exactly when one was collected. The input queues stay well formed; a fresh memory stays fresh and only moves forward, and so does every other listener's fresh memory |
| Forwarding.UpdateQueue.Collect | src/main/java/me/tgwaffles/positionaldiscord/AudioForwarder.java:455-484 | the loop over the nearby players leaves the input queues, the memory and the collected list exactly as `GatherAll` gives them |
| Positional.Radio | src/main/java/me/tgwaffles/positionaldiscord/PositionalDiscord.java:133-225 | no other player's channel changes. Other players' locks are neither changed nor added. A player never moves into a channel locked by someone else, and joining such a channel changes nothing and gives true. Only `Lock` touches locks, and `Lock` never touches channels. `Lock` locks the player's free channel to the player, releases the player's own lock on it, and leaves someone else's lock alone. `List` and `Reload` change nothing and give true. The result is false exactly for leaving or locking without a channel, a non-number and too many arguments, and then nothing changes |
| Positional.LeaveLeaves | src/main/java/me/tgwaffles/positionaldiscord/PositionalDiscord.java:135-144 | after leaving, the player has no channel; the result says whether one existed |
| Positional.JoinJoins | src/main/java/me/tgwaffles/positionaldiscord/PositionalDiscord.java:197-220 | joining a channel not locked by someone else puts the player there, sharing a channel with exactly its members |
| Positional.LockTwice | src/main/java/me/tgwaffles/positionaldiscord/PositionalDiscord.java:170-196 | locking a channel that is free or locked by the player changes the lock map, and locking twice gives back the starting state |
| Positional.Volume | src/main/java/me/tgwaffles/positionaldiscord/PositionalDiscord.java:227-255 | a volume is stored only for an online target with a number in 0..100. Every other pair keeps its volume. The listener's inner map appears once the target is online. Volumes stay in 0..100. The result is false exactly for a wrong argument count or a non-number |
| Positional.VolumePercent | src/main/java/me/tgwaffles/positionaldiscord/PositionalDiscord.java:257-268 | the stored percent when the listener has one for the target, otherwise 100; in 0..100 when all stored volumes are |
| Positional.VolumeReadsBack | src/main/java/me/tgwaffles/positionaldiscord/PositionalDiscord.java:251 | after storing `v` for a target, the lookup for that pair gives `v` and every other pair reads as before |
| Positional.CheckSharedChannels | src/main/java/me/tgwaffles/positionaldiscord/PositionalDiscord.java:311-318 | true if and only if both players have a channel and it is the same one |
| Positional.WorldPlayers | src/main/java/me/tgwaffles/positionaldiscord/PositionalDiscord.java:295-299 | exactly the players among the nearby entities, no more elements than entities |
| Positional.WorldPlayersAppend | src/main/java/me/tgwaffles/positionaldiscord/PositionalDiscord.java:295-299 | the filter keeps the entities' order: the players of two runs are those of the first followed by those of the second, and one entity gives its UUID exactly when it is a player |
| Positional.PositionalDiscord.constructor | src/main/java/me/tgwaffles/positionaldiscord/PositionalDiscord.java:32-34 | the three maps start empty |
| Positional.PositionalDiscord.HandleChannelCommand | src/main/java/me/tgwaffles/positionaldiscord/PositionalDiscord.java:133-225 | the channel and lock maps and the result are `Radio` of the old maps, so the command has every effect `Radio` states, including what `Lock` does, that a locked join stays put and that `List` and `Reload` change nothing; volumes are untouched |
| Positional.PositionalDiscord.HandleVolumeCommand | src/main/java/me/tgwaffles/positionaldiscord/PositionalDiscord.java:227-255 | the volume maps and the result are `Volume` of the old maps; channels and locks are untouched |
| Positional.PositionalDiscord.GetPlayersInChannel | src/main/java/me/tgwaffles/positionaldiscord/PositionalDiscord.java:80-91 | exactly the online players whose stored channel is the given one, each once |
| Positional.PositionalDiscord.GetNearbyPlayers | src/main/java/me/tgwaffles/positionaldiscord/PositionalDiscord.java:293-309 | the world's nearby players in order come first. Then come online channel mates of the caller, each once, never the caller and never already listed. Every online channel mate of the caller is in the list |

What `Forwarding.UpdateQueue.Run` states:

- **First tick without the cached queue.** The task only picks up the queue and returns.
- **A failing guard leaves everything unchanged.** The guards are checked in source order:
  - the output queue is missing, or holds more than ten frames;
  - the listener is not online;
  - the listener has no neighbour list.
- **Otherwise:**
  - the input queues and the memory are those of `GatherAll`;
  - the output queue gains `Mixed` of the collected frames, exactly when a frame was collected.
- **Bounds on the output queue:**
  - it grows by at most one frame per tick;
  - if it holds at most 11 frames, it still does afterwards;
  - the input queues stay well formed, and a fresh memory stays fresh and only moves forward;
  - the memory of every other listener that was fresh for the input queues stays fresh.

## Findings

| source | as written | input that shows it | evidently intended | confidence | as-written member | corrected member |
|---|---|---|---|---|---|---|
| src/main/java/me/tgwaffles/positionaldiscord/AudioForwarder.java:219-222 | `enterAfterRegistered` puts both directions without checking either side. The check at line 195 runs when a code is issued, not when it is redeemed | issue codes for player P to accounts "first" and "second" (both pass line 195), then redeem both: "first" still maps to P, but P maps to "second" | link only when neither side is already linked, so the two maps stay inverse | medium, not executed (the in-game redemption of a code is not part of this model) | Registry.EnterAsWrittenBreaksInverse | Registry.Enter |
| src/main/java/me/tgwaffles/positionaldiscord/AudioForwarder.java:231-245 | `deRegister` removes the player from `uuidsToIds` (line 236) before calling `onMinecraftDisconnect` (line 243), which then returns at once (line 135) | a linked player whose account has a live session in a guild deregisters: both queues of the account remain | close the player's sessions while the account is still known, then remove the link | high, not executed | Forwarding.DeRegisterAsWrittenMissesSession | Forwarding.DeRegisterQueues |

## Left out

- Discord and JDA plumbing is left out: `onGuildMessageReceived`, `onGuildVoiceUpdate`, `searchForAndConnectTo`, `onStatusChange`, `openAudioConnection`, channel creation and chat replies. These are network callbacks.
  - The receiving handler of each guild appears only as the `receivers` map.
  - `onMinecraftJoin`, called at the end of `enterAfterRegistered`, is left out for the same reason.
- `loadFile` and `saveFile` are left out: they are Java object serialization. The constructor takes the loaded account map as a parameter.
  - `Registry.PutInverse` leaves open the order in which the map is iterated.
- `registerUser` is left out: it makes a random six-digit code and sends chat replies. Only its check that neither side is linked (line 195) is used, in `Registry.Enter`.
- Timers, threads and the concurrent collections are left out. Each `Run`, `HandleUserAudio` and command is one atomic step.
  - `handler.close()` cancels the task's timer, which `CloseGuild` does not model.
  - The neighbour refresh (`BukkitRunnable`) is replaced by the `nearbyPlayers` parameter.
- `getAngularVolume`, `setTotalSamples` and the exact `(int) (short * double)` truncation are left out: they are floating point. The weighting is an opaque integer function per channel.
- World and server lookups, messages, jingles, `announcePlayerInChannel`, `configReload`, `onEnable`, `onDisable` and `onCommand` dispatch are left out.
  - `Integer.parseInt` and `equalsIgnoreCase` are replaced by the command datatypes.
  - `getVolumeFor` returns the percent rather than `percent / 100` as a `double`.
- Forwarding.UpdateQueue.Run: the cached output queue is modelled as the listener's map entry.
  - When that entry is missing, the tick does nothing.
  - In the source, a task keeps using the queue it cached. If a later `connectTo` replaced that entry, the source keeps writing to the orphaned queue, while the model writes to the new one.
- Forwarding.UpdateQueue.Run: an unlinked listener, whose UUID is `null` in the source, is treated as not online.
- Forwarding.AudioHandler.HandleUserAudio: requires each received frame to be at most 3840 bytes. JDA delivers 20 ms frames of exactly that size, and `run` (line 520) would index past its buffer with a longer one.
- Forwarding.AudioHandler.Provide20MsAudio: requires the listener's output queue to exist. The source would throw a `NullPointerException` for a missing one.
- Mixing.MixFrames: requires a non-empty list of frames of at most 3840 bytes each.
  - `run` calls it only after `!combining.isEmpty()` (line 485).
  - Every collected frame comes from a well-formed input queue.
- Forwarding.Forwarder.EnterAfterRegistered: follows the correction of the first Findings row and links only when both sides are free. The unconditional puts of lines 219-222 of `AudioForwarder.java` are `Registry.EnterAsWritten`; a second redemption for the same player overwrites the player's entry there and changes nothing here.
- Forwarding.Forwarder.DeRegister: follows the correction of the second Findings row and closes the player's sessions before unlinking. As written, lines 236-243 unlink first and the disconnect does nothing, so the queues stay; that order is `Forwarding.DeRegisterQueuesAsWritten`.
- The `lastKnownBytesMap` check compares frame ids rather than references. The ids are issued from one counter, so the two agree.
