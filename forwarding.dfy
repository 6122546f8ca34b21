/**
 * The audio forwarder: the shared registry and queue maps, the per-guild
 * audio handler that feeds speakers' input queues and drains a listener's
 * output queue, and the per-listener tick that mixes nearby speakers into
 * that output queue.
 */
module Forwarding {
  import opened Wrappers
  import opened Pcm
  import opened Mixing
  import opened Queues
  import opened Registry
  import opened Gathering

  /** A Discord guild id. */
  type GuildId = string

  /** A listener's queue of mixed frames, oldest first. */
  type OutputQueue = seq<seq<Byte>>

  /**
   * `onMinecraftDisconnect` on one queue map: `closeGuild` for every guild
   * whose receiving handler serves the player's Discord account, each of
   * which removes that account's entry. A player without an account, or an
   * account without a session, changes nothing.
   */
  function DisconnectQueues<Q>(uuidsToIds: map<Uuid, DiscordId>, receivers: map<GuildId, DiscordId>,
                               queues: map<DiscordId, Q>, uuid: Uuid): (r: map<DiscordId, Q>)
    ensures r.Keys <= queues.Keys
    ensures forall d | d in r :: r[d] == queues[d]
    ensures forall d | d in queues && (uuid !in uuidsToIds || d != uuidsToIds[uuid]) :: d in r
    ensures uuid in uuidsToIds && uuidsToIds[uuid] in receivers.Values ==> uuidsToIds[uuid] !in r
    ensures uuid !in uuidsToIds || uuidsToIds[uuid] !in receivers.Values ==> r == queues
  {
    if uuid !in uuidsToIds then queues
    else
      var discordUserId := uuidsToIds[uuid];
      if discordUserId in receivers.Values then queues - {discordUserId} else queues
  }

  /**
   * `deRegister` on one queue map as written: the player's links are
   * removed first, so the disconnect that follows finds no account.
   */
  function DeRegisterQueuesAsWritten<Q>(l: Links, receivers: map<GuildId, DiscordId>,
                                        queues: map<DiscordId, Q>, uuid: Uuid): map<DiscordId, Q>
  {
    DisconnectQueues(Registry.DeRegister(l, uuid).0.uuidsToIds, receivers, queues, uuid)
  }

  /** As written, deregistering never closes a session. */
  lemma DeRegisterAsWrittenKeepsSessions<Q>(l: Links, receivers: map<GuildId, DiscordId>,
                                            queues: map<DiscordId, Q>, uuid: Uuid)
    ensures DeRegisterQueuesAsWritten(l, receivers, queues, uuid) == queues
  {
    assert uuid !in Registry.DeRegister(l, uuid).0.uuidsToIds;
  }

  /**
   * A linked player in a live session: as written both queues survive
   * deregistration, while disconnecting before unlinking removes them.
   */
  lemma DeRegisterAsWrittenMissesSession()
    ensures var player := Uuid(0, 1);
      var l := Links(map["account" := player], map[player := "account"]);
      var receivers := map["guild" := "account"];
      var queues: map<DiscordId, OutputQueue> := map["account" := []];
      && "account" in DeRegisterQueuesAsWritten(l, receivers, queues, player)
      && "account" !in DeRegisterQueues(l, receivers, queues, player)
  {
    var player := Uuid(0, 1);
    var l := Links(map["account" := player], map[player := "account"]);
    var receivers := map["guild" := "account"];
    var queues: map<DiscordId, OutputQueue> := map["account" := []];
    DeRegisterAsWrittenKeepsSessions(l, receivers, queues, player);
    assert receivers["guild"] == "account";
  }

  /**
   * `deRegister` on one queue map with the disconnect done while the
   * player is still linked: the account's sessions are closed.
   */
  function DeRegisterQueues<Q>(l: Links, receivers: map<GuildId, DiscordId>,
                               queues: map<DiscordId, Q>, uuid: Uuid): (r: map<DiscordId, Q>)
    ensures uuid in l.uuidsToIds && l.uuidsToIds[uuid] in receivers.Values ==> l.uuidsToIds[uuid] !in r
    ensures forall d | d in queues && (uuid !in l.uuidsToIds || d != l.uuidsToIds[uuid]) :: d in r && r[d] == queues[d]
  {
    DisconnectQueues(l.uuidsToIds, receivers, queues, uuid)
  }

  /** The shared state of the forwarder. */
  class Forwarder {
    var idsToUuids: map<DiscordId, Uuid>
    var uuidsToIds: map<Uuid, DiscordId>
    var inputQueues: map<DiscordId, seq<Frame>>
    var outputQueues: map<DiscordId, OutputQueue>
    /** The user served by each guild's receiving handler. */
    var receivers: map<GuildId, DiscordId>
    /** The identity the next received frame gets: each one is a new array. */
    var nextFrameId: nat

    predicate Valid()
      reads this
    {
      WellFormed(inputQueues, nextFrameId)
    }

    function IdLinks(): Links
      reads this
    {
      Links(idsToUuids, uuidsToIds)
    }

    /**
     * Start from the loaded `idsToUUIDs` (empty when nothing was stored),
     * rebuilding `uuidsToIds` from it.
     */
    constructor (loaded: map<DiscordId, Uuid>)
      ensures Valid()
      ensures idsToUuids == loaded && uuidsToIds.Keys == loaded.Values
      ensures forall u | u in uuidsToIds :: uuidsToIds[u] in loaded && loaded[uuidsToIds[u]] == u
      ensures Injective(loaded) ==> MutualInverse(IdLinks())
      ensures inputQueues == map[] && outputQueues == map[] && receivers == map[]
    {
      var inverse := PutInverse(map[], loaded);
      idsToUuids := loaded;
      uuidsToIds := inverse;
      inputQueues := map[];
      outputQueues := map[];
      receivers := map[];
      nextFrameId := 0;
    }

    /**
     * `connectTo`: fresh, empty input and output queues for the caller
     * (replacing any it had) and a new handler for the guild.
     */
    method ConnectTo(guild: GuildId, callerId: DiscordId) returns (handler: AudioHandler)
      requires Valid()
      modifies this
      ensures Valid()
      ensures inputQueues == old(inputQueues)[callerId := []]
      ensures outputQueues == old(outputQueues)[callerId := []]
      ensures receivers == old(receivers)[guild := callerId]
      ensures idsToUuids == old(idsToUuids) && uuidsToIds == old(uuidsToIds) && nextFrameId == old(nextFrameId)
      ensures fresh(handler) && fresh(handler.task)
      ensures handler.forwarder == this && handler.receiveUserId == callerId
      ensures handler.task.forwarder == this && handler.task.outputUserId == callerId
      ensures handler.task.hasOutputQueue && handler.task.lastKnown == map[]
      ensures handler.task.outputUserUuid == if callerId in idsToUuids then Some(idsToUuids[callerId]) else None
    {
      inputQueues := inputQueues[callerId := []];
      outputQueues := outputQueues[callerId := []];
      handler := new AudioHandler(this, callerId);
      receivers := receivers[guild := callerId];
    }

    /** `closeGuild`: both queues of the guild's receiving user are removed. */
    method CloseGuild(guild: GuildId)
      requires Valid()
      modifies this
      ensures Valid()
      ensures guild in receivers ==>
        inputQueues == old(inputQueues) - {receivers[guild]} && outputQueues == old(outputQueues) - {receivers[guild]}
      ensures guild !in receivers ==> inputQueues == old(inputQueues) && outputQueues == old(outputQueues)
      ensures idsToUuids == old(idsToUuids) && uuidsToIds == old(uuidsToIds)
      ensures receivers == old(receivers) && nextFrameId == old(nextFrameId)
    {
      if guild in receivers {
        var handlerId := receivers[guild];
        outputQueues := outputQueues - {handlerId};
        inputQueues := inputQueues - {handlerId};
      }
    }

    /** `onMinecraftDisconnect`: close every guild serving the player's account. */
    method OnMinecraftDisconnect(uuid: Uuid)
      requires Valid()
      modifies this
      ensures Valid()
      ensures inputQueues == DisconnectQueues(old(uuidsToIds), old(receivers), old(inputQueues), uuid)
      ensures outputQueues == DisconnectQueues(old(uuidsToIds), old(receivers), old(outputQueues), uuid)
      ensures idsToUuids == old(idsToUuids) && uuidsToIds == old(uuidsToIds)
      ensures receivers == old(receivers) && nextFrameId == old(nextFrameId)
    {
      if uuid !in uuidsToIds {
        return;
      }
      var discordUserId := uuidsToIds[uuid];
      var guilds := receivers.Keys;
      ghost var found := false;
      while guilds != {}
        invariant Valid() && guilds <= receivers.Keys
        invariant idsToUuids == old(idsToUuids) && uuidsToIds == old(uuidsToIds)
        invariant receivers == old(receivers) && nextFrameId == old(nextFrameId)
        invariant found <==> exists g | g in receivers && g !in guilds :: receivers[g] == discordUserId
        invariant inputQueues == if found then old(inputQueues) - {discordUserId} else old(inputQueues)
        invariant outputQueues == if found then old(outputQueues) - {discordUserId} else old(outputQueues)
        decreases guilds
      {
        var guild :| guild in guilds;
        if receivers[guild] == discordUserId {
          CloseGuild(guild);
          found := true;
        }
        guilds := guilds - {guild};
      }
      assert found <==> discordUserId in receivers.Values;
    }

    /**
     * `enterAfterRegistered`, entering the link only when neither side is
     * taken (see `Registry.Enter`).
     */
    method EnterAfterRegistered(data: RegistrationData)
      modifies this
      ensures IdLinks() == Enter(old(IdLinks()), data)
      ensures old(MutualInverse(IdLinks())) ==> MutualInverse(IdLinks())
      ensures inputQueues == old(inputQueues) && outputQueues == old(outputQueues)
      ensures receivers == old(receivers) && nextFrameId == old(nextFrameId)
    {
      if data.discordId !in idsToUuids && data.playerUuid !in uuidsToIds {
        uuidsToIds := uuidsToIds[data.playerUuid := data.discordId];
        idsToUuids := idsToUuids[data.discordId := data.playerUuid];
      }
    }

    /**
     * `deRegister`, closing the player's sessions while the account is
     * still known, then removing both directions of the link.
     */
    method DeRegister(uuid: Uuid) returns (found: bool)
      requires Valid()
      modifies this
      ensures Valid()
      ensures (IdLinks(), found) == Registry.DeRegister(old(IdLinks()), uuid)
      ensures inputQueues == DeRegisterQueues(old(IdLinks()), old(receivers), old(inputQueues), uuid)
      ensures outputQueues == DeRegisterQueues(old(IdLinks()), old(receivers), old(outputQueues), uuid)
      ensures receivers == old(receivers) && nextFrameId == old(nextFrameId)
    {
      if uuid !in uuidsToIds {
        return false;
      }
      OnMinecraftDisconnect(uuid);
      var discordId := uuidsToIds[uuid];
      uuidsToIds := uuidsToIds - {uuid};
      idsToUuids := idsToUuids - {discordId};
      found := true;
    }
  }

  /** The sending and receiving handler of one guild's audio connection. */
  class AudioHandler {
    const forwarder: Forwarder
    const receiveUserId: DiscordId
    const task: UpdateQueue

    constructor (caller: Forwarder, callerId: DiscordId)
      ensures forwarder == caller && receiveUserId == callerId && fresh(task)
      ensures task.forwarder == caller && task.outputUserId == callerId
      ensures task.hasOutputQueue == (callerId in caller.outputQueues) && task.lastKnown == map[]
      ensures task.outputUserUuid == if callerId in caller.idsToUuids then Some(caller.idsToUuids[callerId]) else None
    {
      forwarder := caller;
      receiveUserId := callerId;
      task := new UpdateQueue(caller, callerId);
    }

    /**
     * `handleUserAudio`: a user without an input queue is ignored; otherwise
     * the frame, a new array, is admitted by the queue policy.
     */
    method HandleUserAudio(userId: DiscordId, data: seq<Byte>)
      requires forwarder.Valid() && |data| <= FrameSize
      modifies forwarder`inputQueues, forwarder`nextFrameId
      ensures forwarder.Valid()
      ensures userId !in old(forwarder.inputQueues) ==>
        forwarder.inputQueues == old(forwarder.inputQueues) && forwarder.nextFrameId == old(forwarder.nextFrameId)
      ensures userId in old(forwarder.inputQueues) ==>
        && forwarder.inputQueues == old(forwarder.inputQueues)[userId :=
             Admit(old(forwarder.inputQueues[userId]), Frame(old(forwarder.nextFrameId), data))]
        && forwarder.nextFrameId == old(forwarder.nextFrameId) +
             (if |old(forwarder.inputQueues[userId])| < InputCapacity then 1 else 0)
      ensures forwarder.outputQueues == old(forwarder.outputQueues) && forwarder.receivers == old(forwarder.receivers)
      ensures forwarder.idsToUuids == old(forwarder.idsToUuids) && forwarder.uuidsToIds == old(forwarder.uuidsToIds)
    {
      if userId !in forwarder.inputQueues {
        return;
      }
      var inputQueue := forwarder.inputQueues[userId];
      ghost var next := forwarder.nextFrameId;
      AdmitKeeps(forwarder.inputQueues, map[], next, userId, data);
      if |inputQueue| < InputCapacity {
        inputQueue := inputQueue + [Frame(forwarder.nextFrameId, data)];
        forwarder.nextFrameId := forwarder.nextFrameId + 1;
      }
      if |inputQueue| > InputKeep {
        inputQueue := inputQueue[1..];
      }
      assert inputQueue == Admit(forwarder.inputQueues[userId], Frame(next, data));
      forwarder.inputQueues := forwarder.inputQueues[userId := inputQueue];
    }

    /** `canProvide`: whether the listener's output queue exists and holds a frame. */
    method CanProvide() returns (b: bool)
      ensures b <==> receiveUserId in forwarder.outputQueues && forwarder.outputQueues[receiveUserId] != []
    {
      if receiveUserId !in forwarder.outputQueues {
        return false;
      }
      b := forwarder.outputQueues[receiveUserId] != [];
    }

    /** `provide20MsAudio`: poll the listener's output queue. */
    method Provide20MsAudio() returns (data: Option<seq<Byte>>)
      requires receiveUserId in forwarder.outputQueues
      modifies forwarder
      ensures receiveUserId in forwarder.outputQueues
      ensures (data, forwarder.outputQueues[receiveUserId]) == Poll(old(forwarder.outputQueues[receiveUserId]))
      ensures forwarder.outputQueues - {receiveUserId} == old(forwarder.outputQueues) - {receiveUserId}
      ensures forwarder.inputQueues == old(forwarder.inputQueues) && forwarder.nextFrameId == old(forwarder.nextFrameId)
      ensures forwarder.receivers == old(forwarder.receivers)
      ensures forwarder.idsToUuids == old(forwarder.idsToUuids) && forwarder.uuidsToIds == old(forwarder.uuidsToIds)
    {
      var outputQueue := forwarder.outputQueues[receiveUserId];
      if outputQueue == [] {
        data := None;
      } else {
        data := Some(outputQueue[0]);
        forwarder.outputQueues := forwarder.outputQueues[receiveUserId := outputQueue[1..]];
      }
    }
  }

  /** The timer task of one listener: one call of `Run` is one 20 ms tick. */
  class UpdateQueue {
    const forwarder: Forwarder
    const outputUserId: DiscordId
    const outputUserUuid: Option<Uuid>
    /** Whether the task holds the listener's output queue. */
    var hasOutputQueue: bool
    /** The identity of the frame last mixed from each speaker. */
    var lastKnown: map<DiscordId, nat>

    constructor (caller: Forwarder, userId: DiscordId)
      ensures forwarder == caller && outputUserId == userId
      ensures hasOutputQueue == (userId in caller.outputQueues) && lastKnown == map[]
      ensures outputUserUuid == if userId in caller.idsToUuids then Some(caller.idsToUuids[userId]) else None
    {
      forwarder := caller;
      outputUserId := userId;
      hasOutputQueue := userId in caller.outputQueues;
      outputUserUuid := if userId in caller.idsToUuids then Some(caller.idsToUuids[userId]) else None;
      lastKnown := map[];
    }

    /**
     * The guards of a tick, in order: the listener's output queue is there
     * and holds at most ten frames, the listener is online, and the nearby
     * players of the listener are known.
     */
    predicate Ready(online: set<Uuid>, nearbyPlayers: map<Uuid, seq<Uuid>>)
      reads this, forwarder
    {
      && outputUserId in forwarder.outputQueues
      && |forwarder.outputQueues[outputUserId]| <= OutputLimit
      && outputUserUuid.Some? && outputUserUuid.value in online
      && outputUserUuid.value in nearbyPlayers
    }

    /**
     * `run`: when the guards pass, collect one frame per nearby speaker, mix
     * them and append the mixed frame to the listener's output queue.
     * `online` is the server's player list, `nearbyPlayers` the plugin's
     * neighbour map and `gain` the listener's weighting of each speaker.
     */
    method Run(online: set<Uuid>, nearbyPlayers: map<Uuid, seq<Uuid>>, gain: Uuid -> StereoGain)
      requires forwarder.Valid()
      modifies this`hasOutputQueue, this`lastKnown, forwarder`inputQueues, forwarder`outputQueues
      ensures forwarder.Valid()
      ensures forwarder.idsToUuids == old(forwarder.idsToUuids) && forwarder.uuidsToIds == old(forwarder.uuidsToIds)
      ensures forwarder.receivers == old(forwarder.receivers) && forwarder.nextFrameId == old(forwarder.nextFrameId)
      ensures !old(hasOutputQueue) ==> hasOutputQueue == (outputUserId in old(forwarder.outputQueues))
      ensures old(hasOutputQueue) ==> hasOutputQueue
      ensures !(old(hasOutputQueue) && old(Ready(online, nearbyPlayers))) ==>
        && forwarder.inputQueues == old(forwarder.inputQueues)
        && forwarder.outputQueues == old(forwarder.outputQueues)
        && lastKnown == old(lastKnown)
      ensures old(hasOutputQueue) && old(Ready(online, nearbyPlayers)) ==>
        var g := GatherAll(Gather(old(forwarder.inputQueues), old(lastKnown), []),
                           old(forwarder.uuidsToIds), nearbyPlayers[outputUserUuid.value], gain);
        && forwarder.inputQueues == g.inputQueues
        && lastKnown == g.lastKnown
        && forwarder.outputQueues == old(forwarder.outputQueues)[outputUserId :=
             old(forwarder.outputQueues[outputUserId]) + (if g.combining == [] then [] else [Mixed(g.combining)])]
      ensures outputUserId in old(forwarder.outputQueues) ==>
        && outputUserId in forwarder.outputQueues
        && |forwarder.outputQueues[outputUserId]| <= |old(forwarder.outputQueues[outputUserId])| + 1
        && (|old(forwarder.outputQueues[outputUserId])| <= OutputLimit + 1 ==>
              |forwarder.outputQueues[outputUserId]| <= OutputLimit + 1)
      ensures old(Fresh(lastKnown, forwarder.inputQueues) && Behind(lastKnown, forwarder.nextFrameId)) ==>
        && Fresh(lastKnown, forwarder.inputQueues) && Behind(lastKnown, forwarder.nextFrameId)
        && forall d | d in old(lastKnown) :: d in lastKnown && old(lastKnown[d]) <= lastKnown[d]
      // Any other listener's memory that was fresh for the shared queues stays fresh.
      ensures forall other: map<DiscordId, nat> | Fresh(other, old(forwarder.inputQueues)) ::
        Fresh(other, forwarder.inputQueues)
    {
      if !hasOutputQueue {
        hasOutputQueue := outputUserId in forwarder.outputQueues;
        return;
      }
      if outputUserId !in forwarder.outputQueues {
        return;
      }
      if |forwarder.outputQueues[outputUserId]| > OutputLimit {
        return;
      }
      if outputUserUuid.None? || outputUserUuid.value !in online {
        return;
      }
      var player := outputUserUuid.value;
      if player !in nearbyPlayers {
        return;
      }
      Tick(nearbyPlayers[player], gain);
    }

    /**
     * The part of `run` past its guards: collect the nearby speakers'
     * frames and, if any was collected, append their mix to the output queue.
     */
    method Tick(nearby: seq<Uuid>, gain: Uuid -> StereoGain)
      requires forwarder.Valid() && outputUserId in forwarder.outputQueues
      modifies this`lastKnown, forwarder`inputQueues, forwarder`outputQueues
      ensures forwarder.Valid()
      ensures var g := GatherAll(Gather(old(forwarder.inputQueues), old(lastKnown), []), forwarder.uuidsToIds, nearby, gain);
        && forwarder.inputQueues == g.inputQueues
        && lastKnown == g.lastKnown
        && forwarder.outputQueues == old(forwarder.outputQueues)[outputUserId :=
             old(forwarder.outputQueues[outputUserId]) + (if g.combining == [] then [] else [Mixed(g.combining)])]
      ensures old(Fresh(lastKnown, forwarder.inputQueues) && Behind(lastKnown, forwarder.nextFrameId)) ==>
        && Fresh(lastKnown, forwarder.inputQueues) && Behind(lastKnown, forwarder.nextFrameId)
        && forall d | d in old(lastKnown) :: d in lastKnown && old(lastKnown[d]) <= lastKnown[d]
      // Any other listener's memory that was fresh for the shared queues stays fresh.
      ensures forall other: map<DiscordId, nat> | Fresh(other, old(forwarder.inputQueues)) ::
        Fresh(other, forwarder.inputQueues)
    {
      ghost var start := Gather(forwarder.inputQueues, lastKnown, []);
      var combining := Collect(nearby, gain);
      GatherAllKeepsQueues(start, forwarder.uuidsToIds, nearby, gain, forwarder.nextFrameId);
      forall other: map<DiscordId, nat> | Fresh(other, start.inputQueues)
        ensures Fresh(other, forwarder.inputQueues)
      {
        GatherAllKeepsOthersFresh(start, forwarder.uuidsToIds, nearby, gain, forwarder.nextFrameId, other);
      }
      if Fresh(start.lastKnown, start.inputQueues) && Behind(start.lastKnown, forwarder.nextFrameId) {
        GatherAllKeepsMemory(start, forwarder.uuidsToIds, nearby, gain, forwarder.nextFrameId);
      }
      var outputQueue := forwarder.outputQueues[outputUserId];
      if combining != [] {
        var combinedData := MixFrames(combining);
        forwarder.outputQueues := forwarder.outputQueues[outputUserId := outputQueue + [combinedData]];
      } else {
        assert outputQueue + [] == outputQueue;
      }
    }

    /** The collection loop of `run`, over the nearby players in order. */
    method Collect(nearby: seq<Uuid>, gain: Uuid -> StereoGain) returns (combining: seq<Contributor>)
      modifies this`lastKnown, forwarder`inputQueues
      ensures Gather(forwarder.inputQueues, lastKnown, combining)
           == GatherAll(Gather(old(forwarder.inputQueues), old(lastKnown), []), forwarder.uuidsToIds, nearby, gain)
    {
      ghost var start := Gather(forwarder.inputQueues, lastKnown, []);
      combining := [];
      var j := 0;
      while j < |nearby|
        invariant 0 <= j <= |nearby|
        invariant Gather(forwarder.inputQueues, lastKnown, combining) == GatherAll(start, forwarder.uuidsToIds, nearby[..j], gain)
      {
        ghost var before := Gather(forwarder.inputQueues, lastKnown, combining);
        var nearbyPlayer := nearby[j];
        if nearbyPlayer in forwarder.uuidsToIds {
          var discordId := forwarder.uuidsToIds[nearbyPlayer];
          if discordId in forwarder.inputQueues && forwarder.inputQueues[discordId] != [] {
            var otherUserQueue := forwarder.inputQueues[discordId];
            var data := otherUserQueue[0];
            var collect := true;
            if discordId in lastKnown && lastKnown[discordId] == data.id {
              otherUserQueue := otherUserQueue[1..];
              forwarder.inputQueues := forwarder.inputQueues[discordId := otherUserQueue];
              if otherUserQueue == [] {
                collect := false;
              } else {
                data := otherUserQueue[0];
              }
            }
            if collect {
              lastKnown := lastKnown[discordId := data.id];
              combining := combining + [Contributor(data, gain(nearbyPlayer))];
            }
          }
        }
        assert Gather(forwarder.inputQueues, lastKnown, combining)
            == GatherStep(before, forwarder.uuidsToIds, nearbyPlayer, gain(nearbyPlayer));
        assert nearby[..j + 1][..j] == nearby[..j];
        j := j + 1;
      }
      assert nearby[..j] == nearby;
    }
  }
}
