/**
 * The plugin's channel, lock and volume bookkeeping: the `/radio` and
 * `/volume` commands on the three maps, the lookups the mixer's weighting
 * uses, and the neighbour list a listener hears.
 */
module Positional {
  import opened Wrappers
  import opened Registry

  /** `/radio` with its arguments already read: no argument, a keyword, a channel number. */
  datatype RadioCommand =
    | Leave
    | List
    | Reload
    | Lock
    | Join(channel: int)
    | NotANumber
    | TooManyArgs

  /**
   * `/volume <player> <value>`: a wrong argument count, or the named player
   * if online and the value if it is a number.
   */
  datatype VolumeCommand =
    | WrongArgCount
    | SetVolume(target: Option<Uuid>, volume: Option<int>)

  /** `playerChannels` and `lockedChannels`. */
  datatype Channels = Channels(playerChannels: map<Uuid, int>, lockedChannels: map<int, Uuid>)

  /** The listener's volume percent for one target, per listener. */
  type Volumes = map<Uuid, map<Uuid, int>>

  /** Locked by a player other than `player`. */
  predicate LockedAgainst(s: Channels, channel: int, player: Uuid) {
    channel in s.lockedChannels && s.lockedChannels[channel] != player
  }

  /**
   * `handleChannelCommand` on the two maps, with its result. Leaving needs a
   * channel; locking needs a channel and toggles a lock the player holds,
   * takes a free one and leaves another player's lock alone; joining stays
   * put for the current channel or a channel locked by someone else.
   */
  function Radio(s: Channels, player: Uuid, cmd: RadioCommand): (r: (Channels, bool))
    ensures forall q | q != player ::
      (q in r.0.playerChannels <==> q in s.playerChannels)
      && (q in s.playerChannels ==> r.0.playerChannels[q] == s.playerChannels[q])
    ensures forall c | c in s.lockedChannels && s.lockedChannels[c] != player ::
      c in r.0.lockedChannels && r.0.lockedChannels[c] == s.lockedChannels[c]
    ensures forall c | c in r.0.lockedChannels && r.0.lockedChannels[c] != player ::
      c in s.lockedChannels && s.lockedChannels[c] == r.0.lockedChannels[c]
    ensures player in r.0.playerChannels && (player !in s.playerChannels || r.0.playerChannels[player] != s.playerChannels[player]) ==>
      !LockedAgainst(s, r.0.playerChannels[player], player)
    ensures !cmd.Lock? ==> r.0.lockedChannels == s.lockedChannels
    ensures cmd.Lock? ==> r.0.playerChannels == s.playerChannels
    ensures cmd.Lock? && player in s.playerChannels ==>
      var c := s.playerChannels[player];
      r.0.lockedChannels ==
        if c !in s.lockedChannels then s.lockedChannels[c := player]
        else if s.lockedChannels[c] == player then s.lockedChannels - {c}
        else s.lockedChannels
    ensures cmd.Join? && LockedAgainst(s, cmd.channel, player) ==> r == (s, true)
    ensures cmd.List? || cmd.Reload? ==> r == (s, true)
    ensures !r.1 <==> ((cmd.Leave? || cmd.Lock?) && player !in s.playerChannels) || cmd.NotANumber? || cmd.TooManyArgs?
    ensures !r.1 ==> r.0 == s
  {
    match cmd
    case Leave =>
      if player in s.playerChannels then (s.(playerChannels := s.playerChannels - {player}), true)
      else (s, false)
    case List => (s, true)
    case Reload => (s, true)
    case Lock =>
      if player !in s.playerChannels then (s, false)
      else
        var channelId := s.playerChannels[player];
        if channelId in s.lockedChannels then
          if s.lockedChannels[channelId] != player then (s, true)
          else (s.(lockedChannels := s.lockedChannels - {channelId}), true)
        else (s.(lockedChannels := s.lockedChannels[channelId := player]), true)
    case Join(newChannel) =>
      if player in s.playerChannels && s.playerChannels[player] == newChannel then (s, true)
      else if LockedAgainst(s, newChannel, player) then (s, true)
      else (s.(playerChannels := s.playerChannels[player := newChannel]), true)
    case NotANumber => (s, false)
    case TooManyArgs => (s, false)
  }

  /** Leaving a channel takes the player out of it. */
  lemma LeaveLeaves(s: Channels, player: Uuid)
    ensures player !in Radio(s, player, Leave).0.playerChannels
    ensures Radio(s, player, Leave).1 <==> player in s.playerChannels
  {
  }

  /**
   * Joining a channel not locked against the player puts the player there;
   * afterwards the player shares a channel with exactly its members.
   */
  lemma JoinJoins(s: Channels, player: Uuid, n: int)
    requires !LockedAgainst(s, n, player)
    ensures var r := Radio(s, player, Join(n)).0;
      && player in r.playerChannels && r.playerChannels[player] == n
      && forall q | q != player :: CheckSharedChannels(r.playerChannels, player, q) <==> q in s.playerChannels && s.playerChannels[q] == n
  {
    var r := Radio(s, player, Join(n)).0;
    if player in s.playerChannels && s.playerChannels[player] == n {
      assert r == s;
    } else {
      assert r.playerChannels == s.playerChannels[player := n];
    }
  }

  /**
   * Locking twice gives back the state a player started from, if the lock
   * was theirs to take; the first lock alone does change the lock map.
   */
  lemma LockTwice(s: Channels, player: Uuid)
    requires player in s.playerChannels
    requires !LockedAgainst(s, s.playerChannels[player], player)
    ensures Radio(s, player, Lock).0 != s
    ensures Radio(Radio(s, player, Lock).0, player, Lock).0 == s
  {
    var c := s.playerChannels[player];
    var once := Radio(s, player, Lock).0;
    if c in s.lockedChannels {
      assert once.lockedChannels == s.lockedChannels - {c};
      assert c !in once.lockedChannels;
      assert once.lockedChannels[c := player] == s.lockedChannels;
    } else {
      assert once.lockedChannels == s.lockedChannels[c := player];
      assert c in once.lockedChannels;
      assert once.lockedChannels - {c} == s.lockedChannels;
    }
  }

  /** The volume stored for one pair, if any. */
  function Stored(volumes: Volumes, player: Uuid, target: Uuid): Option<int> {
    if player in volumes && target in volumes[player] then Some(volumes[player][target]) else None
  }

  predicate InRange(volumes: Volumes) {
    forall p, t | p in volumes && t in volumes[p] :: 0 <= volumes[p][t] <= 100
  }

  /** The command stores a volume for `target`: online, a number, and in 0..100. */
  predicate Sets(cmd: VolumeCommand, target: Uuid) {
    cmd.SetVolume? && cmd.target == Some(target) && cmd.volume.Some? && 0 <= cmd.volume.value <= 100
  }

  /**
   * `handleVolumeCommand` on the volume maps, with its result. The
   * listener's inner map is created as soon as the target is found online,
   * before the value is read.
   */
  function Volume(volumes: Volumes, player: Uuid, cmd: VolumeCommand): (r: (Volumes, bool))
    ensures forall p, t | p != player || !Sets(cmd, t) :: Stored(r.0, p, t) == Stored(volumes, p, t)
    ensures forall t | Sets(cmd, t) :: Stored(r.0, player, t) == cmd.volume
    ensures r.0.Keys == volumes.Keys + (if cmd.SetVolume? && cmd.target.Some? then {player} else {})
    ensures InRange(volumes) ==> InRange(r.0)
    ensures !r.1 <==> cmd.WrongArgCount? || (cmd.target.Some? && cmd.volume.None?)
  {
    match cmd
    case WrongArgCount => (volumes, false)
    case SetVolume(target, volume) =>
      if target.None? then (volumes, true)
      else
        var withMap := if player in volumes then volumes else volumes[player := map[]];
        if volume.None? then (withMap, false)
        else if volume.value < 0 || volume.value > 100 then (withMap, true)
        else (withMap[player := withMap[player][target.value := volume.value]], true)
  }

  /**
   * `getVolumeFor` as a percent: the stored value when the listener has one
   * for the target, 100 otherwise.
   */
  function VolumePercent(volumes: Volumes, player: Uuid, target: Uuid): (v: int)
    ensures Stored(volumes, player, target).Some? ==> v == Stored(volumes, player, target).value
    ensures Stored(volumes, player, target).None? ==> v == 100
    ensures InRange(volumes) ==> 0 <= v <= 100
  {
    if player !in volumes then 100
    else if target in volumes[player] then volumes[player][target]
    else 100
  }

  /** A stored volume is what the weighting reads back; every other pair reads as before. */
  lemma VolumeReadsBack(volumes: Volumes, player: Uuid, target: Uuid, v: int, p: Uuid, t: Uuid)
    requires 0 <= v <= 100
    ensures var r := Volume(volumes, player, SetVolume(Some(target), Some(v))).0;
      && VolumePercent(r, player, target) == v
      && ((p, t) != (player, target) ==> VolumePercent(r, p, t) == VolumePercent(volumes, p, t))
  {
    assert Sets(SetVolume(Some(target), Some(v)), target);
  }

  /** `checkSharedChannels`: both players have a channel, and it is the same one. */
  function CheckSharedChannels(playerChannels: map<Uuid, int>, a: Uuid, b: Uuid): (r: bool)
    ensures r ==> a in playerChannels && b in playerChannels
    ensures r <==> a in playerChannels && b in playerChannels && playerChannels[a] == playerChannels[b]
  {
    if a !in playerChannels || b !in playerChannels then false
    else playerChannels[a] == playerChannels[b]
  }

  /** An entity returned by the world's proximity query. */
  datatype Entity = PlayerEntity(uuid: Uuid) | OtherEntity

  /** The players among the entities, in order. */
  function WorldPlayers(es: seq<Entity>): (ps: seq<Uuid>)
    ensures |ps| <= |es|
    ensures forall p :: p in ps <==> PlayerEntity(p) in es
  {
    if es == [] then []
    else
      var last := es[|es| - 1];
      var init := WorldPlayers(es[..|es| - 1]);
      assert es == es[..|es| - 1] + [last];
      init + (if last.PlayerEntity? then [last.uuid] else [])
  }

  /**
   * The filter keeps order: the players of two runs of entities are the
   * players of the first run followed by those of the second, and one
   * entity contributes its own UUID if it is a player.
   */
  lemma {:induction false} WorldPlayersAppend(a: seq<Entity>, b: seq<Entity>)
    ensures WorldPlayers(a + b) == WorldPlayers(a) + WorldPlayers(b)
    ensures |b| == 1 ==> WorldPlayers(b) == if b[0].PlayerEntity? then [b[0].uuid] else []
    decreases |b|
  {
    if b == [] {
      assert a + b == a;
    } else {
      var init := b[..|b| - 1];
      var last := b[|b| - 1];
      assert (a + b)[..|a + b| - 1] == a + init;
      assert (a + b)[|a + b| - 1] == last;
      WorldPlayersAppend(a, init);
      if |b| == 1 {
        assert init == [];
      }
    }
  }

  predicate NoDuplicates<T(==)>(s: seq<T>) {
    forall i, j | 0 <= i < j < |s| :: s[i] != s[j]
  }

  /** The plugin object: the three maps the commands update. */
  class PositionalDiscord {
    var playerChannels: map<Uuid, int>
    var lockedChannels: map<int, Uuid>
    var playerVolumes: Volumes

    constructor ()
      ensures playerChannels == map[] && lockedChannels == map[] && playerVolumes == map[]
    {
      playerChannels := map[];
      lockedChannels := map[];
      playerVolumes := map[];
    }

    function State(): Channels
      reads this
    {
      Channels(playerChannels, lockedChannels)
    }

    /** `handleChannelCommand`, without its messages and jingles. */
    method HandleChannelCommand(player: Uuid, cmd: RadioCommand) returns (ok: bool)
      modifies this
      ensures (State(), ok) == Radio(old(State()), player, cmd)
      ensures playerVolumes == old(playerVolumes)
    {
      match cmd {
        case Leave =>
          if player in playerChannels {
            playerChannels := playerChannels - {player};
            return true;
          }
          return false;
        case List =>
          return true;
        case Reload =>
          return true;
        case Lock =>
          if player !in playerChannels {
            return false;
          }
          var channelId := playerChannels[player];
          if channelId in lockedChannels {
            if lockedChannels[channelId] != player {
              return true;
            }
            lockedChannels := lockedChannels - {channelId};
            return true;
          }
          lockedChannels := lockedChannels[channelId := player];
          return true;
        case Join(newChannel) =>
          if player in playerChannels {
            var channel := playerChannels[player];
            if newChannel == channel {
              return true;
            }
          }
          if newChannel in lockedChannels && lockedChannels[newChannel] != player {
            return true;
          }
          playerChannels := playerChannels[player := newChannel];
          return true;
        case NotANumber =>
          return false;
        case TooManyArgs =>
          return false;
      }
    }

    /** `handleVolumeCommand`, without its messages. */
    method HandleVolumeCommand(player: Uuid, cmd: VolumeCommand) returns (ok: bool)
      modifies this
      ensures (playerVolumes, ok) == Volume(old(playerVolumes), player, cmd)
      ensures State() == old(State())
    {
      if cmd.WrongArgCount? {
        return false;
      }
      if cmd.target.None? {
        return true;
      }
      var otherPlayer := cmd.target.value;
      if player !in playerVolumes {
        playerVolumes := playerVolumes[player := map[]];
      }
      if cmd.volume.None? {
        return false;
      }
      var newVolume := cmd.volume.value;
      if newVolume < 0 || newVolume > 100 {
        return true;
      }
      playerVolumes := playerVolumes[player := playerVolumes[player][otherPlayer := newVolume]];
      return true;
    }

    /**
     * `getPlayersInChannel`: the online players whose stored channel is
     * `channelId`, each once, in the map's iteration order (left open).
     */
    method GetPlayersInChannel(channelId: int, online: set<Uuid>) returns (players: seq<Uuid>)
      ensures forall p :: p in players <==> p in playerChannels && playerChannels[p] == channelId && p in online
      ensures NoDuplicates(players)
    {
      players := [];
      var entries := playerChannels.Keys;
      while entries != {}
        invariant entries <= playerChannels.Keys
        invariant forall p :: p in players <==>
          p in playerChannels && p !in entries && playerChannels[p] == channelId && p in online
        invariant NoDuplicates(players)
        decreases entries
      {
        var uuid :| uuid in entries;
        if playerChannels[uuid] == channelId && uuid in online {
          players := players + [uuid];
        }
        entries := entries - {uuid};
      }
    }

    /**
     * `getNearbyPlayers`: the players among the world's nearby entities, in
     * order, then every online player of the caller's channel who is neither
     * the caller nor already listed.
     */
    method GetNearbyPlayers(player: Uuid, entities: seq<Entity>, online: set<Uuid>) returns (players: seq<Uuid>)
      ensures var world := WorldPlayers(entities);
        && |world| <= |players| && players[..|world|] == world
        && NoDuplicates(players[|world|..])
        && (forall p | p in players[|world|..] ::
              && p != player && p !in world && p in online
              && CheckSharedChannels(playerChannels, player, p))
        && (forall p | p != player && p in online && CheckSharedChannels(playerChannels, player, p) :: p in players)
    {
      players := [];
      var i := 0;
      while i < |entities|
        invariant 0 <= i <= |entities|
        invariant players == WorldPlayers(entities[..i])
      {
        assert entities[..i + 1][..i] == entities[..i];
        if entities[i].PlayerEntity? {
          players := players + [entities[i].uuid];
        }
        i := i + 1;
      }
      assert entities[..i] == entities;
      ghost var world := players;
      ghost var added: seq<Uuid> := [];
      if player in playerChannels {
        var mates := GetPlayersInChannel(playerChannels[player], online);
        var k := 0;
        while k < |mates|
          invariant 0 <= k <= |mates|
          invariant players == world + added
          invariant NoDuplicates(added)
          invariant forall p | p in added :: p != player && p !in world && p in mates
          invariant forall m | 0 <= m < k && mates[m] != player :: mates[m] in players
        {
          var otherPlayer := mates[k];
          if otherPlayer != player && otherPlayer !in players {
            players := players + [otherPlayer];
            added := added + [otherPlayer];
          }
          k := k + 1;
        }
        forall p | p != player && p in online && CheckSharedChannels(playerChannels, player, p)
          ensures p in players
        {
          var m :| 0 <= m < |mates| && mates[m] == p;
        }
      }
      assert players[..|world|] == world && players[|world|..] == added;
    }
  }
}
