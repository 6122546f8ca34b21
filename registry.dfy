/**
 * The identity registry of the audio forwarder: Discord id to player UUID
 * (`idsToUUIDs`) and back (`uuidsToIds`). The two maps are meant to be
 * inverse to each other.
 */
module Registry {

  /** A Minecraft player's UUID (two 64-bit halves), compared by value. */
  datatype Uuid = Uuid(mostSigBits: int, leastSigBits: int)

  /** A Discord user id. */
  type DiscordId = string

  /** A pending link between a player and a Discord account. */
  datatype RegistrationData = RegistrationData(playerUuid: Uuid, discordId: DiscordId)

  /** The two id maps, `idsToUUIDs` and `uuidsToIds`. */
  datatype Links = Links(idsToUuids: map<DiscordId, Uuid>, uuidsToIds: map<Uuid, DiscordId>)

  /** Every entry of each map is undone by the other map. */
  predicate MutualInverse(l: Links) {
    && (forall d | d in l.idsToUuids ::
          l.idsToUuids[d] in l.uuidsToIds && l.uuidsToIds[l.idsToUuids[d]] == d)
    && (forall u | u in l.uuidsToIds ::
          l.uuidsToIds[u] in l.idsToUuids && l.idsToUuids[l.uuidsToIds[u]] == u)
  }

  predicate Injective(m: map<DiscordId, Uuid>) {
    forall a, b | a in m && b in m && a != b :: m[a] != m[b]
  }

  /** The player and the account are linked to each other, in both maps. */
  predicate Linked(l: Links, data: RegistrationData) {
    && data.discordId in l.idsToUuids && l.idsToUuids[data.discordId] == data.playerUuid
    && data.playerUuid in l.uuidsToIds && l.uuidsToIds[data.playerUuid] == data.discordId
  }

  /** Neither side of the link is taken (the check `registerUser` makes at line 195). */
  predicate Available(l: Links, data: RegistrationData) {
    data.discordId !in l.idsToUuids && data.playerUuid !in l.uuidsToIds
  }

  /** `enterAfterRegistered` as written: both puts, with no check. */
  function EnterAsWritten(l: Links, data: RegistrationData): (r: Links)
    ensures Linked(r, data)
    ensures r.idsToUuids - {data.discordId} == l.idsToUuids - {data.discordId}
    ensures r.uuidsToIds - {data.playerUuid} == l.uuidsToIds - {data.playerUuid}
  {
    Links(l.idsToUuids[data.discordId := data.playerUuid],
          l.uuidsToIds[data.playerUuid := data.discordId])
  }

  /**
   * The puts keep the maps inverse exactly when neither side is linked to
   * someone else already; otherwise a stale entry is left behind.
   */
  lemma EnterAsWrittenKeepsInverseIff(l: Links, data: RegistrationData)
    requires MutualInverse(l)
    ensures MutualInverse(EnterAsWritten(l, data)) <==>
      && (data.playerUuid in l.uuidsToIds ==> l.uuidsToIds[data.playerUuid] == data.discordId)
      && (data.discordId in l.idsToUuids ==> l.idsToUuids[data.discordId] == data.playerUuid)
  {
    var r := EnterAsWritten(l, data);
    var d, u := data.discordId, data.playerUuid;
    if u in l.uuidsToIds && l.uuidsToIds[u] != d {
      var stale := l.uuidsToIds[u];
      assert stale in r.idsToUuids && r.idsToUuids[stale] == u && r.uuidsToIds[u] != stale;
    }
    if d in l.idsToUuids && l.idsToUuids[d] != u {
      var stale := l.idsToUuids[d];
      assert stale in r.uuidsToIds && r.uuidsToIds[stale] == d && r.idsToUuids[d] != stale;
    }
  }

  /**
   * Two pending codes for one player, from two Discord accounts, both pass
   * the check at registration time; entering the second after the first
   * leaves the first account pointing at the player.
   */
  lemma EnterAsWrittenBreaksInverse()
    ensures var player := Uuid(0, 1);
      var before := EnterAsWritten(Links(map[], map[]), RegistrationData(player, "first"));
      && MutualInverse(before)
      && !MutualInverse(EnterAsWritten(before, RegistrationData(player, "second")))
  {
    var player := Uuid(0, 1);
    var before := EnterAsWritten(Links(map[], map[]), RegistrationData(player, "first"));
    assert before.idsToUuids == map["first" := player];
    var after := EnterAsWritten(before, RegistrationData(player, "second"));
    assert after.idsToUuids["first"] == player && after.uuidsToIds[player] == "second";
  }

  /**
   * `enterAfterRegistered` with the check of line 195 repeated: the link is
   * made only when neither side is taken, so the maps stay inverse.
   */
  function Enter(l: Links, data: RegistrationData): (r: Links)
    ensures MutualInverse(l) ==> MutualInverse(r)
    ensures Available(l, data) ==> Linked(r, data)
    ensures !Available(l, data) ==> r == l
    ensures r.idsToUuids - {data.discordId} == l.idsToUuids - {data.discordId}
    ensures r.uuidsToIds - {data.playerUuid} == l.uuidsToIds - {data.playerUuid}
  {
    if Available(l, data) then EnterAsWritten(l, data) else l
  }

  /**
   * The map updates of `deRegister`: an unknown player gives false and no
   * change; otherwise both directions of the player's link are removed.
   */
  function DeRegister(l: Links, uuid: Uuid): (res: (Links, bool))
    ensures res.1 <==> uuid in l.uuidsToIds
    ensures !res.1 ==> res.0 == l
    ensures res.1 ==> uuid !in res.0.uuidsToIds && l.uuidsToIds[uuid] !in res.0.idsToUuids
    ensures res.0.uuidsToIds == l.uuidsToIds - {uuid}
    ensures res.1 ==> res.0.idsToUuids == l.idsToUuids - {l.uuidsToIds[uuid]}
    ensures MutualInverse(l) ==> MutualInverse(res.0)
    ensures MutualInverse(l) ==> forall d | d in res.0.idsToUuids :: res.0.idsToUuids[d] != uuid
  {
    if uuid !in l.uuidsToIds then (l, false)
    else
      var discordId := l.uuidsToIds[uuid];
      (Links(l.idsToUuids - {discordId}, l.uuidsToIds - {uuid}), true)
  }

  /** The set of players the given accounts are linked to. */
  ghost function Image(ids: map<DiscordId, Uuid>, ds: set<DiscordId>): set<Uuid>
    requires ds <= ids.Keys
  {
    set d | d in ds :: ids[d]
  }

  /**
   * The loop of `loadFile` that rebuilds `uuidsToIds` from the loaded
   * `idsToUUIDs`, one `put` per entry in the map's iteration order (left
   * open here). From an empty map and an injective `ids` it gives the
   * inverse.
   */
  method PutInverse(into: map<Uuid, DiscordId>, ids: map<DiscordId, Uuid>) returns (r: map<Uuid, DiscordId>)
    ensures r.Keys == into.Keys + ids.Values
    ensures forall u | u in r && u in ids.Values :: r[u] in ids && ids[r[u]] == u
    ensures forall u | u in r && u !in ids.Values :: r[u] == into[u]
    ensures into == map[] && Injective(ids) ==> MutualInverse(Links(ids, r))
  {
    r := into;
    var todo := ids.Keys;
    ghost var done: set<DiscordId> := {};
    while todo != {}
      invariant todo !! done && todo + done == ids.Keys
      invariant r.Keys == into.Keys + Image(ids, done)
      invariant forall u | u in r && u in Image(ids, done) :: r[u] in done && ids[r[u]] == u
      invariant forall u | u in r && u !in Image(ids, done) :: r[u] == into[u]
      decreases todo
    {
      var d :| d in todo;
      ImageAdd(ids, done, d);
      r := r[ids[d] := d];
      todo, done := todo - {d}, done + {d};
    }
    assert done == ids.Keys;
    ImageAll(ids);
    if into == map[] && Injective(ids) {
      forall d | d in ids
        ensures ids[d] in r && r[ids[d]] == d
      {
        assert ids[d] in Image(ids, done);
      }
    }
  }

  lemma ImageAdd(ids: map<DiscordId, Uuid>, ds: set<DiscordId>, d: DiscordId)
    requires ds <= ids.Keys && d in ids
    ensures Image(ids, ds + {d}) == Image(ids, ds) + {ids[d]}
  {
  }

  lemma ImageAll(ids: map<DiscordId, Uuid>)
    ensures Image(ids, ids.Keys) == ids.Values
  {
    forall u | u in ids.Values
      ensures u in Image(ids, ids.Keys)
    {
      var d :| d in ids && ids[d] == u;
    }
  }
}
