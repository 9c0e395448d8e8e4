/**
 * The mobile client's `player` slice (mobile/src/store/playerSlice.ts): the
 * state `{ currentPlayer, loading, error }` and its four reducers.
 *
 * `Reduce` is the slice's reducer on values; `PlayerStore` holds the state
 * in fields the reducers assign, as the Immer draft of the source does, and
 * each of its methods is proved to leave the state `Reduce` prescribes.
 */
module PlayerSlice {
  import opened Common

  /** The `Player` of the mobile API. */
  datatype Player = Player(id: int, username: string, level: int, experience: int, coins: int)

  /** A `Partial<Player>`: `None` is a field the payload does not carry. */
  datatype PlayerPatch = PlayerPatch(id: Option<int>, username: Option<string>, level: Option<int>,
                                     experience: Option<int>, coins: Option<int>)

  const NoPlayerChanges := PlayerPatch(None, None, None, None, None)

  /** `{ ...player, ...patch }`: supplied fields win, unsupplied fields keep the player's value. */
  function MergePlayer(p: Player, patch: PlayerPatch): (r: Player)
    ensures (patch.id.Some? ==> r.id == patch.id.value) && (patch.id.None? ==> r.id == p.id)
    ensures (patch.username.Some? ==> r.username == patch.username.value) && (patch.username.None? ==> r.username == p.username)
    ensures (patch.level.Some? ==> r.level == patch.level.value) && (patch.level.None? ==> r.level == p.level)
    ensures (patch.experience.Some? ==> r.experience == patch.experience.value)
            && (patch.experience.None? ==> r.experience == p.experience)
    ensures (patch.coins.Some? ==> r.coins == patch.coins.value) && (patch.coins.None? ==> r.coins == p.coins)
  {
    Player(Override(patch.id, p.id), Override(patch.username, p.username), Override(patch.level, p.level),
           Override(patch.experience, p.experience), Override(patch.coins, p.coins))
  }

  /** An empty payload changes nothing, and spreading the same payload twice is spreading it once. */
  lemma MergePlayerLaws(p: Player, patch: PlayerPatch)
    ensures MergePlayer(p, NoPlayerChanges) == p
    ensures MergePlayer(MergePlayer(p, patch), patch) == MergePlayer(p, patch)
  {
  }

  /** Two payloads as one: a field supplied by the second wins over the first's. */
  function OverlayPatch(first: PlayerPatch, second: PlayerPatch): PlayerPatch
  {
    PlayerPatch(Overlay(first.id, second.id), Overlay(first.username, second.username),
                Overlay(first.level, second.level), Overlay(first.experience, second.experience),
                Overlay(first.coins, second.coins))
  }

  /** Spreading two payloads in turn is spreading their overlay once. */
  lemma MergeOverlay(p: Player, first: PlayerPatch, second: PlayerPatch)
    ensures MergePlayer(MergePlayer(p, first), second) == MergePlayer(p, OverlayPatch(first, second))
  {
    OverlayOverride(first.id, second.id, p.id);
    OverlayOverride(first.username, second.username, p.username);
    OverlayOverride(first.level, second.level, p.level);
    OverlayOverride(first.experience, second.experience, p.experience);
    OverlayOverride(first.coins, second.coins, p.coins);
  }

  datatype PlayerState = PlayerState(currentPlayer: Option<Player>, loading: bool, error: Option<string>)

  /** `initialState`: no player, not loading, no error. */
  const InitialState := PlayerState(None, false, None)

  /** The four action creators the slice exports. */
  datatype Action =
    | SetPlayer(player: Player)
    | UpdatePlayerStats(patch: PlayerPatch)
    | SetLoading(loading: bool)
    | SetError(error: Option<string>)

  /** The slice's reducer. */
  function Reduce(s: PlayerState, a: Action): (r: PlayerState)
    ensures a.SetPlayer? ==> r.currentPlayer == Some(a.player)
    ensures a.UpdatePlayerStats? && s.currentPlayer.None? ==> r == s
    ensures a.UpdatePlayerStats? && s.currentPlayer.Some? ==>
              r.currentPlayer == Some(MergePlayer(s.currentPlayer.value, a.patch))
    ensures a.SetPlayer? || a.UpdatePlayerStats? ==> r.loading == s.loading && r.error == s.error
    ensures a.SetLoading? ==> r.loading == a.loading && r.currentPlayer == s.currentPlayer && r.error == s.error
    ensures a.SetError? ==> r.error == a.error && r.currentPlayer == s.currentPlayer && r.loading == s.loading
  {
    match a
    case SetPlayer(p) => s.(currentPlayer := Some(p))
    case UpdatePlayerStats(patch) =>
      if s.currentPlayer.Some? then s.(currentPlayer := Some(MergePlayer(s.currentPlayer.value, patch))) else s
    case SetLoading(b) => s.(loading := b)
    case SetError(e) => s.(error := e)
  }

  /** Dispatching the same `updatePlayerStats` payload twice leaves the state of dispatching it once. */
  lemma UpdateTwice(s: PlayerState, patch: PlayerPatch)
    ensures Reduce(Reduce(s, UpdatePlayerStats(patch)), UpdatePlayerStats(patch)) == Reduce(s, UpdatePlayerStats(patch))
  {
    if s.currentPlayer.Some? {
      MergePlayerLaws(s.currentPlayer.value, patch);
    }
  }

  /** Two `updatePlayerStats` dispatches in a row leave the state of one dispatch of their overlay. */
  lemma UpdatesCompose(s: PlayerState, first: PlayerPatch, second: PlayerPatch)
    ensures Reduce(Reduce(s, UpdatePlayerStats(first)), UpdatePlayerStats(second))
            == Reduce(s, UpdatePlayerStats(OverlayPatch(first, second)))
  {
    if s.currentPlayer.Some? {
      MergeOverlay(s.currentPlayer.value, first, second);
    }
  }

  /** Every action but `setPlayer` leaves the state without a player when it started without one. */
  lemma NoPlayerStaysNoPlayer(s: PlayerState, a: Action)
    requires s.currentPlayer.None? && !a.SetPlayer?
    ensures Reduce(s, a).currentPlayer.None?
  {
  }

  /** `setLoading` and `setError` are idempotent and commute with each other. */
  lemma FlagsCommute(s: PlayerState, b: bool, e: Option<string>)
    ensures Reduce(Reduce(s, SetLoading(b)), SetError(e)) == Reduce(Reduce(s, SetError(e)), SetLoading(b))
    ensures Reduce(Reduce(s, SetLoading(b)), SetLoading(b)) == Reduce(s, SetLoading(b))
    ensures Reduce(Reduce(s, SetError(e)), SetError(e)) == Reduce(s, SetError(e))
  {
  }

  /** The slice's state as the store holds it; each reducer assigns the fields of the draft. */
  class PlayerStore {
    var currentPlayer: Option<Player>
    var loading: bool
    var error: Option<string>

    function State(): PlayerState
      reads this
    {
      PlayerState(currentPlayer, loading, error)
    }

    constructor ()
      ensures State() == InitialState
    {
      currentPlayer, loading, error := None, false, None;
    }

    method SetPlayer(payload: Player)
      modifies this
      ensures State() == Reduce(old(State()), Action.SetPlayer(payload))
    {
      currentPlayer := Some(payload);
    }

    method UpdatePlayerStats(payload: PlayerPatch)
      modifies this
      ensures State() == Reduce(old(State()), Action.UpdatePlayerStats(payload))
    {
      if currentPlayer.Some? {
        currentPlayer := Some(MergePlayer(currentPlayer.value, payload));
      }
    }

    method SetLoading(payload: bool)
      modifies this
      ensures State() == Reduce(old(State()), Action.SetLoading(payload))
    {
      loading := payload;
    }

    method SetError(payload: Option<string>)
      modifies this
      ensures State() == Reduce(old(State()), Action.SetError(payload))
    {
      error := payload;
    }
  }
}
