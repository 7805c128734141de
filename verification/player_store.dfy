/** The player's running totals (src/stores/player.store.ts). The stored
    `player.json` is the field `stored`; `load` and `save` copy between it and
    the in-memory `player`. */
module PlayerStores {
  import opened Types
  import opened TaskCatalog

  const DEFAULT_PLAYER_NAME: string := "小学霸"

  /** The player `load` makes when nothing is stored: no gold, no xp, no
      settled date, created on the given day. */
  function DefaultPlayer(today: string): (p: PlayerState)
    ensures p.gold == 0 && p.xp == 0 && p.lastSettledDate.None?
    ensures p.name == DEFAULT_PLAYER_NAME && p.createdAt == today
  {
    PlayerState(DEFAULT_PLAYER_NAME, 0, 0, None, today)
  }

  /** A player with the rewards added; name, dates and the rest are kept. */
  function Credited(p: PlayerState, gold: int, xp: int): (r: PlayerState)
    ensures r.gold - p.gold == gold && r.xp - p.xp == xp
    ensures r.name == p.name && r.createdAt == p.createdAt && r.lastSettledDate == p.lastSettledDate
  {
    p.(gold := p.gold + gold, xp := p.xp + xp)
  }

  /** Crediting twice is crediting the sums once, in either order. */
  lemma CreditAdditive(p: PlayerState, g1: int, x1: int, g2: int, x2: int)
    ensures Credited(Credited(p, g1, x1), g2, x2) == Credited(p, g1 + g2, x1 + x2)
    ensures Credited(Credited(p, g1, x1), g2, x2) == Credited(Credited(p, g2, x2), g1, x1)
  {
  }

  /** Crediting nothing keeps the player. */
  lemma CreditNothing(p: PlayerState)
    ensures Credited(p, 0, 0) == p
  {
  }

  class PlayerStore {
    /** The loaded player, if any. */
    var player: Option<PlayerState>
    /** What `player.json` holds. */
    var stored: Option<PlayerState>

    constructor (stored: Option<PlayerState>)
      ensures this.player.None? && this.stored == stored
    {
      this.player := None;
      this.stored := stored;
    }

    /** `load`: the stored player, or the default one. */
    method Load(today: string)
      modifies this
      ensures player == Some(if stored.Some? then stored.value else DefaultPlayer(today))
      ensures stored == old(stored)
    {
      var data := stored;
      player := Some(if data.Some? then data.value else DefaultPlayer(today));
    }

    /** `save`: writes the loaded player, if any. */
    method Save()
      modifies this
      ensures player == old(player)
      ensures stored == if old(player).Some? then old(player) else old(stored)
    {
      if player.None? {
        return;
      }
      stored := player;
    }

    /** `addRewards`: adds exactly the given gold and xp to a loaded player,
        and does nothing when none is loaded. */
    method AddRewards(gold: int, xp: int)
      modifies this
      ensures old(player).None? ==> player.None?
      ensures old(player).Some? ==> player == Some(Credited(old(player).value, gold, xp))
      ensures stored == old(stored)
    {
      if player.None? {
        return;
      }
      var p := player.value;
      player := Some(p.(gold := p.gold + gold, xp := p.xp + xp));
    }
  }
}
