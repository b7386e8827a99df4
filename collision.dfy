/** Collision: which coins the player sprite touches. The game asks the arcade library for
    the coins whose hit box meets the player's; here both hit boxes are axis-aligned
    rectangles around the sprite centres, and overlap is strict (touching edges do not hit). */
module Collision {
  import opened Coins

  /** The player's box and the coin's box share interior points. */
  predicate Overlaps(playerX: int, playerY: int, c: Coin)
  {
    && playerX - PlayerHalfWidth < c.Right() && c.Left() < playerX + PlayerHalfWidth
    && playerY - PlayerHalfHeight < c.Top() && c.Bottom() < playerY + PlayerHalfHeight
  }

  /** The coins hit by a player centred at (playerX, playerY), in coin-list order. */
  function HitList(playerX: int, playerY: int, coins: seq<Coin>): (hits: seq<Coin>)
    ensures |hits| <= |coins|
    ensures forall c :: c in hits <==> c in coins && Overlaps(playerX, playerY, c)
  {
    if coins == [] then []
    else if Overlaps(playerX, playerY, coins[0]) then [coins[0]] + HitList(playerX, playerY, coins[1..])
    else HitList(playerX, playerY, coins[1..])
  }
}
