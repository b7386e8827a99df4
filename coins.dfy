/** Coins: the coin sprite of the arcade peer-to-peer game, the screen it bounces in, and the
    two pure views of the coin list that travel on the `update_coins` topic: the snapshot a
    peer publishes and the batch apply a peer performs on receipt. Sprite coordinates are
    floating point in the game; here they are integers. */
module Coins {

  const CoinCount := 50
  const ScreenWidth := 800
  const ScreenHeight := 600

  /** Half extents of the two textures at their sprite scaling (coin 128x128 at 0.2,
      player 96x128 at 0.5), rounded to integers. */
  const CoinHalfWidth := 13
  const CoinHalfHeight := 13
  const PlayerHalfWidth := 24
  const PlayerHalfHeight := 32

  /** A coin: centre, velocity, and the index that identifies it across peers. */
  datatype Coin = Coin(centerX: int, centerY: int, changeX: int, changeY: int, myIndex: int)
  {
    function Left(): int { centerX - CoinHalfWidth }
    function Right(): int { centerX + CoinHalfWidth }
    function Bottom(): int { centerY - CoinHalfHeight }
    function Top(): int { centerY + CoinHalfHeight }
  }

  function Abs(x: int): int { if x < 0 then -x else x }

  /** The set of identities present in a coin list. */
  function Ids(coins: seq<Coin>): set<int>
  {
    set c | c in coins :: c.myIndex
  }

  /** No two coins of the list share an index. */
  predicate UniqueIndices(coins: seq<Coin>)
  {
    forall i, j :: 0 <= i < j < |coins| ==> coins[i].myIndex != coins[j].myIndex
  }

  /** The four edge tests of the update_coins handler, run one after the other on a coin
      whose centre has just been written. Each test negates the velocity it guards, so a
      component is negated exactly when one, and not both, of its two tests fire. */
  function Bounce(c: Coin): (r: Coin)
    ensures r.centerX == c.centerX && r.centerY == c.centerY && r.myIndex == c.myIndex
    ensures r.changeX == if (c.Left() < 0) == (c.Right() > ScreenWidth) then c.changeX else -c.changeX
    ensures r.changeY == if (c.Bottom() < 0) == (c.Top() > ScreenHeight) then c.changeY else -c.changeY
    ensures Abs(r.changeX) == Abs(c.changeX) && Abs(r.changeY) == Abs(c.changeY)
  {
    var afterLeft := if c.Left() < 0 then c.(changeX := -c.changeX) else c;
    var afterRight := if afterLeft.Right() > ScreenWidth then afterLeft.(changeX := -afterLeft.changeX) else afterLeft;
    var afterBottom := if afterRight.Bottom() < 0 then afterRight.(changeY := -afterRight.changeY) else afterRight;
    if afterBottom.Top() > ScreenHeight then afterBottom.(changeY := -afterBottom.changeY) else afterBottom
  }

  /** A coin is narrower and lower than the screen, so the two tests on one axis never both
      fire: a velocity component is negated exactly when the coin crosses either of its edges. */
  lemma BounceFlipsOnAnyBreach(c: Coin)
    ensures Bounce(c).changeX == if c.Left() < 0 || c.Right() > ScreenWidth then -c.changeX else c.changeX
    ensures Bounce(c).changeY == if c.Bottom() < 0 || c.Top() > ScreenHeight then -c.changeY else c.changeY
  {
  }

  /** One entry of an update_coins batch applied to the coin at the same list position.
      The new centre is the received position plus this peer's own velocity, read before
      any bounce. An empty entry fails before anything is written; an entry with a single
      number writes center_x and then fails on center_y, so it is not bounced. */
  function MoveCoin(c: Coin, entry: seq<int>): (r: Coin)
    ensures r.myIndex == c.myIndex
    ensures |entry| == 0 ==> r == c
    ensures |entry| == 1 ==> r == c.(centerX := entry[0] + c.changeX)
    ensures |entry| >= 2 ==> r.centerX == entry[0] + c.changeX && r.centerY == entry[1] + c.changeY
    ensures |entry| >= 2 ==> Abs(r.changeX) == Abs(c.changeX) && Abs(r.changeY) == Abs(c.changeY)
  {
    if |entry| == 0 then c
    else if |entry| == 1 then c.(centerX := entry[0] + c.changeX)
    else Bounce(c.(centerX := entry[0] + c.changeX, centerY := entry[1] + c.changeY))
  }

  /** A whole update_coins batch, applied by list position: entry i moves the coin at
      position i whatever its index; entries past the end of the coin list are skipped and
      coins past the end of the batch are left alone. */
  function ApplyBatch(coins: seq<Coin>, updates: seq<seq<int>>): (r: seq<Coin>)
    ensures |r| == |coins|
    ensures forall i :: 0 <= i < |r| ==> r[i].myIndex == coins[i].myIndex
    ensures forall i :: |updates| <= i < |coins| ==> r[i] == coins[i]
    ensures forall i :: 0 <= i < |updates| && i < |coins| && |updates[i]| >= 2 ==>
      r[i].centerX == updates[i][0] + coins[i].changeX && r[i].centerY == updates[i][1] + coins[i].changeY
  {
    seq(|coins|, i requires 0 <= i < |coins| => if i < |updates| then MoveCoin(coins[i], updates[i]) else coins[i])
  }

  /** A batch never changes which coins exist. */
  lemma BatchKeepsIds(coins: seq<Coin>, updates: seq<seq<int>>)
    ensures Ids(ApplyBatch(coins, updates)) == Ids(coins)
    ensures UniqueIndices(coins) ==> UniqueIndices(ApplyBatch(coins, updates))
  {
    var r := ApplyBatch(coins, updates);
    forall x | x in Ids(r) ensures x in Ids(coins) {
      var i :| 0 <= i < |r| && r[i].myIndex == x;
      assert coins[i] in coins;
    }
    forall x | x in Ids(coins) ensures x in Ids(r) {
      var i :| 0 <= i < |coins| && coins[i].myIndex == x;
      assert r[i] in r;
    }
  }

  /** The position batch a peer publishes: one [center_x, center_y] pair per coin, in list order. */
  function Snapshot(coins: seq<Coin>): (r: seq<seq<int>>)
    ensures |r| == |coins|
    ensures forall i :: 0 <= i < |r| ==> r[i] == [coins[i].centerX, coins[i].centerY]
  {
    seq(|coins|, i requires 0 <= i < |coins| => [coins[i].centerX, coins[i].centerY])
  }

  /** A receiver whose list is aligned with the sender's (same index at every position)
      ends up, index for index, at the sender's published position plus its own velocity. */
  lemma SnapshotRoundTrip(sender: seq<Coin>, receiver: seq<Coin>)
    requires |sender| == |receiver|
    requires forall i :: 0 <= i < |sender| ==> sender[i].myIndex == receiver[i].myIndex
    requires UniqueIndices(sender)
    ensures var r := ApplyBatch(receiver, Snapshot(sender));
      forall i, j :: 0 <= i < |r| && 0 <= j < |sender| && r[i].myIndex == sender[j].myIndex ==>
        r[i].centerX == sender[j].centerX + receiver[i].changeX && r[i].centerY == sender[j].centerY + receiver[i].changeY
  {
  }

  /** Applying by position misplaces coins once the sender has removed one the receiver
      still holds: the receiver's coin at the removed position takes the next coin's
      position, and the receiver's last coin gets no entry at all. */
  lemma RemovalShiftsBatch(receiver: seq<Coin>, p: nat)
    requires p + 1 < |receiver|
    ensures var r := ApplyBatch(receiver, Snapshot(receiver[..p] + receiver[p + 1..]));
      && r[p].myIndex == receiver[p].myIndex
      && r[p].centerX == receiver[p + 1].centerX + receiver[p].changeX
      && r[p].centerY == receiver[p + 1].centerY + receiver[p].changeY
      && r[|receiver| - 1] == receiver[|receiver| - 1]
  {
    var sender := receiver[..p] + receiver[p + 1..];
    assert sender[p] == receiver[p + 1];
  }
}
