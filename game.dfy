/** Game: one peer's game window, the object whose handlers the arcade event loop and the
    message-receiving thread call. Its fields are updated in place; every handler is one
    atomic step, and what a peer publishes is appended to `outbox`. Message handling is
    proved to make exactly the transition `Protocol.Receive` describes. */
module Game {
  import opened Coins
  import opened Removal
  import opened Collision
  import opened Protocol

  const MouseButtonLeft := 1
  const MouseButtonMiddle := 2
  const MouseButtonRight := 4

  /** The starting position and velocity the random number generator picks for one coin. */
  datatype CoinSeed = CoinSeed(x: int, y: int, dx: int, dy: int)
  {
    predicate InRange()
    {
      0 <= x < ScreenWidth && 0 <= y < ScreenHeight && -3 <= dx <= 3 && -3 <= dy <= 3
    }
  }

  class MyGame {
    var coins: seq<Coin>
    var playerX: int
    var playerY: int
    var score: int
    var go: bool
    var runCollisionDetection: bool
    const player: int
    var outbox: seq<Message>

    /** The fields the protocol reads and writes, as a value. */
    function View(): State
      reads this
    {
      State(coins, playerX, playerY, score, go, runCollisionDetection, player)
    }

    /** A new window: score 0, both flags off, nothing published, then `Setup`. */
    constructor (player: int, seeds: seq<CoinSeed>)
      requires |seeds| == CoinCount
      requires forall i :: 0 <= i < |seeds| ==> seeds[i].InRange()
      ensures this.player == player && score == 0 && !go && !runCollisionDetection && outbox == []
      ensures playerX == 50 && playerY == 50
      ensures |coins| == CoinCount && UniqueIndices(coins)
      ensures forall i :: 0 <= i < |coins| ==>
        coins[i] == Coin(seeds[i].x, seeds[i].y, seeds[i].dx, seeds[i].dy, i)
    {
      this.player := player;
      score := 0;
      runCollisionDetection := false;
      go := false;
      outbox := [];
      new;
      Setup(seeds);
    }

    /** Places the player at (50, 50) and creates 50 coins from the seeds, the i-th with index i. */
    method Setup(seeds: seq<CoinSeed>)
      requires |seeds| == CoinCount
      requires forall i :: 0 <= i < |seeds| ==> seeds[i].InRange()
      modifies this`coins, this`playerX, this`playerY
      ensures playerX == 50 && playerY == 50
      ensures |coins| == CoinCount && UniqueIndices(coins)
      ensures forall i :: 0 <= i < |coins| ==>
        coins[i] == Coin(seeds[i].x, seeds[i].y, seeds[i].dx, seeds[i].dy, i)
      ensures forall i :: 0 <= i < |coins| ==>
        0 <= coins[i].centerX < ScreenWidth && 0 <= coins[i].centerY < ScreenHeight &&
        -3 <= coins[i].changeX <= 3 && -3 <= coins[i].changeY <= 3
    {
      coins := [];
      playerX, playerY := 50, 50;
      var i := 0;
      while i < 50
        invariant 0 <= i <= 50 && |coins| == i
        invariant playerX == 50 && playerY == 50
        invariant forall j :: 0 <= j < i ==>
          coins[j] == Coin(seeds[j].x, seeds[j].y, seeds[j].dx, seeds[j].dy, j)
      {
        coins := coins + [Coin(seeds[i].x, seeds[i].y, seeds[i].dx, seeds[i].dy, i)];
        i := i + 1;
      }
    }

    /** Publishes the player position, and only on the player-1 peer; nothing local moves. */
    method OnMouseMotion(x: int, y: int)
      modifies this`outbox
      ensures outbox == old(outbox) + (if player == 1 then [P1Move(x, y)] else [])
    {
      if player == 1 {
        outbox := outbox + [P1Move(x, y)];
      }
    }

    /** The left button starts the coins, the right button turns on collision detection;
        neither flag is ever turned off. */
    method OnMousePress(x: int, y: int, button: int)
      modifies this`go, this`runCollisionDetection
      ensures go == (old(go) || button == MouseButtonLeft)
      ensures runCollisionDetection == (old(runCollisionDetection) || button == MouseButtonRight)
    {
      if button == MouseButtonLeft {
        go := true;
      }
      if button == MouseButtonRight {
        runCollisionDetection := true;
      }
    }

    /** Once started, each frame publishes every coin's position in list order. */
    method OnUpdate()
      modifies this`outbox
      ensures outbox == old(outbox) + (if go then [UpdateCoins(Snapshot(coins))] else [])
    {
      if go {
        var coinUpdates := Snapshot(coins);
        outbox := outbox + [UpdateCoins(coinUpdates)];
      }
    }

    /** The update_coins loop: entry i moves the coin at list position i, then bounces it;
        an entry that does not fit is skipped. */
    method ApplyCoinUpdates(updates: seq<seq<int>>)
      modifies this`coins
      ensures coins == ApplyBatch(old(coins), updates)
    {
      var i := 0;
      while i < |updates|
        invariant 0 <= i <= |updates|
        invariant |coins| == |old(coins)|
        invariant forall j :: 0 <= j < |coins| ==>
          coins[j] == if j < i then MoveCoin(old(coins)[j], updates[j]) else old(coins)[j]
      {
        if i < |coins| {
          var coin := coins[i];
          var entry := updates[i];
          if |entry| >= 1 {
            coin := coin.(centerX := entry[0] + coin.changeX);
            if |entry| >= 2 {
              coin := coin.(centerY := entry[1] + coin.changeY);
              if coin.Left() < 0 {
                coin := coin.(changeX := -coin.changeX);
              }
              if coin.Right() > ScreenWidth {
                coin := coin.(changeX := -coin.changeX);
              }
              if coin.Bottom() < 0 {
                coin := coin.(changeY := -coin.changeY);
              }
              if coin.Top() > ScreenHeight {
                coin := coin.(changeY := -coin.changeY);
              }
            }
          }
          coins := coins[i := coin];
        }
        i := i + 1;
      }
    }

    /** Publishes a remove_coin and a bump_score for each hit coin, in hit order. */
    method PublishHits(hits: seq<Coin>)
      modifies this`outbox
      ensures outbox == old(outbox) + Announcements(hits)
    {
      var i := 0;
      while i < |hits|
        invariant 0 <= i <= |hits|
        invariant outbox == old(outbox) + Announcements(hits[..i])
      {
        AnnouncementsAppend(hits[..i], hits[i]);
        assert hits[..i + 1] == hits[..i] + [hits[i]];
        outbox := outbox + [RemoveCoin(hits[i].myIndex)];
        outbox := outbox + [BumpScore(1)];
        i := i + 1;
      }
      assert hits[..i] == hits;
    }

    /** The remove_coin loop: it deletes matching coins from the list it iterates, so the
        coin that moves into a freed slot is stepped over. */
    method RemoveCoinWithIndex(id: int)
      modifies this`coins
      ensures coins == IteratedRemoval(old(coins), id)
    {
      ghost var target := IteratedRemoval(coins, id);
      ghost var done: seq<Coin>, rest := [], coins;
      var k := 0;
      while k < |coins|
        invariant k <= |coins| + 1
        invariant k <= |coins| ==> coins == done + rest && |done| == k && done + IteratedRemoval(rest, id) == target
        invariant k > |coins| ==> coins == target
        decreases |coins| + 1 - k
      {
        ScanStep(done, rest, id);
        if coins[k].myIndex == id {
          coins := coins[..k] + coins[k + 1..];
          if |rest| >= 2 {
            done, rest := done + [rest[1]], rest[2..];
          } else {
            done, rest := done, [];
          }
        } else {
          done, rest := done + [rest[0]], rest[1..];
        }
        k := k + 1;
      }
    }

    /** incoming_message_processing: dispatch on the topic and run its handler. */
    method IncomingMessageProcessing(m: Message)
      modifies this`coins, this`playerX, this`playerY, this`score, this`outbox
      ensures View() == Receive(old(View()), m).0
      ensures outbox == old(outbox) + Receive(old(View()), m).1
      ensures score == old(score) + (if m.BumpScore? then 1 else 0)
      ensures |coins| <= |old(coins)|
      ensures UniqueIndices(old(coins)) ==> UniqueIndices(coins)
    {
      ghost var before := View();
      match m {
        case UpdateCoins(updates) =>
          ApplyCoinUpdates(updates);
          if runCollisionDetection {
            var hitList := HitList(playerX, playerY, coins);
            PublishHits(hitList);
          }
        case P1Move(x, y) =>
          playerX := x;
          playerY := y;
        case RemoveCoin(id) =>
          RemoveCoinWithIndex(id);
        case BumpScore(_) =>
          score := score + 1;
      }
      if UniqueIndices(before.coins) {
        ReceiveKeepsUnique(before, m);
      }
    }
  }
}
