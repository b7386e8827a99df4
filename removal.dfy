/** Removal: the `remove_coin` handler deletes coins from the list it is iterating over.
    Python's list iterator keeps a position, so after a deletion the coin that slides into
    the freed slot is stepped over without being tested. This module describes that scan
    exactly, compares it with a plain filter, and proves the two agree whenever coin
    indices are unique. */
module Removal {
  import opened Coins

  /** The coins whose index differs from `id`, in their original order. */
  function Without(coins: seq<Coin>, id: int): (r: seq<Coin>)
    ensures |r| <= |coins|
    ensures forall c :: c in r <==> c in coins && c.myIndex != id
    ensures id !in Ids(coins) ==> r == coins
  {
    if coins == [] then []
    else if coins[0].myIndex == id then Without(coins[1..], id)
    else [coins[0]] + Without(coins[1..], id)
  }

  /** What the delete-while-iterating loop leaves behind: a matching coin is deleted, and
      the coin after it is kept untested. */
  function IteratedRemoval(coins: seq<Coin>, id: int): (r: seq<Coin>)
    ensures |r| <= |coins|
    ensures forall c :: c in r ==> c in coins
    decreases |coins|
  {
    if coins == [] then []
    else if coins[0].myIndex == id then
      (if |coins| == 1 then [] else [coins[1]] + IteratedRemoval(coins[2..], id))
    else [coins[0]] + IteratedRemoval(coins[1..], id)
  }

  /** One step of the scan, seen from a position inside the list: the coins already passed
      stay, a matching coin goes, and the coin after it is passed untested. */
  lemma ScanStep(done: seq<Coin>, rest: seq<Coin>, id: int)
    requires rest != []
    ensures rest[0].myIndex == id && |rest| >= 2 ==>
      done + IteratedRemoval(rest, id) == (done + [rest[1]]) + IteratedRemoval(rest[2..], id)
    ensures rest[0].myIndex == id && |rest| == 1 ==> done + IteratedRemoval(rest, id) == done
    ensures rest[0].myIndex != id ==>
      done + IteratedRemoval(rest, id) == (done + [rest[0]]) + IteratedRemoval(rest[1..], id)
  {
  }

  /** Two adjacent coins with the same index: only the first is deleted. */
  lemma AdjacentDuplicateSurvives(a: Coin, b: Coin)
    requires a.myIndex == b.myIndex
    ensures IteratedRemoval([a, b], a.myIndex) == [b]
  {
  }

  /** With unique indices, the scan deletes exactly the matching coin and keeps the rest in order. */
  lemma {:induction false} RemovalIsFilterWhenUnique(coins: seq<Coin>, id: int)
    requires UniqueIndices(coins)
    ensures IteratedRemoval(coins, id) == Without(coins, id)
    decreases |coins|
  {
    if coins == [] {
    } else if coins[0].myIndex == id {
      if |coins| > 1 {
        assert coins[1].myIndex != id;
        assert coins[2..] == coins[1..][1..];
        RemovalIsFilterWhenUnique(coins[2..], id);
      } else {
        assert coins[1..] == [];
      }
    } else {
      RemovalIsFilterWhenUnique(coins[1..], id);
    }
  }

  /** Filtering removes exactly `id` from the identities. */
  lemma WithoutIds(coins: seq<Coin>, id: int)
    ensures Ids(Without(coins, id)) == Ids(coins) - {id}
  {
    var r := Without(coins, id);
    forall x | x in Ids(coins) - {id} ensures x in Ids(r) {
      var c :| c in coins && c.myIndex == x;
      assert c in r;
    }
  }

  /** Filtering keeps indices unique. */
  lemma {:induction false} WithoutKeepsUnique(coins: seq<Coin>, id: int)
    requires UniqueIndices(coins)
    ensures UniqueIndices(Without(coins, id))
    decreases |coins|
  {
    if coins != [] {
      WithoutKeepsUnique(coins[1..], id);
      var rest := Without(coins[1..], id);
      if coins[0].myIndex != id {
        var r := [coins[0]] + rest;
        forall i, j | 0 <= i < j < |r| ensures r[i].myIndex != r[j].myIndex {
          if i == 0 {
            assert r[j] in coins[1..];
            var k :| 0 <= k < |coins[1..]| && coins[1..][k] == r[j];
            assert coins[k + 1] == r[j];
          } else {
            assert r[i] == rest[i - 1] && r[j] == rest[j - 1];
          }
        }
      }
    }
  }

  /** The scan never creates a coin nor a duplicate index, and with unique indices it removes
      exactly `id` from the identities. */
  lemma RemovalKeepsUnique(coins: seq<Coin>, id: int)
    requires UniqueIndices(coins)
    ensures UniqueIndices(IteratedRemoval(coins, id))
    ensures Ids(IteratedRemoval(coins, id)) == Ids(coins) - {id}
  {
    RemovalIsFilterWhenUnique(coins, id);
    WithoutKeepsUnique(coins, id);
    WithoutIds(coins, id);
  }

  /** An index that matches no coin leaves the list as it was. */
  lemma {:induction false} RemovalOfAbsentIsNoOp(coins: seq<Coin>, id: int)
    requires id !in Ids(coins)
    ensures IteratedRemoval(coins, id) == coins
    decreases |coins|
  {
    if coins != [] {
      assert coins[0] in coins;
      assert Ids(coins[1..]) <= Ids(coins) by {
        forall x | x in Ids(coins[1..]) ensures x in Ids(coins) {
          var c :| c in coins[1..] && c.myIndex == x;
          assert c in coins;
        }
      }
      RemovalOfAbsentIsNoOp(coins[1..], id);
    }
  }

  /** Delivering the same remove_coin twice has the effect of delivering it once. */
  lemma RemovalIdempotent(coins: seq<Coin>, id: int)
    requires UniqueIndices(coins)
    ensures IteratedRemoval(IteratedRemoval(coins, id), id) == IteratedRemoval(coins, id)
  {
    RemovalKeepsUnique(coins, id);
    RemovalOfAbsentIsNoOp(IteratedRemoval(coins, id), id);
  }
}
