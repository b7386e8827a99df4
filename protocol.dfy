/** Protocol: the four topics the game subscribes to, one peer's local state, and the
    transition a peer makes on receiving one message (the body of
    `incoming_message_processing`), as a function from the old state to the new state and
    the messages published in response. Folding it over a message stream gives the
    convergence argument: identity set and score depend only on which messages arrived,
    not on their order. */
module Protocol {
  import opened Coins
  import opened Removal
  import opened Collision

  /** A topic together with its payload. */
  datatype Message =
    | UpdateCoins(updates: seq<seq<int>>)
    | P1Move(p1X: int, p1Y: int)
    | RemoveCoin(coin: int)
    | BumpScore(bump: int)

  /** The messages published for a hit list: a remove_coin carrying the coin's index
      followed by a bump_score of 1, for each hit coin in hit order. */
  function Announcements(hits: seq<Coin>): (out: seq<Message>)
    ensures |out| == 2 * |hits|
  {
    if hits == [] then [] else [RemoveCoin(hits[0].myIndex), BumpScore(1)] + Announcements(hits[1..])
  }

  /** Positions 2k and 2k+1 of the announcements belong to the k-th hit coin. */
  lemma {:induction false} AnnouncementsAt(hits: seq<Coin>, k: nat)
    requires k < |hits|
    ensures Announcements(hits)[2 * k] == RemoveCoin(hits[k].myIndex)
    ensures Announcements(hits)[2 * k + 1] == BumpScore(1)
    decreases k
  {
    if k > 0 {
      AnnouncementsAt(hits[1..], k - 1);
    }
  }

  /** Publishing one more hit extends the announcements by its two messages. */
  lemma {:induction false} AnnouncementsAppend(hits: seq<Coin>, c: Coin)
    ensures Announcements(hits + [c]) == Announcements(hits) + [RemoveCoin(c.myIndex), BumpScore(1)]
    decreases |hits|
  {
    if hits != [] {
      assert (hits + [c])[1..] == hits[1..] + [c];
      AnnouncementsAppend(hits[1..], c);
    }
  }

  /** The part of one peer's state that the handlers read or write. */
  datatype State = State(
    coins: seq<Coin>,
    playerX: int,
    playerY: int,
    score: int,
    go: bool,
    runCollisionDetection: bool,
    player: int)

  /** One received message: the new state and what is published in response. */
  function Receive(s: State, m: Message): (r: (State, seq<Message>))
    ensures r.0.score == s.score + (if m.BumpScore? then 1 else 0)
    ensures |r.0.coins| <= |s.coins|
    ensures r.0.go == s.go && r.0.runCollisionDetection == s.runCollisionDetection && r.0.player == s.player
    ensures !m.P1Move? ==> r.0.playerX == s.playerX && r.0.playerY == s.playerY
    ensures m.P1Move? ==> r.0.playerX == m.p1X && r.0.playerY == m.p1Y && r.0.coins == s.coins
    ensures m.BumpScore? ==> r.0.coins == s.coins
    ensures m.UpdateCoins? ==> |r.0.coins| == |s.coins|
    ensures !(m.UpdateCoins? && s.runCollisionDetection) ==> r.1 == []
  {
    match m
    case UpdateCoins(updates) =>
      var moved := ApplyBatch(s.coins, updates);
      var out := if s.runCollisionDetection then Announcements(HitList(s.playerX, s.playerY, moved)) else [];
      (s.(coins := moved), out)
    case P1Move(x, y) => (s.(playerX := x, playerY := y), [])
    case RemoveCoin(id) => (s.(coins := IteratedRemoval(s.coins, id)), [])
    case BumpScore(_) => (s.(score := s.score + 1), [])
  }

  /** Collision detection only publishes: with it on, a batch leaves the same local state as
      with it off, and what is published is one remove_coin and one bump_score per coin hit
      after the batch, in hit order. */
  lemma DetectionOnlyPublishes(s: State, updates: seq<seq<int>>)
    ensures Receive(s.(runCollisionDetection := true), UpdateCoins(updates)).0
         == Receive(s.(runCollisionDetection := false), UpdateCoins(updates)).0.(runCollisionDetection := true)
    ensures Receive(s.(runCollisionDetection := true), UpdateCoins(updates)).1
         == Announcements(HitList(s.playerX, s.playerY, ApplyBatch(s.coins, updates)))
  {
  }

  /** Every received message keeps indices unique and removes at most the index it names. */
  lemma ReceiveKeepsUnique(s: State, m: Message)
    requires UniqueIndices(s.coins)
    ensures UniqueIndices(Receive(s, m).0.coins)
    ensures Ids(Receive(s, m).0.coins) == Ids(s.coins) - (if m.RemoveCoin? then {m.coin} else {})
  {
    match m
    case UpdateCoins(updates) => BatchKeepsIds(s.coins, updates);
    case RemoveCoin(id) => RemovalKeepsUnique(s.coins, id);
    case P1Move(_, _) =>
    case BumpScore(_) =>
  }

  /** With detection on, every coin the player touches after the batch is announced, and
      once its remove_coin comes back no coin with that index is hit again. */
  lemma DetectThenRemove(s: State, updates: seq<seq<int>>, c: Coin)
    requires UniqueIndices(s.coins) && s.runCollisionDetection
    requires c in Receive(s, UpdateCoins(updates)).0.coins && Overlaps(s.playerX, s.playerY, c)
    ensures var r := Receive(s, UpdateCoins(updates));
      && RemoveCoin(c.myIndex) in r.1
      && forall h :: h in HitList(r.0.playerX, r.0.playerY, Receive(r.0, RemoveCoin(c.myIndex)).0.coins) ==>
           h.myIndex != c.myIndex
  {
    var r := Receive(s, UpdateCoins(updates));
    var hits := HitList(s.playerX, s.playerY, r.0.coins);
    var k :| 0 <= k < |hits| && hits[k] == c;
    AnnouncementsAt(hits, k);
    assert r.1[2 * k] == RemoveCoin(c.myIndex);
    BatchKeepsIds(s.coins, updates);
    RemovalKeepsUnique(r.0.coins, c.myIndex);
    var after := Receive(r.0, RemoveCoin(c.myIndex)).0.coins;
    forall h | h in HitList(r.0.playerX, r.0.playerY, after) ensures h.myIndex != c.myIndex {
      assert h.myIndex in Ids(after);
    }
  }

  /** The state after receiving a stream of messages one at a time, in order. */
  function Run(s: State, ms: seq<Message>): State
    decreases |ms|
  {
    if ms == [] then s else Run(Receive(s, ms[0]).0, ms[1..])
  }

  /** How many bump_score messages a stream holds. */
  function Bumps(ms: seq<Message>): nat
  {
    if ms == [] then 0 else (if ms[0].BumpScore? then 1 else 0) + Bumps(ms[1..])
  }

  /** The indices named by the stream's remove_coin messages. */
  function RemovedIds(ms: seq<Message>): set<int>
  {
    set m | m in ms && m.RemoveCoin? :: m.coin
  }

  /** Only bump_score moves the score, by one each, whatever its payload. */
  lemma {:induction false} RunScore(s: State, ms: seq<Message>)
    ensures Run(s, ms).score == s.score + Bumps(ms)
    decreases |ms|
  {
    if ms != [] {
      RunScore(Receive(s, ms[0]).0, ms[1..]);
    }
  }

  /** Along any stream indices stay unique and the surviving identities are the initial ones
      minus those some remove_coin named; the coin count never grows. */
  lemma {:induction false} RunIds(s: State, ms: seq<Message>)
    requires UniqueIndices(s.coins)
    ensures UniqueIndices(Run(s, ms).coins)
    ensures Ids(Run(s, ms).coins) == Ids(s.coins) - RemovedIds(ms)
    ensures |Run(s, ms).coins| <= |s.coins|
    decreases |ms|
  {
    if ms != [] {
      var next := Receive(s, ms[0]).0;
      ReceiveKeepsUnique(s, ms[0]);
      RunIds(next, ms[1..]);
      assert ms == [ms[0]] + ms[1..];
      assert RemovedIds(ms) == RemovedIds(ms[1..]) + (if ms[0].RemoveCoin? then {ms[0].coin} else {});
    }
  }

  lemma {:induction false} BumpsAppend(a: seq<Message>, b: seq<Message>)
    ensures Bumps(a + b) == Bumps(a) + Bumps(b)
    decreases |a|
  {
    if a == [] {
      assert a + b == b;
    } else {
      assert (a + b)[1..] == a[1..] + b;
      BumpsAppend(a[1..], b);
    }
  }

  /** Taking the message at position k out of a stream takes its bump out of the count. */
  lemma BumpsRemoveAt(b: seq<Message>, k: nat)
    requires k < |b|
    ensures Bumps(b) == (if b[k].BumpScore? then 1 else 0) + Bumps(b[..k] + b[k + 1..])
  {
    assert b == b[..k] + ([b[k]] + b[k + 1..]);
    BumpsAppend(b[..k], [b[k]] + b[k + 1..]);
    BumpsAppend([b[k]], b[k + 1..]);
    BumpsAppend(b[..k], b[k + 1..]);
  }

  lemma MultisetRemoveAt(b: seq<Message>, k: nat)
    requires k < |b|
    ensures multiset(b[..k] + b[k + 1..]) == multiset(b) - multiset{b[k]}
  {
    assert b == b[..k] + [b[k]] + b[k + 1..];
  }

  /** The number of bumps depends only on which messages arrived, not on their order. */
  lemma {:induction false} BumpsOfPermutation(a: seq<Message>, b: seq<Message>)
    requires multiset(a) == multiset(b)
    ensures Bumps(a) == Bumps(b)
    decreases |a|
  {
    if a == [] {
      assert |b| == |multiset(b)| == 0;
    } else {
      assert a[0] in multiset(b);
      var k :| 0 <= k < |b| && b[k] == a[0];
      MultisetRemoveAt(a, 0);
      MultisetRemoveAt(b, k);
      assert a[..0] + a[1..] == a[1..];
      BumpsOfPermutation(a[1..], b[..k] + b[k + 1..]);
      BumpsRemoveAt(b, k);
    }
  }

  /** Two peers that start with the same identities and score and receive the same messages,
      in any order, agree on the score and on which coins are left. Positions may differ. */
  lemma Convergence(s1: State, s2: State, ms1: seq<Message>, ms2: seq<Message>)
    requires UniqueIndices(s1.coins) && UniqueIndices(s2.coins)
    requires Ids(s1.coins) == Ids(s2.coins) && s1.score == s2.score
    requires multiset(ms1) == multiset(ms2)
    ensures Run(s1, ms1).score == Run(s2, ms2).score
    ensures Ids(Run(s1, ms1).coins) == Ids(Run(s2, ms2).coins)
  {
    RunScore(s1, ms1);
    RunScore(s2, ms2);
    BumpsOfPermutation(ms1, ms2);
    RunIds(s1, ms1);
    RunIds(s2, ms2);
    assert forall m :: m in ms1 <==> m in ms2 by {
      forall m ensures m in ms1 <==> m in ms2 {
        assert m in ms1 <==> m in multiset(ms1);
        assert m in ms2 <==> m in multiset(ms2);
      }
    }
    assert RemovedIds(ms1) == RemovedIds(ms2);
  }
}
