# p2p_arcade: the peer-to-peer coin game, modelled in Dafny

Two copies of the arcade game talk over a publish/subscribe bus. One peer, player 0, moves
the coins. The other peer, player 1, moves a player sprite with the mouse. Each peer's
`MyGame` window reacts to four topics:

- `update_coins` carries a batch of coin positions.
- `p1_move` carries the player position.
- `remove_coin` carries a coin index.
- `bump_score` adds a point.

Collision detection runs after a batch is applied. It does not change the local state. It
only publishes a `remove_coin` and a `bump_score` for each coin hit. Both peers, the
detecting one included, change their coin list and score only when those messages arrive.

The model has five modules:

- `Coins` (coins.dfy): the coin record, the screen constants and the bounce. It also holds
  the batch a peer publishes (`Snapshot`) and the batch a peer applies (`ApplyBatch`).
- `Removal` (removal.dfy): the `remove_coin` loop. The loop deletes from the list it is
  iterating over.
- `Collision` (collision.dfy): the hit list, as axis-aligned boxes around the sprite centres.
- `Protocol` (protocol.dfy): the message type and `Receive`, one peer's transition for one
  inbound message. `Run` folds `Receive` over a message stream. The lemmas about streams
  are here, including convergence of score and surviving coins.
- `Game` (game.dfy): the class `MyGame`. Its fields are updated in place and it publishes
  by appending to an `outbox`. Its message handler is proved to make exactly the
  transition `Protocol.Receive` describes.

Coordinates and velocities are integers. Sprite edges are `center ± half extent`. The half
extents come from the texture sizes at the game's sprite scaling: 13 by 13 for a coin and
24 by 32 for the player.

Behaviour of the code that the model keeps as written:

- Batches are applied by list position, not by coin index. Once one peer has removed a coin
  and the other has not, entry i lands on a different coin (`Coins.RemovalShiftsBatch`).
- `bump_score` adds 1 and ignores its `bump` field.
- A batch entry with a single number writes `center_x` and then fails on `center_y`. The
  exception is caught, so the coin keeps the new `center_x` and is not bounced. An empty
  entry, or an entry past the end of the coin list, changes nothing.
- `remove_coin` deletes while iterating, so the coin after a deleted one is never tested.
  This matters only if two adjacent coins share an index (`Removal.AdjacentDuplicateSurvives`).
  Indices are unique from `setup` on, and there the loop is a plain filter.
- `on_update` publishes a batch whenever `go` is set, even an empty one.
- The detecting peer keeps a hit coin until its own `remove_coin` comes back. A batch
  received in between announces the coin again, with another `bump_score`.
- With these sprite sizes, a coin cannot cross both edges of one axis at once. So each
  velocity component flips at most once per entry (`Coins.BounceFlipsOnAnyBreach`), even
  though the four edge tests are independent.

## Model

| member | source | states |
|---|---|---|
| Coins.Bounce | p2p_arcade/p2p_arcade.py:324-335 | position and index unchanged; each velocity component negated exactly when one (not both) of its two edge tests fires; speeds unchanged |
| Coins.BounceFlipsOnAnyBreach | p2p_arcade/p2p_arcade.py:324-335 | with the coin narrower and lower than the screen, a component flips exactly when either of its edges is crossed |
| Coins.MoveCoin | p2p_arcade/p2p_arcade.py:318-340 | new centre = received position + the coin's own velocity read before the bounce; index kept; speeds kept; an empty entry changes nothing and a one-number entry writes only center_x |
| Coins.ApplyBatch | p2p_arcade/p2p_arcade.py:316-340 | coin count and every index kept position by position; coins past the batch untouched; entries past the coin list skipped; positions as received plus own velocity |
| Coins.BatchKeepsIds | p2p_arcade/p2p_arcade.py:316-340 | a batch never changes which coin indices exist and keeps them unique |
| Coins.Snapshot | p2p_arcade/p2p_arcade.py:257-258 | one [center_x, center_y] entry per coin, in list order |
| Coins.SnapshotRoundTrip | p2p_arcade/p2p_arcade.py:317-322 | a receiver aligned with the sender ends at the sender's published position plus its own velocity, index for index |
| Coins.RemovalShiftsBatch | p2p_arcade/p2p_arcade.py:317-322 | after the sender removed the coin at position p, the receiver's coin p takes coin p+1's position and its last coin is not updated |
| Removal.Without | p2p_arcade/p2p_arcade.py:369-371 | reference filter: exactly the coins with another index, no longer than the input, the input itself when the index is absent |
| Removal.IteratedRemoval | p2p_arcade/p2p_arcade.py:369-371 | the delete-while-iterating scan never adds a coin and never grows the list |
| Removal.AdjacentDuplicateSurvives | p2p_arcade/p2p_arcade.py:369-371 | of two adjacent coins with the same index only the first is deleted |
| Removal.RemovalIsFilterWhenUnique | p2p_arcade/p2p_arcade.py:366-371 | with unique indices the scan equals the filter: the matching coin goes and the rest stay in order |
| Removal.RemovalKeepsUnique | p2p_arcade/p2p_arcade.py:366-371 | removal keeps indices unique and removes exactly the named index from the identities |
| Removal.RemovalOfAbsentIsNoOp | p2p_arcade/p2p_arcade.py:369-371 | an index no coin carries leaves the list unchanged |
| Removal.RemovalIdempotent | p2p_arcade/p2p_arcade.py:366-371 | a duplicated remove_coin has the effect of one |
| Collision.HitList | p2p_arcade/p2p_arcade.py:344-345 | the hit list holds exactly the coins whose box overlaps the player's, never more coins than the list |
| Protocol.Announcements | p2p_arcade/p2p_arcade.py:347-359 | two published messages per hit coin |
| Protocol.AnnouncementsAt | p2p_arcade/p2p_arcade.py:348-359 | message 2k is remove_coin with hit k's index and message 2k+1 is bump_score 1 |
| Protocol.Receive | p2p_arcade/p2p_arcade.py:311-374 | only bump_score changes the score, by 1 whatever its payload; the coin count never grows; p1_move sets the player centre and nothing else; flags unchanged; only update_coins with detection on publishes |
| Protocol.DetectionOnlyPublishes | p2p_arcade/p2p_arcade.py:343-359 | detection leaves the same local state as no detection and publishes remove_coin then bump_score per hit coin |
| Protocol.ReceiveKeepsUnique | p2p_arcade/p2p_arcade.py:311-374 | every message keeps indices unique and removes at most the index it names |
| Protocol.DetectThenRemove | p2p_arcade/p2p_arcade.py:343-371 | a coin hit after a batch is announced, and after its remove_coin no coin with that index is hit |
| Protocol.RunScore | p2p_arcade/p2p_arcade.py:373-374 | over any stream the score grows by the number of bump_score messages |
| Protocol.RunIds | p2p_arcade/p2p_arcade.py:311-374 | over any stream indices stay unique, the count never grows, and the survivors are the initial indices minus those named by remove_coin |
| Protocol.BumpsOfPermutation | p2p_arcade/p2p_arcade.py:373-374 | reordering a stream does not change its number of bumps |
| Protocol.Convergence | p2p_arcade/p2p_arcade.py:311-374 | two peers with the same identities and score that receive the same messages in any order agree on score and surviving coins |
| Game.MyGame.constructor | p2p_arcade/p2p_arcade.py:110-161 | score 0, both flags off, nothing published, then the state setup makes |
| Game.MyGame.Setup | p2p_arcade/p2p_arcade.py:188-207 | player at (50, 50); 50 coins, the i-th with index i and its seeded position and velocity; indices unique; positions and velocities in the random ranges |
| Game.MyGame.OnMouseMotion | p2p_arcade/p2p_arcade.py:229-232 | publishes p1_move(x, y) only on player 1 and changes nothing else |
| Game.MyGame.OnMousePress | p2p_arcade/p2p_arcade.py:234-241 | left button sets go, right button sets run_collision_detection; neither is ever cleared |
| Game.MyGame.OnUpdate | p2p_arcade/p2p_arcade.py:253-261 | publishes the snapshot batch when go is set, nothing otherwise |
| Game.MyGame.ApplyCoinUpdates | p2p_arcade/p2p_arcade.py:316-340 | the in-place loop leaves the coin list equal to ApplyBatch of the old list |
| Game.MyGame.PublishHits | p2p_arcade/p2p_arcade.py:348-359 | the outbox gains exactly the announcements of the hit list |
| Game.MyGame.RemoveCoinWithIndex | p2p_arcade/p2p_arcade.py:366-371 | the in-place delete-while-iterating loop leaves the list equal to IteratedRemoval of the old list |
| Game.MyGame.IncomingMessageProcessing | p2p_arcade/p2p_arcade.py:300-374 | new state and published messages are those of Receive; score up by 1 only on bump_score; count never grows; uniqueness kept |

## Left out

- Rendering (`on_draw`, the score text) and sprite and texture loading: these belong to the arcade library. The sprite list update in `on_update` is left out too, since the coins' `update` does nothing and the player's velocity is zero.
- `arcade.check_for_collision_with_list` is library code. `Collision.HitList` replaces it with an axis-aligned box overlap of the two sprites.
- Floating-point coordinates: positions and velocities are integers. The half extents are the texture sizes at the game's scaling, rounded.
- `random.randrange` in `setup`: the positions and velocities arrive as seeds, required to lie in the ranges `randrange` draws from.
- Payloads of the wrong type: a `TypeError` caught in the batch loop cannot arise, because entries are sequences of integers. A payload missing its key would raise in the source, and the typed `Message` rules that out.
- The `external_message_processor` hook, the bus transport (`publish_payload`, `receive_loop`, subscriptions), and backplane discovery and spawning (`start_backplane`): all are I/O. Publishing is appended to `outbox`.
- Threads and the lock: each handler is one atomic step, and message delivery order is the order of the stream given to `Run`.
- The `all_sprites_list` copy of each coin: the model keeps only `coin_list`, so removing a coin from both lists becomes removing it from the one.
- Argument parsing, signal handlers and packaging.
