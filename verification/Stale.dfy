/** Drained runs with a stale record: a client that joins too early, and one served events out of order. */
module Stale {
  import opened Announce
  import opened Chain
  import opened Confirmed
  import opened Convergence
  import opened Fanout
  import opened Model
  import opened Overlooked
  import opened Queries
  import opened Status
  import opened Statuses
  import opened Subscriptions
  import opened Waiting
  import opened Wire

  // ---- Two blocks ---------------------------------------------------------------------------

  function Coinbase(id: Txid, sh: ScriptHash): Tx {
    Tx(id, [NULL_OUTPOINT], [TxOut(sh, 1)], 1)
  }

  /** The first transaction pays `other`, every further one `sh`. */
  function CoinbaseNaming(first: Txid, other: ScriptHash, sh: ScriptHash): Naming {
    id => Body([NULL_OUTPOINT], [TxOut(if id == first then other else sh, 1)])
  }

  lemma CoinbaseApplied(ix: Index, id: Txid, sh: ScriptHash, height: nat)
    ensures Apply(ix, [Coinbase(id, sh)], height).history == Append(ix.history, sh, TxEntry(id, height, 0))
  {
    var tx := Coinbase(id, sh);
    var items := [TxItem(id), InItem(id, 0, NULL_OUTPOINT), OutItem(id, 0, TxOut(sh, 1))];
    assert [tx][..0] == [];
    assert Items([tx]) == items;
    assert items[..2][..1][..0] == [] && items[..2][..1] == items[..1];
    var c := Cursor(ix, 0);
    assert Steps(c, height, items[..1]).ix.history == ix.history;
    assert Steps(c, height, items[..2]).ix.history == ix.history;
  }

  /** A server state without pending transactions and without confirmed history of `sh`. */
  ghost predicate Unused(st: State, sh: ScriptHash) {
    st.pool == map[] && Get(st.ix.history, sh) == []
  }

  lemma UnusedAnswers(st: State, sh: ScriptHash)
    requires Unused(st, sh)
    ensures HistoryNow(st, sh, []) && MempoolNow(st, sh, [])
  {
    assert PoolHistory(map[], st.ix.outputs, sh) == {} && MempoolEntries(map[], st.ix.outputs, sh) == {};
  }

  lemma FirstPaid(st: State, sh: ScriptHash, id: Txid, height: nat)
    requires Unused(st, sh)
    ensures var st' := Connect(st, [Coinbase(id, sh)], height);
      HistoryNow(st', sh, [TxEntry(id, height, 0)]) && MempoolNow(st', sh, []) && st'.ix.tip == height
  {
    hide Apply, Unlist, Txids, StoreAll;
    CoinbaseApplied(st.ix, id, sh, height);
    var st' := Connect(st, [Coinbase(id, sh)], height);
    assert st'.pool == map[];
    assert PoolHistory(map[], st'.ix.outputs, sh) == {} && MempoolEntries(map[], st'.ix.outputs, sh) == {};
    AppliedTip(st.ix, [Coinbase(id, sh)], height);
  }

  lemma AppliedTip(ix: Index, block: Block, height: nat)
    ensures Apply(ix, block, height).tip == height
  {
  }

  lemma OtherPaid(st: State, sh: ScriptHash, id: Txid, other: ScriptHash, height: nat)
    requires Unused(st, sh) && sh != other
    ensures var st' := Connect(st, [Coinbase(id, other)], height); Unused(st', sh) && st'.ix.tip == height
  {
    hide Apply, Unlist, Txids, StoreAll;
    CoinbaseApplied(st.ix, id, other, height);
    AppliedTip(st.ix, [Coinbase(id, other)], height);
  }

  /** What a script hash without activity has is no longer its status once it is paid. */
  lemma NoneStale(hash: Digest, st: State, sh: ScriptHash, id: Txid, height: nat)
    requires Unused(st, sh)
    ensures !Current(hash, Connect(st, [Coinbase(id, sh)], height), sh, None)
  {
    hide Apply, Unlist, Txids, StoreAll;
    var st' := Connect(st, [Coinbase(id, sh)], height);
    CoinbaseApplied(st.ix, id, sh, height);
    forall h, ps | HistoryNow(st', sh, h) && PairsNow(st', sh, ps) ensures StatusHash(hash, h, ps) != None {
      assert Get(st'.ix.history, sh)[0] in multiset(h);
    }
  }

  lemma CoinbaseNamed(first: Txid, other: ScriptHash, id: Txid, sh: ScriptHash)
    requires id != first
    ensures BlockNamed(CoinbaseNaming(first, other, sh), [Coinbase(first, other)])
    ensures BlockNamed(CoinbaseNaming(first, other, sh), [Coinbase(id, sh)])
  {
  }

  // ---- One client ---------------------------------------------------------------------------

  /** The only client has one subscription and nothing to take or to look up. */
  predicate AtEase(w: World, sh: ScriptHash) {
    && |w.clients| == 1
    && var c := w.clients[0];
       && c.seen == |w.server.log| && c.inbox == [] && c.subs == [sh] && c.work == [] && !c.asking && c.half.None?
       && c.out.notes == []
  }

  /** And its status is recorded and written. */
  predicate Resting(w: World, sh: ScriptHash, status: Option<string>) {
    && AtEase(w, sh)
    && w.clients[0].statuses == map[sh := status] && w.clients[0].out == Outgoing(None, [], map[sh := status], {})
  }

  lemma Booted(hash: Digest, naming: Naming, start: State)
    ensures Ran(hash, naming, start, []) == Boot(start)
  {
  }

  /** A client that joins a server without others is answered for an unused script hash. */
  lemma FirstAnswered(hash: Digest, naming: Naming, start: State, moves: seq<Move>, sh: ScriptHash)
    requires var w := Ran(hash, naming, start, moves); w.clients == [] && Unused(w.server.st, sh)
    ensures var w, w' := Ran(hash, naming, start, moves),
                         Ran(hash, naming, start, moves + EarlyMoves(0, sh, [], []) + [WriteReply(0)]);
      && w'.server == w.server && Resting(w', sh, None) && w'.clients[0].conduct == Joined(w.server).conduct
  {
    hide Ran, HistoryNow, MempoolNow, MempoolRead, HistoryRead, Subscribed, Joined, Unused, EarlyMoves, Current;
    var w := Ran(hash, naming, start, moves);
    UnusedAnswers(w.server.st, sh);
    EarlyRun(hash, naming, start, moves, sh, [], []);
    EarlyLookedUp(hash, w.server, sh, [], []);
    RanNext(hash, naming, start, moves + EarlyMoves(0, sh, [], []), WriteReply(0));
  }

  /** A block that the client takes after it was handled, looking its subscription up again. */
  function FollowMoves(e: SourceEvent, h: seq<TxEntry>): seq<Move> {
    [Emit(e)] + [Move.Index] + [TakeBlock(0)] + [ReadHistory(0, h)] + [ReadMempool(0, [])]
  }

  lemma FollowTaken(hash: Digest, naming: Naming, start: State, moves: seq<Move>, block: Block, height: nat,
                    sh: ScriptHash)
    requires var w := Ran(hash, naming, start, moves);
      AtEase(w, sh) && w.server.applied == |w.server.log| && BlockNamed(naming, block)
    ensures var w := Ran(hash, naming, start, moves);
      var w' := Ran(hash, naming, start, moves + [Emit(BlockConnected(block, height))] + [Move.Index] + [TakeBlock(0)]);
      && w'.server == Server(Connect(w.server.st, block, height), w.server.log + [BlockConnected(block, height)],
                             w.server.applied + 1, w.server.unsent)
      && |w'.clients| == 1
      && w'.clients[0] == w.clients[0].(seen := |w'.server.log|, work := [sh],
           conduct := Conduct(w.clients[0].conduct.prompt, w.clients[0].conduct.patient, w.clients[0].conduct.waited,
                              false))
  {
    hide Ran, Connect, BlockNamed, BlockNewsIn, Ready;
    var e := BlockConnected(block, height);
    var w := Ran(hash, naming, start, moves);
    RanNext(hash, naming, start, moves, Emit(e));
    RanNext(hash, naming, start, moves + [Emit(e)], Move.Index);
    var w2 := Ran(hash, naming, start, moves + [Emit(e)] + [Move.Index]);
    assert w2.server == Server(Connect(w.server.st, block, height), w.server.log + [e], w.server.applied + 1,
                               w.server.unsent);
    RanNext(hash, naming, start, moves + [Emit(e)] + [Move.Index], TakeBlock(0));
  }

  lemma NothingMoved(hash: Digest, s: Server, c: Client, sh: ScriptHash)
    requires c.work == [sh] && !c.asking && c.statuses == map[sh := None]
    ensures var c' := MempoolRead(hash, HistoryRead(s, c, []), []);
      c' == c.(work := [], half := None, late := c'.late)
  {
    assert MempoolPairs([]) == [];
  }

  // ---- A client that joins too early --------------------------------------------------------

  /** The first payment to a script hash is broadcast, a client subscribes, and only then it is indexed. */
  function EarlyRunMoves(tx: Tx, height: nat, sh: ScriptHash): seq<Move> {
    [Emit(BlockConnected([tx], height))] + EarlyMoves(0, sh, [], []) + [WriteReply(0)] + [Move.Index]
  }

  lemma LastHandled(hash: Digest, naming: Naming, start: State, moves: seq<Move>, sh: ScriptHash,
                    status: Option<string>)
    requires var w := Ran(hash, naming, start, moves);
      && Resting(w, sh, status) && w.server.unsent == [] && w.server.log != []
      && w.server.applied == |w.server.log| - 1
    ensures var w, w' := Ran(hash, naming, start, moves), Ran(hash, naming, start, moves + [Move.Index]);
      && Drained(w') && w'.clients == w.clients
      && w'.server.st == Handled(w.server.st, w.server.log[w.server.applied])
  {
    hide Ran, Handled;
    RanNext(hash, naming, start, moves, Move.Index);
  }

  lemma EarlySubscriberStale(hash: Digest, start: State, first: Txid, other: ScriptHash, id: Txid, sh: ScriptHash,
                             height: nat)
    requires Unused(start, sh) && id != first
    ensures var w := Ran(hash, CoinbaseNaming(first, other, sh), start, EarlyRunMoves(Coinbase(id, sh), height, sh));
      && Drained(w) && |w.clients| == 1 && w.clients[0].subs == [sh]
      && w.clients[0].statuses == map[sh := None] && w.clients[0].out.wire == map[sh := None]
      && !Current(hash, w.server.st, sh, None)
  {
    hide Ran, Connect, Current, Drained, EarlyMoves, Coinbase, Unused, Joined;
    var tx, naming := Coinbase(id, sh), CoinbaseNaming(first, other, sh);
    var e := Emit(BlockConnected([tx], height));
    CoinbaseNamed(first, other, id, sh);
    Booted(hash, naming, start);
    RanNext(hash, naming, start, [], e);
    assert [] + [e] == [e];
    FirstAnswered(hash, naming, start, [e], sh);
    LastHandled(hash, naming, start, [e] + EarlyMoves(0, sh, [], []) + [WriteReply(0)], sh, None);
    NoneStale(hash, start, sh, id, height);
  }

  // ---- Events out of order ------------------------------------------------------------------

  /** A client joins at the start and follows a block at height 1 that pays somebody else. */
  function CalmMoves(first: Tx, sh: ScriptHash): seq<Move> {
    EarlyMoves(0, sh, [], []) + [WriteReply(0)] + FollowMoves(BlockConnected([first], 1), [])
  }

  lemma Calm(hash: Digest, start: State, first: Txid, other: ScriptHash, id: Txid, sh: ScriptHash)
    requires Unused(start, sh) && id != first && sh != other
    ensures var w := Ran(hash, CoinbaseNaming(first, other, sh), start, CalmMoves(Coinbase(first, other), sh));
      && w.server == Server(Connect(start, [Coinbase(first, other)], 1), [BlockConnected([Coinbase(first, other)], 1)],
                            1, [])
      && Resting(w, sh, None) && w.clients[0].conduct == Conduct(true, true, true, false)
  {
    hide Ran, Connect, Current, HistoryNow, IsMempool, EarlyMoves, Coinbase, Unused, MempoolRead, HistoryRead;
    var naming, block := CoinbaseNaming(first, other, sh), [Coinbase(first, other)];
    var joined, e := EarlyMoves(0, sh, [], []) + [WriteReply(0)], BlockConnected(block, 1);
    CoinbaseNamed(first, other, id, sh);
    Booted(hash, naming, start);
    FirstAnswered(hash, naming, start, [], sh);
    assert [] + EarlyMoves(0, sh, [], []) + [WriteReply(0)] == joined;
    FollowTaken(hash, naming, start, joined, block, 1, sh);
    var taken := joined + [Emit(e)] + [Move.Index] + [TakeBlock(0)];
    var w := Ran(hash, naming, start, taken);
    OtherPaid(start, sh, first, other, 1);
    UnusedAnswers(w.server.st, sh);
    ReadOnce(hash, naming, start, taken, 0, [], []);
    NothingMoved(hash, w.server, w.clients[0], sh);
    assert taken + [ReadHistory(0, [])] + [ReadMempool(0, [])] == joined + FollowMoves(e, []);
  }

  /** Then a second block at height 1 arrives before the disconnect of the first. */
  function UnorderedMoves(first: Tx, tx: Tx, sh: ScriptHash): seq<Move> {
    CalmMoves(first, sh) + HastyMoves(0, BlockConnected([tx], 1)) + [ReadHistory(0, [])] + [ReadMempool(0, [])]
    + [Move.Index]
  }

  /** A client that connected in time and waited for every event is stale when events arrive out of order. */
  lemma UnorderedStale(hash: Digest, start: State, first: Txid, other: ScriptHash, id: Txid, sh: ScriptHash)
    requires Unused(start, sh) && id != first && sh != other
    requires Consistent(CoinbaseNaming(first, other, sh), start)
    ensures var w := Ran(hash, CoinbaseNaming(first, other, sh), start,
                         UnorderedMoves(Coinbase(first, other), Coinbase(id, sh), sh));
      && Drained(w) && |w.clients| == 1 && w.clients[0].subs == [sh]
      && w.clients[0].statuses == map[sh := None] && w.clients[0].out.wire == map[sh := None]
      && w.clients[0].conduct.prompt && w.clients[0].conduct.waited
      && !Current(hash, w.server.st, sh, None)
  {
    hide Ran, Connect, Current, Drained, HistoryNow, IsMempool, CalmMoves, HastyMoves, Coinbase, Unused, MempoolRead,
         HistoryRead, Consistent;
    var naming, calm := CoinbaseNaming(first, other, sh), CalmMoves(Coinbase(first, other), sh);
    var e := BlockConnected([Coinbase(id, sh)], 1);
    CoinbaseNamed(first, other, id, sh);
    Calm(hash, start, first, other, id, sh);
    OtherPaid(start, sh, first, other, 1);
    NothingTold(sh);
    HastyTaken(hash, naming, start, calm, 0, e, sh);
    var taken := calm + HastyMoves(0, e);
    var w := Ran(hash, naming, start, taken);
    UnusedAnswers(w.server.st, sh);
    ReadOnce(hash, naming, start, taken, 0, [], []);
    NothingMoved(hash, w.server, w.clients[0], sh);
    LastHandled(hash, naming, start, taken + [ReadHistory(0, [])] + [ReadMempool(0, [])], sh, None);
    NoneStale(hash, Connect(start, [Coinbase(first, other)], 1), sh, id, 1);
  }
}
