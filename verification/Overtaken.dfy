/**
 * Lines that overtake each other: a response is written after the state lock is released, so a newer
 * notification can be written before it.
 */
module Overtaken {
  import opened Chain
  import opened Convergence
  import opened Fanout
  import opened Model
  import opened Overlooked
  import opened Queries
  import opened Stale
  import opened Status
  import opened Statuses
  import opened Subscriptions
  import opened Wire

  // ---- The order of writing -----------------------------------------------------------------

  function Notes(i: nat, n: nat): (moves: seq<Move>) {
    seq(n, k => WriteNote(i))
  }

  function WriteAll(wire: map<ScriptHash, Option<string>>, notes: seq<Line>): map<ScriptHash, Option<string>>
    decreases |notes|
  {
    if notes == [] then wire else WriteAll(wire[notes[0].0 := notes[0].1], notes[1..])
  }

  lemma {:induction false} WrittenLast(wire: map<ScriptHash, Option<string>>, notes: seq<Line>, sh: ScriptHash)
    ensures NoteFor(notes, sh).Some? ==>
      sh in WriteAll(wire, notes) && WriteAll(wire, notes)[sh] == NoteFor(notes, sh).value
    ensures NoteFor(notes, sh).None? ==> (sh in WriteAll(wire, notes) <==> sh in wire)
    ensures NoteFor(notes, sh).None? && sh in wire ==> WriteAll(wire, notes)[sh] == wire[sh]
    decreases |notes|
  {
    hide NoteFor;
    if notes == [] {
      NoNote(sh);
    } else {
      NoteForTail(notes, sh);
      WrittenLast(wire[notes[0].0 := notes[0].1], notes[1..], sh);
    }
  }

  lemma NoNote(sh: ScriptHash)
    ensures NoteFor([], sh) == None
  {
  }

  lemma {:induction false} NotesWritten(hash: Digest, naming: Naming, start: State, moves: seq<Move>, i: nat)
    requires var w := Ran(hash, naming, start, moves); i < |w.clients| && NotifierFree(w.clients[i])
    ensures var w := Ran(hash, naming, start, moves);
      var c := w.clients[i];
      Ran(hash, naming, start, moves + Notes(i, |c.out.notes|))
      == w.(clients := w.clients[i := c.(out := c.out.(notes := [], wire := WriteAll(c.out.wire, c.out.notes)))])
    decreases |Ran(hash, naming, start, moves).clients[i].out.notes|
  {
    hide Ran;
    var w := Ran(hash, naming, start, moves);
    var c := w.clients[i];
    if c.out.notes == [] {
      assert moves + Notes(i, 0) == moves;
      assert c.out.(notes := [], wire := WriteAll(c.out.wire, [])) == c.out;
      assert w.clients[i := c] == w.clients;
    } else {
      RanNext(hash, naming, start, moves, WriteNote(i));
      var n := |c.out.notes|;
      NotesWritten(hash, naming, start, moves + [WriteNote(i)], i);
      assert moves + [WriteNote(i)] + Notes(i, n - 1) == moves + Notes(i, n);
    }
  }

  /**
   * When both threads of a connection have a line for a script hash to write, the order of writing alone
   * decides which of the two statuses the client is left with.
   */
  lemma CrossedOrders(hash: Digest, naming: Naming, start: State, moves: seq<Move>, i: nat, sh: ScriptHash)
    requires var w := Ran(hash, naming, start, moves);
      && i < |w.clients| && NotifierFree(w.clients[i])
      && ReplyFor(w.clients[i].out, sh).Some? && NoteFor(w.clients[i].out.notes, sh).Some?
    ensures var c := Ran(hash, naming, start, moves).clients[i];
      var notes := Notes(i, |c.out.notes|);
      var late := Ran(hash, naming, start, moves + notes + [WriteReply(i)]);
      var soon := Ran(hash, naming, start, moves + [WriteReply(i)] + notes);
      && i < |late.clients| && AllWritten(late.clients[i].out) && late.clients[i].statuses == c.statuses
      && sh in late.clients[i].out.wire && late.clients[i].out.wire[sh] == ReplyFor(c.out, sh).value
      && i < |soon.clients| && AllWritten(soon.clients[i].out) && soon.clients[i].statuses == c.statuses
      && sh in soon.clients[i].out.wire && soon.clients[i].out.wire[sh] == NoteFor(c.out.notes, sh).value
  {
    hide Ran, NoteFor, WriteAll, Notes;
    var c := Ran(hash, naming, start, moves).clients[i];
    var notes := Notes(i, |c.out.notes|);
    NotesWritten(hash, naming, start, moves, i);
    RanNext(hash, naming, start, moves + notes, WriteReply(i));
    RanNext(hash, naming, start, moves, WriteReply(i));
    var c1 := Ran(hash, naming, start, moves + [WriteReply(i)]).clients[i];
    NotesWritten(hash, naming, start, moves + [WriteReply(i)], i);
    WrittenLast(c1.out.wire, c1.out.notes, sh);
  }

  // ---- A run --------------------------------------------------------------------------------

  /**
   * A client subscribes to an unused script hash, its response is not written at once, a block pays the
   * script hash, the notification is written, and only then the response.
   */
  function OvertakenMoves(id: Txid, sh: ScriptHash): seq<Move> {
    EarlyMoves(0, sh, [], []) + FollowMoves(BlockConnected([Coinbase(id, sh)], 1), [TxEntry(id, 1, 0)])
    + [WriteNote(0)] + [WriteReply(0)]
  }

  lemma MovedNoted(hash: Digest, s: Server, c: Client, sh: ScriptHash, id: Txid)
    requires c.work == [sh] && !c.asking && c.statuses == map[sh := None]
    requires c.out == Outgoing(Some((sh, None)), [], map[], {})
    ensures var c' := MempoolRead(hash, HistoryRead(s, c, [TxEntry(id, 1, 0)]), []);
      var status := StatusHash(hash, [TxEntry(id, 1, 0)], []);
      c' == c.(statuses := map[sh := status], work := [], half := None, late := c'.late,
               out := Outgoing(Some((sh, None)), [(sh, status)], map[], {sh}))
  {
    assert MempoolPairs([]) == [];
    assert NoteFor([], sh) == None;
  }

  /** Both lines are unwritten, the response with the older status. */
  lemma Overtaking(hash: Digest, start: State, first: Txid, id: Txid, sh: ScriptHash)
    requires Unused(start, sh) && id != first
    ensures var block, h := [Coinbase(id, sh)], [TxEntry(id, 1, 0)];
      var e := BlockConnected(block, 1);
      var w := Ran(hash, CoinbaseNaming(first, sh, sh), start, EarlyMoves(0, sh, [], []) + FollowMoves(e, h));
      var status := StatusHash(hash, h, []);
      && w.server == Server(Connect(start, block, 1), [e], 1, []) && AtEase(w.(clients := [Unnoted(w)]), sh)
      && w.clients == [Unnoted(w).(out := Outgoing(Some((sh, None)), [(sh, status)], map[], {sh}))]
      && Unnoted(w).statuses == map[sh := status] && Unnoted(w).conduct == Conduct(true, true, true, false)
  {
    hide Ran, Connect, Current, HistoryNow, IsMempool, EarlyMoves, Coinbase, Unused, MempoolRead, HistoryRead,
         StatusHash, Subscribed;
    var naming, early := CoinbaseNaming(first, sh, sh), EarlyMoves(0, sh, [], []);
    var e, h := BlockConnected([Coinbase(id, sh)], 1), [TxEntry(id, 1, 0)];
    CoinbaseNamed(first, sh, id, sh);
    Booted(hash, naming, start);
    UnusedAnswers(start, sh);
    EarlyRun(hash, naming, start, [], sh, [], []);
    EarlyLookedUp(hash, Boot(start).server, sh, [], []);
    NoneEmpty(hash);
    assert [] + early == early;
    FollowTaken(hash, naming, start, early, [Coinbase(id, sh)], 1, sh);
    var taken := early + [Emit(e)] + [Move.Index] + [TakeBlock(0)];
    var w := Ran(hash, naming, start, taken);
    FirstPaid(start, sh, id, 1);
    ReadOnce(hash, naming, start, taken, 0, h, []);
    MovedNoted(hash, w.server, w.clients[0], sh, id);
    assert taken + [ReadHistory(0, h)] + [ReadMempool(0, [])] == early + FollowMoves(e, h);
  }

  /** The first client, as if nothing were left to write. */
  function Unnoted(w: World): Client {
    if w.clients == [] then Joined(w.server) else w.clients[0].(out := NOTHING_SENT)
  }

  /**
   * Everything is drained, the client connected in time and took every event once handled, its record is
   * current, and the last line it got is not.
   */
  lemma ReplyOvertaken(hash: Digest, start: State, first: Txid, id: Txid, sh: ScriptHash)
    requires Unused(start, sh) && id != first
    ensures var w := Ran(hash, CoinbaseNaming(first, sh, sh), start, OvertakenMoves(id, sh));
      && Drained(w) && |w.clients| == 1 && w.clients[0].subs == [sh] && sh in w.clients[0].statuses
      && w.clients[0].conduct == Conduct(true, true, true, false)
      && Current(hash, w.server.st, sh, w.clients[0].statuses[sh])
      && w.clients[0].out.wire == map[sh := None] && !Current(hash, w.server.st, sh, None)
  {
    hide Ran, Connect, Current, HistoryNow, IsMempool, EarlyMoves, FollowMoves, Coinbase, Unused, StatusHash;
    var naming, e, h := CoinbaseNaming(first, sh, sh), BlockConnected([Coinbase(id, sh)], 1), [TxEntry(id, 1, 0)];
    var read := EarlyMoves(0, sh, [], []) + FollowMoves(e, h);
    Overtaking(hash, start, first, id, sh);
    RanNext(hash, naming, start, read, WriteNote(0));
    RanNext(hash, naming, start, read + [WriteNote(0)], WriteReply(0));
    FirstPaid(start, sh, id, 1);
    StatusIsCurrent(hash, Connect(start, [Coinbase(id, sh)], 1), sh, h);
    NoneStale(hash, start, sh, id, 1);
  }

  lemma NoneEmpty(hash: Digest)
    ensures StatusHash(hash, [], MempoolPairs([])) == None
  {
  }

  lemma StatusIsCurrent(hash: Digest, st: State, sh: ScriptHash, h: seq<TxEntry>)
    requires HistoryNow(st, sh, h) && MempoolNow(st, sh, [])
    ensures Current(hash, st, sh, StatusHash(hash, h, []))
  {
    MempoolPairsNow(st, sh, []);
    assert MempoolPairs([]) == [];
  }
}
