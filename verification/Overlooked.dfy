/**
 * What happens to a status that was read too early: nothing corrects it any more, and it is current after
 * catching up exactly when the events in between left the answers of its script hash as they were.
 */
module Overlooked {
  import opened Announce
  import opened Chain
  import opened Convergence
  import opened Fanout
  import opened Model
  import opened Notify
  import opened Queries
  import opened Sorting
  import opened Status
  import opened Statuses
  import opened Subscriptions
  import opened Waiting
  import opened Wire

  // ---- When a status is current again -------------------------------------------------------

  /** The confirmed part of what a client sees: the (txid, height) pairs in order. */
  function ConfirmedPairs(st: State, sh: ScriptHash): seq<Entry> {
    HistoryPairs(SortBy(Get(st.ix.history, sh), EntryKey))
  }

  /** Both states show a client the same confirmed pairs and the same pending entries. */
  ghost predicate AnswersAlike(st: State, st': State, sh: ScriptHash) {
    && ConfirmedPairs(st, sh) == ConfirmedPairs(st', sh)
    && Entries(st.pool, st.ix.outputs, sh) == Entries(st'.pool, st'.ix.outputs, sh)
  }

  ghost predicate MempoolNow(st: State, sh: ScriptHash, m: seq<MempoolEntry>) {
    IsMempool(st.pool, st.ix.outputs, sh, m)
  }

  function StatusText(h: seq<TxEntry>, m: seq<MempoolEntry>): string {
    Text(HistoryPairs(h) + MempoolPairs(m))
  }

  /** The texts of the answers of the two states do not collide. */
  ghost predicate NoCollision(hash: Digest, st: State, st': State, sh: ScriptHash) {
    forall h, m, h', m' |
      HistoryNow(st, sh, h) && MempoolNow(st, sh, m) && HistoryNow(st', sh, h') && MempoolNow(st', sh, m') ::
      hash(StatusText(h, m)) == hash(StatusText(h', m')) ==> StatusText(h, m) == StatusText(h', m')
  }

  /** Confirmed heights are above 0 and below the largest u32. */
  ghost predicate HeightsFit(st: State, sh: ScriptHash) {
    HeightsBelow(Get(st.ix.history, sh), U32_MAX) && forall e | e in Get(st.ix.history, sh) :: e.height > 0
  }

  /** A status is made from some pair of answers. */
  lemma CurrentAnswers(hash: Digest, st: State, sh: ScriptHash, status: Option<string>)
    returns (h: seq<TxEntry>, m: seq<MempoolEntry>)
    requires Current(hash, st, sh, status)
    ensures HistoryNow(st, sh, h) && MempoolNow(st, sh, m)
    ensures status == StatusHash(hash, h, MempoolPairs(m))
  {
    hide HistoryNow, PairsNow, IsMempool, StatusHash, MempoolPairs;
    var ps;
    h, ps :| HistoryNow(st, sh, h) && PairsNow(st, sh, ps) && status == StatusHash(hash, h, ps);
    m := MempoolExists(st, sh);
    MempoolPairsNow(st, sh, m);
    PairsUnique(st, sh, ps, MempoolPairs(m));
  }

  lemma SameStatusText(hash: Digest, h: seq<TxEntry>, m: seq<MempoolEntry>, h': seq<TxEntry>, m': seq<MempoolEntry>)
    requires hash(StatusText(h, m)) == hash(StatusText(h', m')) ==> StatusText(h, m) == StatusText(h', m')
    requires StatusHash(hash, h, MempoolPairs(m)) == StatusHash(hash, h', MempoolPairs(m'))
    ensures Preimage(h, m) == Preimage(h', m')
  {
    hide Text;
  }

  lemma PairsEntries(st: State, st': State, sh: ScriptHash, ps: seq<Entry>)
    requires PairsNow(st, sh, ps) && PairsNow(st', sh, ps)
    ensures Entries(st.pool, st.ix.outputs, sh) == Entries(st'.pool, st'.ix.outputs, sh)
  {
    hide Touching, MempoolHeight, Sorted;
    var a, b := Entries(st.pool, st.ix.outputs, sh), Entries(st'.pool, st'.ix.outputs, sh);
    assert forall e :: e in a <==> e in multiset(a);
    assert forall e :: e in b <==> e in multiset(b);
  }

  lemma CurrentOnlyAlike(hash: Digest, st: State, st': State, sh: ScriptHash, status: Option<string>)
    requires NoCollision(hash, st, st', sh) && HeightsFit(st, sh) && HeightsFit(st', sh)
    requires Current(hash, st, sh, status) && Current(hash, st', sh, status)
    ensures AnswersAlike(st, st', sh)
  {
    hide Current, IsHistory, IsMempool, StatusHash, StatusText, Preimage, Entries, SortBy, PairsNow, HeightsBelow,
         MempoolPairs;
    var h, m := CurrentAnswers(hash, st, sh, status);
    var h', m' := CurrentAnswers(hash, st', sh, status);
    SameStatusText(hash, h, m, h', m');
    PreimageInjective(Get(st.ix.history, sh), st.pool, st.ix.outputs,
                      Get(st'.ix.history, sh), st'.pool, st'.ix.outputs, sh, h, m, h', m');
    MempoolPairsNow(st, sh, m);
    MempoolPairsNow(st', sh, m');
    PairsEntries(st, st', sh, MempoolPairs(m));
  }

  /** Alike answers are hashed from the same pairs. */
  lemma AlikeHistory(st: State, st': State, sh: ScriptHash, h: seq<TxEntry>, h': seq<TxEntry>)
    requires HeightsFit(st, sh) && HeightsFit(st', sh) && AnswersAlike(st, st', sh)
    requires HistoryNow(st, sh, h) && HistoryNow(st', sh, h')
    ensures HistoryPairs(h) == HistoryPairs(h')
  {
    hide IsHistory, SortBy, Entries, EntryKey, HeightsBelow, PoolHistory;
    HistorySplit(Get(st.ix.history, sh), st.pool, st.ix.outputs, sh, h);
    HistorySplit(Get(st'.ix.history, sh), st'.pool, st'.ix.outputs, sh, h');
    PoolHistoryAlike(st, st', sh);
    var p := SortBy(Listing(PoolHistory(st.pool, st.ix.outputs, sh)), EntryKey);
    PairsConcat(SortBy(Get(st.ix.history, sh), EntryKey), p);
    PairsConcat(SortBy(Get(st'.ix.history, sh), EntryKey), p);
  }

  lemma AlikeCurrent(hash: Digest, st: State, st': State, sh: ScriptHash, status: Option<string>)
    requires HeightsFit(st, sh) && HeightsFit(st', sh) && AnswersAlike(st, st', sh)
    requires Current(hash, st, sh, status)
    ensures Current(hash, st', sh, status)
  {
    hide HistoryNow, HeightsFit, Entries, Sorted, Text, ConfirmedPairs, HistoryPairs;
    var h, ps :| HistoryNow(st, sh, h) && PairsNow(st, sh, ps) && status == StatusHash(hash, h, ps);
    var h' := HistoryExists(st', sh);
    AlikeHistory(st, st', sh, h, h');
    PairsLength(h);
    PairsLength(h');
    assert PairsNow(st', sh, ps);
    assert StatusHash(hash, h', ps) == status;
  }

  lemma PairsLength(h: seq<TxEntry>)
    ensures |HistoryPairs(h)| == |h|
  {
  }

  /** A status is also current in another state exactly when the answers are alike. */
  lemma StillCurrent(hash: Digest, st: State, st': State, sh: ScriptHash, status: Option<string>)
    requires NoCollision(hash, st, st', sh) && HeightsFit(st, sh) && HeightsFit(st', sh)
    requires Current(hash, st, sh, status)
    ensures Current(hash, st', sh, status) <==> AnswersAlike(st, st', sh)
  {
    hide *;
    if Current(hash, st', sh, status) {
      CurrentOnlyAlike(hash, st, st', sh, status);
    }
    if AnswersAlike(st, st', sh) {
      AlikeCurrent(hash, st, st', sh, status);
    }
  }

  // ---- A client with nothing queued ---------------------------------------------------------

  /** Nothing on its way to the client will make it look the script hash up again. */
  ghost predicate Untold(w: World, i: nat, sh: ScriptHash, status: Option<string>, conduct: Conduct) {
    && i < |w.clients|
    && var c := w.clients[i];
       && c.seen == |w.server.log| && !Told(c.inbox, sh) && !Told(w.server.unsent, sh) && sh !in c.work
       && sh in c.subs && sh in c.statuses && c.statuses[sh] == status && c.conduct == conduct
  }

  function HandledAll(st: State, events: seq<SourceEvent>): State {
    if events == [] then st else Handled(HandledAll(st, events[..|events| - 1]), events[|events| - 1])
  }

  lemma ToldFewer(messages: seq<set<ScriptHash>>, i: nat, sh: ScriptHash)
    requires i < |messages| && !Told(messages, sh)
    ensures !Told(Subscriptions.Without(messages, i), sh) && sh !in messages[i]
  {
    ToldWithout(messages, i, sh);
  }

  lemma BroadcastUntold(hash: Digest, naming: Naming, w: World, k: nat, i: nat, sh: ScriptHash,
                        status: Option<string>, conduct: Conduct)
    requires Untold(w, i, sh, status, conduct) && k < |w.server.unsent|
    ensures Untold(After(hash, naming, w, Broadcast(k)), i, sh, status, conduct)
  {
    hide Told;
    ToldFewer(w.server.unsent, k, sh);
    ToldMore(w.clients[i].inbox, w.server.unsent[k], sh);
  }

  lemma TakenUntold(c: Client, sh: ScriptHash)
    requires c.inbox != [] && !Told(c.inbox, sh)
    ensures sh !in ChangeTaken(c).work && !Told(ChangeTaken(c).inbox, sh)
  {
    hide Told, Among;
    ToldFewer(c.inbox, 0, sh);
    assert Subscriptions.Without(c.inbox, 0) == c.inbox[1..];
    AmongAll(c.subs, c.inbox[0]);
  }

  lemma InternalUntold(hash: Digest, naming: Naming, w: World, move: Move, i: nat, sh: ScriptHash,
                       status: Option<string>, conduct: Conduct)
    requires Untold(w, i, sh, status, conduct) && Enabled(naming, w, move) && Internal(move)
    ensures Untold(After(hash, naming, w, move), i, sh, status, conduct)
    ensures After(hash, naming, w, move).server.log == w.server.log
  {
    hide Told, Handled, ChangeTaken, BlockTaken, StatusHash, MempoolPairs, IsMempool, HistoryNow, BlockNewsIn, Ready,
         LookedUp, ReplyWritten, NoteWritten;
    match move
    case Index =>
    case Broadcast(k) => BroadcastUntold(hash, naming, w, k, i, sh, status, conduct);
    case Wait(_) =>
    case TakeBlock(_) =>
    case TakeChange(k) =>
      if k == i {
        TakenUntold(w.clients[i], sh);
        ChangeTakenKeeps(w.clients[i]);
      }
    case ReadHistory(_, _) =>
    case ReadMempool(k, m) =>
      if k == i { LookedUpKeeps(w.clients[i], StatusHash(hash, w.clients[i].half.value, MempoolPairs(m)), sh); }
    case WriteReply(_) =>
    case WriteNote(_) =>
  }

  lemma LookedUpKeeps(c: Client, status: Option<string>, sh: ScriptHash)
    requires c.work != [] && sh !in c.work && sh in c.statuses
    ensures var c' := LookedUp(c, status);
      && c'.seen == c.seen && c'.inbox == c.inbox && c'.subs == c.subs && c'.conduct == c.conduct
      && sh !in c'.work && sh in c'.statuses && c'.statuses[sh] == c.statuses[sh]
  {
  }

  lemma ChangeTakenKeeps(c: Client)
    requires c.inbox != []
    ensures var c' := ChangeTaken(c);
      c'.seen == c.seen && c'.subs == c.subs && c'.statuses == c.statuses && c'.conduct == c.conduct
  {
  }

  lemma InternalState(hash: Digest, naming: Naming, w: World, move: Move)
    requires Enabled(naming, w, move) && Internal(move)
    ensures var s, s' := w.server, After(hash, naming, w, move).server;
      && s'.log == s.log
      && (if move.Index? then s'.applied == s.applied + 1 && s'.st == Handled(s.st, s.log[s.applied])
          else s'.applied == s.applied && s'.st == s.st)
  {
    hide Handled, ChangeTaken, BlockTaken, StatusHash, MempoolPairs, IsMempool, HistoryNow, BlockNewsIn, Ready,
         LooksHandled, SendAll, LookedUp, ReplyWritten, NoteWritten;
  }

  /** Internal moves only handle logged events, and never reach such a client. */
  lemma {:induction false} RanUntold(hash: Digest, naming: Naming, start: State, moves: seq<Move>, more: seq<Move>,
                                     i: nat, sh: ScriptHash, status: Option<string>, conduct: Conduct)
    requires Untold(Ran(hash, naming, start, moves), i, sh, status, conduct)
    requires forall move | move in more :: Internal(move)
    requires Ran(hash, naming, start, moves).server.applied <= |Ran(hash, naming, start, moves).server.log|
    ensures var s, w' := Ran(hash, naming, start, moves).server, Ran(hash, naming, start, moves + more);
      && Untold(w', i, sh, status, conduct)
      && w'.server.log == s.log && s.applied <= w'.server.applied <= |s.log|
      && w'.server.st == HandledAll(s.st, s.log[s.applied..w'.server.applied])
  {
    hide Untold, Enabled, After, Handled, Internal;
    var s := Ran(hash, naming, start, moves).server;
    if more == [] {
      assert moves + more == moves;
    } else {
      var rest, move := more[..|more| - 1], more[|more| - 1];
      RanUntold(hash, naming, start, moves, rest, i, sh, status, conduct);
      var w := Ran(hash, naming, start, moves + rest);
      assert (moves + more)[..|moves + more| - 1] == moves + rest;
      assert move in more;
      if Enabled(naming, w, move) {
        InternalUntold(hash, naming, w, move, i, sh, status, conduct);
        InternalState(hash, naming, w, move);
        if move.Index? {
          IndexInLog(naming, w);
          var a, b := s.applied, w.server.applied;
          assert s.log[a..b + 1][..b - a] == s.log[a..b];
        }
      }
    }
  }

  lemma IndexInLog(naming: Naming, w: World)
    requires Enabled(naming, w, Move.Index)
    ensures w.server.applied < |w.server.log|
  {
  }

  /**
   * Once such a client's status was current, it is current after everything is drained exactly when the
   * block events unhandled at that time leave the answers as they were; and it is what the client was
   * written last, unless its threads have crossed.
   */
  lemma UntoldCurrent(hash: Digest, naming: Naming, start: State, moves: seq<Move>, more: seq<Move>, i: nat,
                      sh: ScriptHash, status: Option<string>, conduct: Conduct)
    requires Consistent(naming, start)
    requires var w := Ran(hash, naming, start, moves);
      Untold(w, i, sh, status, conduct) && Current(hash, w.server.st, sh, status) && HeightsFit(w.server.st, sh)
    requires (forall move | move in more :: Internal(move)) && Drained(Ran(hash, naming, start, moves + more))
    requires var st, st' := Ran(hash, naming, start, moves).server.st, Ran(hash, naming, start, moves + more).server.st;
      HeightsFit(st', sh) && NoCollision(hash, st, st', sh)
    ensures var s, w' := Ran(hash, naming, start, moves).server, Ran(hash, naming, start, moves + more);
      && i < |w'.clients| && sh in w'.clients[i].subs && sh in w'.clients[i].statuses
      && w'.clients[i].conduct == conduct && s.applied <= |s.log|
      && w'.server.st == HandledAll(s.st, s.log[s.applied..])
      && (Current(hash, w'.server.st, sh, w'.clients[i].statuses[sh]) <==> AnswersAlike(s.st, w'.server.st, sh))
      && OnWire(w'.clients[i], sh)
  {
    hide Ran, NoCollision, HeightsFit, Current, AnswersAlike, HandledAll, Internal, IndexFollows, Told, Consistent;
    var s, w' := Ran(hash, naming, start, moves).server, Ran(hash, naming, start, moves + more);
    InLog(hash, naming, start, moves);
    RanUntold(hash, naming, start, moves, more, i, sh, status, conduct);
    assert s.log[s.applied..|s.log|] == s.log[s.applied..];
    StillCurrent(hash, s.st, w'.server.st, sh, status);
    AlwaysServed(hash, naming, start, moves + more);
    WrittenOnWire(w'.clients[i], sh);
  }

  /** The last line written for a script hash says what is recorded, unless the threads have crossed. */
  predicate OnWire(c: Client, sh: ScriptHash) {
    sh in c.statuses && (sh !in c.out.crossed ==> sh in c.out.wire && c.out.wire[sh] == c.statuses[sh])
  }

  lemma WrittenOnWire(c: Client, sh: ScriptHash)
    requires Written(c) && AllWritten(c.out) && sh in c.statuses
    ensures OnWire(c, sh)
  {
    assert InStep(c.out, sh, c.statuses[sh]);
  }

  lemma InLog(hash: Digest, naming: Naming, start: State, moves: seq<Move>)
    ensures Ran(hash, naming, start, moves).server.applied <= |Ran(hash, naming, start, moves).server.log|
  {
    hide Ran;
    RanFollows(hash, naming, start, moves);
  }

  // ---- Reading too early --------------------------------------------------------------------

  /** One lookup without anything in between. */
  lemma ReadOnce(hash: Digest, naming: Naming, start: State, moves: seq<Move>, i: nat, h: seq<TxEntry>,
                 m: seq<MempoolEntry>)
    requires var w := Ran(hash, naming, start, moves);
      && i < |w.clients| && w.clients[i].work != [] && w.clients[i].half.None?
      && HistoryNow(w.server.st, w.clients[i].work[0], h)
      && IsMempool(w.server.st.pool, w.server.st.ix.outputs, w.clients[i].work[0], m)
    ensures var w := Ran(hash, naming, start, moves);
      Ran(hash, naming, start, moves + [ReadHistory(i, h)] + [ReadMempool(i, m)])
      == w.(clients := w.clients[i := MempoolRead(hash, HistoryRead(w.server, w.clients[i], h), m)])
  {
    hide Ran, HistoryNow, IsMempool, StatusHash, MempoolPairs, BlockNewsIn, LookedUp;
    var w := Ran(hash, naming, start, moves);
    RanNext(hash, naming, start, moves, ReadHistory(i, h));
    RanNext(hash, naming, start, moves + [ReadHistory(i, h)], ReadMempool(i, m));
    var c1 := HistoryRead(w.server, w.clients[i], h);
    assert w.clients[i := c1][i := MempoolRead(hash, c1, m)] == w.clients[i := MempoolRead(hash, c1, m)];
  }

  /** A client connects, subscribes and is looked up for; the response is still to be written. */
  function EarlyMoves(n: nat, sh: ScriptHash, h: seq<TxEntry>, m: seq<MempoolEntry>): seq<Move> {
    [Join] + [Subscribe(n, sh)] + [ReadHistory(n, h)] + [ReadMempool(n, m)]
  }

  lemma EarlyLookedUp(hash: Digest, s: Server, sh: ScriptHash, h: seq<TxEntry>, m: seq<MempoolEntry>)
    requires HistoryNow(s.st, sh, h) && MempoolNow(s.st, sh, m)
    ensures var c := MempoolRead(hash, HistoryRead(s, Subscribed(Joined(s), sh), h), m);
      var status := StatusHash(hash, h, MempoolPairs(m));
      && c.seen == |s.log| && c.inbox == [] && c.subs == [sh] && c.work == [] && !c.asking && c.half.None?
      && c.statuses == map[sh := status] && c.out == Outgoing(Some((sh, status)), [], map[], {})
      && c.conduct == Joined(s).conduct && Current(hash, s.st, sh, status)
  {
    hide HistoryNow, PairsNow, StatusHash, MempoolPairs, BlockNewsIn;
    MempoolPairsNow(s.st, sh, m);
  }

  lemma NothingTold(sh: ScriptHash)
    ensures !Told([], sh)
  {
  }

  lemma EarlyRun(hash: Digest, naming: Naming, start: State, moves: seq<Move>, sh: ScriptHash, h: seq<TxEntry>,
                 m: seq<MempoolEntry>)
    requires var s := Ran(hash, naming, start, moves).server; HistoryNow(s.st, sh, h) && MempoolNow(s.st, sh, m)
    ensures var w, n := Ran(hash, naming, start, moves), |Ran(hash, naming, start, moves).clients|;
      Ran(hash, naming, start, moves + EarlyMoves(n, sh, h, m))
      == w.(clients := w.clients + [MempoolRead(hash, HistoryRead(w.server, Subscribed(Joined(w.server), sh), h), m)])
  {
    hide Ran, HistoryNow, IsMempool, MempoolRead, BlockNewsIn;
    var w, n := Ran(hash, naming, start, moves), |Ran(hash, naming, start, moves).clients|;
    RanNext(hash, naming, start, moves, Join);
    RanNext(hash, naming, start, moves + [Join], Subscribe(n, sh));
    var w2 := Ran(hash, naming, start, moves + [Join] + [Subscribe(n, sh)]);
    var c := Subscribed(Joined(w.server), sh);
    assert w2.clients == w.clients + [c];
    ReadOnce(hash, naming, start, moves + [Join] + [Subscribe(n, sh)], n, h, m);
    assert moves + [Join] + [Subscribe(n, sh)] + [ReadHistory(n, h)] + [ReadMempool(n, m)]
        == moves + EarlyMoves(n, sh, h, m);
    var c' := MempoolRead(hash, HistoryRead(w.server, c, h), m);
    assert (w.clients + [c])[n := c'] == w.clients + [c'];
  }

  lemma EarlyUntold(hash: Digest, naming: Naming, start: State, moves: seq<Move>, sh: ScriptHash, h: seq<TxEntry>,
                    m: seq<MempoolEntry>)
    requires var s := Ran(hash, naming, start, moves).server;
      !Told(s.unsent, sh) && HistoryNow(s.st, sh, h) && MempoolNow(s.st, sh, m)
    ensures var s, n := Ran(hash, naming, start, moves).server, |Ran(hash, naming, start, moves).clients|;
      var w' := Ran(hash, naming, start, moves + EarlyMoves(n, sh, h, m));
      var status := StatusHash(hash, h, MempoolPairs(m));
      && w'.server == s && Untold(w', n, sh, status, Joined(s).conduct) && Current(hash, s.st, sh, status)
  {
    hide Ran, HistoryNow, IsMempool, StatusHash, MempoolPairs, BlockNewsIn, Told, MempoolRead, HistoryRead, Current,
         Joined, Subscribed;
    EarlyRun(hash, naming, start, moves, sh, h, m);
    EarlyLookedUp(hash, Ran(hash, naming, start, moves).server, sh, h, m);
    NothingTold(sh);
  }

  /**
   * In any run, with any number of block events still unhandled: a client that connects and subscribes now
   * is current after everything is drained exactly when those events leave the answers as they are. No
   * announcement in flight may name the script hash, because that would make the client look it up again.
   */
  lemma EarlySubscriber(hash: Digest, naming: Naming, start: State, moves: seq<Move>, sh: ScriptHash,
                        h: seq<TxEntry>, m: seq<MempoolEntry>, more: seq<Move>)
    requires Consistent(naming, start)
    requires var s := Ran(hash, naming, start, moves).server;
      !Told(s.unsent, sh) && HeightsFit(s.st, sh) && HistoryNow(s.st, sh, h) && MempoolNow(s.st, sh, m)
    requires forall move | move in more :: Internal(move)
    requires var s, n := Ran(hash, naming, start, moves).server, |Ran(hash, naming, start, moves).clients|;
      var w' := Ran(hash, naming, start, moves + EarlyMoves(n, sh, h, m) + more);
      Drained(w') && HeightsFit(w'.server.st, sh) && NoCollision(hash, s.st, w'.server.st, sh)
    ensures var s, n := Ran(hash, naming, start, moves).server, |Ran(hash, naming, start, moves).clients|;
      var w' := Ran(hash, naming, start, moves + EarlyMoves(n, sh, h, m) + more);
      && n < |w'.clients| && sh in w'.clients[n].subs && sh in w'.clients[n].statuses && s.applied <= |s.log|
      && w'.server.st == HandledAll(s.st, s.log[s.applied..])
      && (Current(hash, w'.server.st, sh, w'.clients[n].statuses[sh]) <==> AnswersAlike(s.st, w'.server.st, sh))
      && OnWire(w'.clients[n], sh)
  {
    hide Ran, HistoryNow, MempoolNow, StatusHash, MempoolPairs, Joined, Untold, Current, HeightsFit, NoCollision,
         Drained, Internal, AnswersAlike, HandledAll, EarlyMoves, Told, OnWire, Consistent;
    var n := |Ran(hash, naming, start, moves).clients|;
    EarlyUntold(hash, naming, start, moves, sh, h, m);
    UntoldCurrent(hash, naming, start, moves + EarlyMoves(n, sh, h, m), more, n, sh,
                  StatusHash(hash, h, MempoolPairs(m)), Joined(Ran(hash, naming, start, moves).server).conduct);
  }

  // ---- One pass of a loop -------------------------------------------------------------------

  /** Lookups of one connection, with nothing else in between. */
  predicate IsLookup(move: Move, i: nat) {
    (move.ReadHistory? || move.ReadMempool?) && move.client == i
  }

  /** During a pass on an unchanged server each subscription is still to be looked up or is current. */
  ghost predicate Passing(hash: Digest, st: State, c: Client) {
    && (c.half.Some? ==> c.work != [])
    && forall sh | sh in c.subs ::
         sh in Rest(c) || if Reading(c, sh) then HistoryNow(st, sh, c.half.value)
                          else sh in c.statuses && Current(hash, st, sh, c.statuses[sh])
  }

  lemma LookupPassing(hash: Digest, naming: Naming, w: World, move: Move, i: nat)
    requires i < |w.clients| && Passing(hash, w.server.st, w.clients[i])
    requires Enabled(naming, w, move) && IsLookup(move, i)
    ensures var w' := After(hash, naming, w, move);
      && w'.server == w.server && |w'.clients| == |w.clients| && Passing(hash, w.server.st, w'.clients[i])
      && SameQueues(w.clients[i], w'.clients[i])
  {
    hide HistoryNow, PairsNow, IsMempool, StatusHash, MempoolPairs, BlockNewsIn, Answered, Noted;
    match move
    case ReadHistory(_, h) =>
    case ReadMempool(_, m) => MempoolPairsNow(w.server.st, w.clients[i].work[0], m);
  }

  predicate SameQueues(c: Client, c': Client) {
    c'.seen == c.seen && c'.inbox == c.inbox && c'.subs == c.subs && c'.conduct == c.conduct
  }

  lemma {:induction false} RanPassing(hash: Digest, naming: Naming, start: State, moves: seq<Move>,
                                      lookups: seq<Move>, i: nat)
    requires var w := Ran(hash, naming, start, moves);
      i < |w.clients| && Passing(hash, w.server.st, w.clients[i])
    requires forall move | move in lookups :: IsLookup(move, i)
    ensures var w, w' := Ran(hash, naming, start, moves), Ran(hash, naming, start, moves + lookups);
      && w'.server == w.server && |w'.clients| == |w.clients| && Passing(hash, w.server.st, w'.clients[i])
      && SameQueues(w.clients[i], w'.clients[i])
  {
    hide Enabled, After, Passing, IsLookup;
    if lookups == [] {
      assert moves + lookups == moves;
    } else {
      var rest, move := lookups[..|lookups| - 1], lookups[|lookups| - 1];
      RanPassing(hash, naming, start, moves, rest, i);
      assert (moves + lookups)[..|moves + lookups| - 1] == moves + rest && move in lookups;
      var w := Ran(hash, naming, start, moves + rest);
      if Enabled(naming, w, move) {
        LookupPassing(hash, naming, w, move, i);
      }
    }
  }

  // ---- A wait that ends too early -----------------------------------------------------------

  /** A block event is broadcast, and a waiting client takes it at once because it already looks handled. */
  function HastyMoves(i: nat, e: SourceEvent): seq<Move> {
    [Emit(e)] + [Wait(i)] + [TakeBlock(i)]
  }

  /** A client whose notification thread has emptied its queues. */
  ghost predicate AtRest(w: World, i: nat, sh: ScriptHash) {
    && i < |w.clients| && !Told(w.server.unsent, sh)
    && var c := w.clients[i];
       && c.seen == |w.server.log| && !Told(c.inbox, sh) && Idle(c) && c.out.notes == [] && sh in c.subs
  }

  lemma RestServed(hash: Digest, s: Server, c: Client)
    requires Served(hash, s, c) && c.seen == |s.log| && Idle(c)
    ensures !c.conduct.ready && c.half.None?
  {
  }

  lemma HastyTaken(hash: Digest, naming: Naming, start: State, moves: seq<Move>, i: nat, e: SourceEvent,
                   sh: ScriptHash)
    requires Consistent(naming, start)
    requires var w := Ran(hash, naming, start, moves);
      && AtRest(w, i, sh) && IsBlockNews(e) && (e.BlockConnected? ==> BlockNamed(naming, e.block))
      && Ready(AsBlockEvent(e), w.server.st.ix.tip)
    ensures var w, w' := Ran(hash, naming, start, moves), Ran(hash, naming, start, moves + HastyMoves(i, e));
      && w'.server == w.server.(log := w.server.log + [e]) && |w'.clients| == |w.clients|
      && var c, c' := w.clients[i], w'.clients[i];
         && c'.work == c.subs && c'.half.None? && c'.seen == |w'.server.log| && c'.asking == c.asking
         && c'.inbox == c.inbox && c'.subs == c.subs && c'.statuses == c.statuses && c'.out == c.out
         && c'.conduct == Conduct(c.conduct.prompt, false, c.conduct.waited, false)
  {
    hide Ran, Ready, BlockNamed, BlockNewsIn, Told, Consistent;
    var w := Ran(hash, naming, start, moves);
    AlwaysServed(hash, naming, start, moves);
    RestServed(hash, w.server, w.clients[i]);
    RanNext(hash, naming, start, moves, Emit(e));
    RanNext(hash, naming, start, moves + [Emit(e)], Wait(i));
    RanNext(hash, naming, start, moves + [Emit(e)] + [Wait(i)], TakeBlock(i));
    assert moves + [Emit(e)] + [Wait(i)] + [TakeBlock(i)] == moves + HastyMoves(i, e);
  }

  lemma HastyUntold(hash: Digest, naming: Naming, start: State, moves: seq<Move>, i: nat, e: SourceEvent,
                    sh: ScriptHash, lookups: seq<Move>)
    requires Consistent(naming, start)
    requires var w := Ran(hash, naming, start, moves);
      && AtRest(w, i, sh) && IsBlockNews(e) && (e.BlockConnected? ==> BlockNamed(naming, e.block))
      && Ready(AsBlockEvent(e), w.server.st.ix.tip)
    requires forall move | move in lookups :: IsLookup(move, i)
    requires var w' := Ran(hash, naming, start, moves + HastyMoves(i, e) + lookups);
      i < |w'.clients| && Idle(w'.clients[i])
    ensures var w, w' := Ran(hash, naming, start, moves),
                         Ran(hash, naming, start, moves + HastyMoves(i, e) + lookups);
      var c := w.clients[i].conduct;
      && w'.server == w.server.(log := w.server.log + [e]) && |w'.clients| == |w.clients|
      && sh in w'.clients[i].statuses
      && Untold(w', i, sh, w'.clients[i].statuses[sh], Conduct(c.prompt, false, c.waited, false))
      && Current(hash, w.server.st, sh, w'.clients[i].statuses[sh])
  {
    hide Ran, Ready, BlockNamed, Told, Consistent, Current, HastyMoves;
    HastyTaken(hash, naming, start, moves, i, e, sh);
    RanPassing(hash, naming, start, moves + HastyMoves(i, e), lookups, i);
    var w' := Ran(hash, naming, start, moves + HastyMoves(i, e) + lookups);
    assert sh in w'.clients[i].subs && sh !in Rest(w'.clients[i]) && !Reading(w'.clients[i], sh);
  }

  /**
   * Such a client reads too early without any wait being cut off. Each of its subscriptions that nothing in
   * flight names is current after everything is drained exactly when the events unhandled leave the answers
   * as they are.
   */
  lemma HastySubscriber(hash: Digest, naming: Naming, start: State, moves: seq<Move>, i: nat, e: SourceEvent,
                        sh: ScriptHash, lookups: seq<Move>, more: seq<Move>)
    requires Consistent(naming, start)
    requires var w := Ran(hash, naming, start, moves);
      && AtRest(w, i, sh) && IsBlockNews(e) && (e.BlockConnected? ==> BlockNamed(naming, e.block))
      && Ready(AsBlockEvent(e), w.server.st.ix.tip) && HeightsFit(w.server.st, sh)
    requires (forall move | move in lookups :: IsLookup(move, i)) && forall move | move in more :: Internal(move)
    requires var w' := Ran(hash, naming, start, moves + HastyMoves(i, e) + lookups);
      i < |w'.clients| && Idle(w'.clients[i])
    requires var s := Ran(hash, naming, start, moves).server;
      var w' := Ran(hash, naming, start, moves + HastyMoves(i, e) + lookups + more);
      Drained(w') && HeightsFit(w'.server.st, sh) && NoCollision(hash, s.st, w'.server.st, sh)
    ensures var w, w' := Ran(hash, naming, start, moves),
                         Ran(hash, naming, start, moves + HastyMoves(i, e) + lookups + more);
      && i < |w'.clients| && sh in w'.clients[i].subs && sh in w'.clients[i].statuses
      && w'.clients[i].conduct.prompt == w.clients[i].conduct.prompt
      && w'.clients[i].conduct.waited == w.clients[i].conduct.waited
      && w.server.applied <= |w.server.log|
      && w'.server.st == HandledAll(w.server.st, (w.server.log + [e])[w.server.applied..])
      && (Current(hash, w'.server.st, sh, w'.clients[i].statuses[sh])
          <==> AnswersAlike(w.server.st, w'.server.st, sh))
      && OnWire(w'.clients[i], sh)
  {
    hide Ran, Untold, Current, HeightsFit, NoCollision, Drained, Internal, AnswersAlike, Told, Ready, BlockNamed,
         HandledAll, HastyMoves, OnWire, Consistent, IsLookup;
    var w, read := Ran(hash, naming, start, moves), moves + HastyMoves(i, e) + lookups;
    InLog(hash, naming, start, moves);
    HastyUntold(hash, naming, start, moves, i, e, sh, lookups);
    UntoldCurrent(hash, naming, start, read, more, i, sh, Ran(hash, naming, start, read).clients[i].statuses[sh],
                  Conduct(w.clients[i].conduct.prompt, false, w.clients[i].conduct.waited, false));
  }
}
