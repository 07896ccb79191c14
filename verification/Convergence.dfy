/**
 * When a client becomes current: what its own conduct guarantees it whatever the others do, that the
 * queues always drain once nothing new arrives, and exactly when a status read too early stays wrong.
 */
module Convergence {
  import opened Announce
  import opened Chain
  import opened Confirmed
  import opened Fanout
  import opened Model
  import opened Queries
  import Restart
  import opened Sorting
  import opened Status
  import opened Statuses
  import opened Subscriptions
  import opened Waiting
  import opened Wire
  import Reorg

  // ---- Prompt and patient clients -----------------------------------------------------------

  /** Such a client is never ahead of the indexer and has never read a status too early. */
  predicate Steady(s: Server, c: Client) {
    c.conduct.prompt && c.conduct.patient ==> !Ahead(s, c) && c.late == {}
  }

  ghost predicate AllSteady(w: World) {
    forall c | c in w.clients :: Steady(w.server, c)
  }

  lemma TakenSteady(s: Server, c: Client)
    requires Steady(s, c) && c.seen < |s.log|
    ensures Steady(s, BlockTaken(s, c))
  {
    hide Ready;
  }

  lemma EmittedSteady(s: Server, c: Client, event: SourceEvent)
    requires Steady(s, c) && c.seen <= |s.log|
    ensures Steady(s.(log := s.log + [event]), c)
  {
    hide BlockNewsIn;
    NewsLonger(s.log, event, s.applied, c.seen);
  }

  /** Moves of one connection that neither take a block event nor wait for one. */
  predicate IsQuiet(move: Move) {
    || move.Subscribe? || move.TakeChange? || move.ReadHistory? || move.ReadMempool? || move.WriteReply?
    || move.WriteNote?
  }

  predicate SamePlace(c: Client, c': Client) {
    c'.seen == c.seen && c'.conduct == c.conduct && c'.late <= c.late
  }

  lemma LookedUpPlace(c: Client, status: Option<string>)
    requires c.work != []
    ensures SamePlace(c, LookedUp(c, status)) && LookedUp(c, status).inbox == c.inbox
  {
  }

  lemma QuietMoved(hash: Digest, naming: Naming, w: World, move: Move)
    requires Enabled(naming, w, move) && IsQuiet(move)
    requires move.ReadHistory? ==> !Ahead(w.server, w.clients[move.client])
    ensures var w' := After(hash, naming, w, move);
      && w'.server == w.server && |w'.clients| == |w.clients|
      && forall i | 0 <= i < |w.clients| :: SamePlace(w.clients[i], w'.clients[i])
  {
    hide Handled, StatusHash, MempoolPairs, IsMempool, HistoryNow, BlockNewsIn, LookedUp, ReplyWritten, NoteWritten,
         Among;
    match move
    case ReadMempool(i, m) =>
      LookedUpPlace(w.clients[i], StatusHash(hash, w.clients[i].half.value, MempoolPairs(m)));
    case _ =>
  }

  lemma ReadSteady(s: Server, c: Client, h: seq<TxEntry>)
    requires Steady(s, c) && c.work != []
    ensures Steady(s, HistoryRead(s, c, h)) && HistoryRead(s, c, h).conduct == c.conduct
    ensures HistoryRead(s, c, h).seen == c.seen
  {
  }

  lemma MovedSteady(hash: Digest, naming: Naming, w: World, move: Move)
    requires Inv(hash, naming, w) && AllSteady(w) && Enabled(naming, w, move)
    ensures AllSteady(After(hash, naming, w, move))
  {
    hide Handled, Announced, Model.Next, Among, StatusHash, MempoolPairs, IsMempool, HistoryNow, InOrder,
         Consistent, LogNamed, EventNamed, BlockNamed, Due, UpToDate, BlockTaken, LooksHandled, Written, ReplyWritten,
         NoteWritten, Answered, Noted;
    var s, w' := w.server, After(hash, naming, w, move);
    match move
    case Emit(event) =>
      forall c | c in w.clients ensures Steady(w'.server, c) {
        assert Served(hash, s, c);
        EmittedSteady(s, c, event);
      }
    case Index => assert forall c | c in w.clients :: Steady(s, c);
    case Change(_, _) => assert forall c | c in w.clients :: Steady(s, c);
    case Broadcast(_) =>
      forall i | 0 <= i < |w.clients| ensures Steady(w'.server, w'.clients[i]) {
        assert Steady(s, w.clients[i]);
      }
    case Join =>
    case Leave(_) =>
    case Wait(i) => assert Steady(s, w.clients[i]) && Steady(s, w'.clients[i]);
    case TakeBlock(i) => TakenSteady(s, w.clients[i]);
    case ReadHistory(i, h) => ReadSteady(s, w.clients[i], h);
    case _ =>
      QuietMoved(hash, naming, w, move);
      forall i | 0 <= i < |w.clients| ensures Steady(w'.server, w'.clients[i]) {
        assert Steady(s, w.clients[i]) && SamePlace(w.clients[i], w'.clients[i]);
      }
  }

  lemma BootSteady(start: State)
    ensures AllSteady(Boot(start))
  {
  }

  lemma {:induction false} RanSteady(hash: Digest, naming: Naming, start: State, moves: seq<Move>)
    requires Consistent(naming, start)
    ensures AllSteady(Ran(hash, naming, start, moves))
  {
    hide Inv, Enabled, After, AllSteady, Consistent;
    if moves == [] {
      BootSteady(start);
    } else {
      var w, move := Ran(hash, naming, start, moves[..|moves| - 1]), moves[|moves| - 1];
      RanSteady(hash, naming, start, moves[..|moves| - 1]);
      if Enabled(naming, w, move) {
        AlwaysServed(hash, naming, start, moves[..|moves| - 1]);
        MovedSteady(hash, naming, w, move);
      }
    }
  }

  /**
   * In every run, once drained, a prompt and patient client is served: the record is current, and so is the
   * last line written to the client unless its two threads have crossed, whatever other clients do.
   */
  lemma PatientConverged(hash: Digest, naming: Naming, start: State, moves: seq<Move>, c: Client, sh: ScriptHash)
    requires Consistent(naming, start)
    requires var w := Ran(hash, naming, start, moves); Drained(w) && c in w.clients && sh in c.subs
    requires c.conduct.prompt && c.conduct.patient
    ensures sh in c.statuses && Current(hash, Ran(hash, naming, start, moves).server.st, sh, c.statuses[sh])
    ensures sh !in c.out.crossed ==>
      sh in c.out.wire && Current(hash, Ran(hash, naming, start, moves).server.st, sh, c.out.wire[sh])
  {
    hide Ran, Current, Ahead, Consistent;
    RanSteady(hash, naming, start, moves);
    assert Steady(Ran(hash, naming, start, moves).server, c);
    Converged(hash, naming, start, moves, c, sh);
  }

  // ---- What the wait for the indexer achieves -----------------------------------------------

  /** The block events of a log, as the index sees them. */
  function NewsOf(log: seq<SourceEvent>): seq<Reorg.BlockEvent> {
    if log == [] then []
    else
      var rest, e := NewsOf(log[..|log| - 1]), log[|log| - 1];
      if IsBlockNews(e) then rest + [AsBlockEvent(e)] else rest
  }

  lemma NewsNext(log: seq<SourceEvent>, k: nat)
    requires k < |log|
    ensures NewsOf(log[..k + 1])
         == NewsOf(log[..k]) + (if IsBlockNews(log[k]) then [AsBlockEvent(log[k])] else [])
  {
    assert log[..k + 1][..k] == log[..k];
  }

  lemma {:induction false} NoNewsBetween(log: seq<SourceEvent>, i: nat, j: nat)
    requires i <= j <= |log| && !BlockNewsIn(log, i, j)
    ensures NewsOf(log[..i]) == NewsOf(log[..j])
    decreases j
  {
    if i < j {
      assert !BlockNewsIn(log, i, j - 1);
      NoNewsBetween(log, i, j - 1);
      NewsNext(log, j - 1);
    }
  }

  lemma {:induction false} NewsPrefix(log: seq<SourceEvent>, k: nat)
    requires k <= |log|
    ensures |NewsOf(log[..k])| <= |NewsOf(log)| && NewsOf(log)[..|NewsOf(log[..k])|] == NewsOf(log[..k])
  {
    if k == |log| {
      assert log[..k] == log;
    } else {
      NewsPrefix(log[..|log| - 1], k);
      assert log[..|log| - 1][..k] == log[..k];
    }
  }

  ghost predicate IndexFollows(start: State, s: Server) {
    s.applied <= |s.log| && s.st.ix == Reorg.RunOn(start.ix, NewsOf(s.log[..s.applied]))
  }

  lemma HandledIndex(st: State, e: SourceEvent)
    ensures Handled(st, e).ix == if IsBlockNews(e) then Reorg.Next(st.ix, AsBlockEvent(e)) else st.ix
  {
    hide Apply, Rollback, StoreAll, MinedBy, Unlist, Txids;
  }

  lemma IndexedFollows(start: State, s: Server)
    requires IndexFollows(start, s) && s.applied < |s.log|
    ensures IndexFollows(start, s.(st := Handled(s.st, s.log[s.applied]), applied := s.applied + 1))
  {
    hide Handled, Reorg.Next;
    var e, before := s.log[s.applied], NewsOf(s.log[..s.applied]);
    HandledIndex(s.st, e);
    NewsNext(s.log, s.applied);
    if IsBlockNews(e) {
      assert (before + [AsBlockEvent(e)])[..|before|] == before;
    } else {
      assert before + [] == before;
    }
  }

  lemma MovedFollows(hash: Digest, naming: Naming, start: State, w: World, move: Move)
    requires IndexFollows(start, w.server) && Enabled(naming, w, move)
    ensures IndexFollows(start, After(hash, naming, w, move).server)
  {
    hide Handled, Announced, Model.Next, Among, StatusHash, MempoolPairs, IsMempool, HistoryNow, InOrder,
         EventNamed, BlockNamed, BlockTaken, LooksHandled, Reorg.RunOn, Without, SendAll, NewsOf,
         LookedUp, ReplyWritten, NoteWritten;
    match move
    case Emit(event) =>
      assert (w.server.log + [event])[..w.server.applied] == w.server.log[..w.server.applied];
    case Index => IndexedFollows(start, w.server);
    case Change(e, _) => NextIndex(w.server.st, e);
    case _ =>
  }

  /** The index is what the handled block events make of the one that was opened. */
  lemma {:induction false} RanFollows(hash: Digest, naming: Naming, start: State, moves: seq<Move>)
    ensures IndexFollows(start, Ran(hash, naming, start, moves).server)
  {
    hide Enabled, After;
    if moves != [] {
      var w, move := Ran(hash, naming, start, moves[..|moves| - 1]), moves[|moves| - 1];
      RanFollows(hash, naming, start, moves[..|moves| - 1]);
      if Enabled(naming, w, move) {
        MovedFollows(hash, naming, start, w, move);
      }
    }
  }

  /** The tip after further events depends on the tip before them only. */
  lemma {:induction false} TipFollows(ix: Index, before: seq<Reorg.BlockEvent>, news: seq<Reorg.BlockEvent>)
    requires ix.tip == Reorg.Run(before).tip
    ensures Reorg.RunOn(ix, news).tip == Reorg.Run(before + news).tip
  {
    hide Reorg.Next;
    if news == [] {
      assert before + news == before;
    } else {
      var rest, e := news[..|news| - 1], news[|news| - 1];
      TipFollows(ix, before, rest);
      assert (before + news)[..|before + news| - 1] == before + rest;
      NextTip(Reorg.RunOn(ix, rest), Reorg.Run(before + rest), e);
    }
  }

  lemma NextTip(a: Index, b: Index, e: Reorg.BlockEvent)
    requires a.tip == b.tip
    ensures Reorg.Next(a, e).tip == Reorg.Next(b, e).tip
  {
    hide Steps, UndoAll, DropHeight, Items;
    match e
    case Connected(block, h) =>
    case Disconnected(h) =>
      RollbackTip(a, h);
      RollbackTip(b, h);
  }

  lemma RollbackTip(ix: Index, h: nat)
    ensures Rollback(ix, h).tip == if ix.tip == h then SaturatingPred(h) else ix.tip
  {
    if h in ix.byHeight {
      UndoAllTrees(ix.(byHeight := ix.byHeight - {h}), ix.byHeight[h]);
    }
  }

  /** The block events before the store was opened, followed by those since, are in stack order above height 0. */
  ghost predicate OrderedSince(naming: Naming, base: nat, before: seq<Reorg.BlockEvent>, start: State, s: Server) {
    && base > 0 && start.ix.tip == Reorg.Run(before).tip
    && Reorg.StackOrdered(naming, base, before + NewsOf(s.log))
  }

  /** Then the tip comparison is right for a client that is not ahead of the indexer. */
  lemma LooksAndIsHandled(naming: Naming, base: nat, before: seq<Reorg.BlockEvent>, start: State, s: Server, c: Client)
    requires IndexFollows(start, s) && OrderedSince(naming, base, before, start, s)
    requires LooksHandled(s, c) && !Ahead(s, c)
    ensures c.seen < s.applied
  {
    hide Reorg.StackOrdered, Reorg.Run, Reorg.RunOn, Ready, NewsOf, BlockNewsIn, Reorg.Survivors;
    if s.applied <= c.seen {
      var events, done := before + NewsOf(s.log), NewsOf(s.log[..c.seen]);
      var k := |before + done|;
      NoNewsBetween(s.log, s.applied, c.seen);
      NewsPrefix(s.log, c.seen);
      NewsPrefix(s.log, c.seen + 1);
      NewsNext(s.log, c.seen);
      assert NewsOf(s.log)[..|done| + 1][|done|] == AsBlockEvent(s.log[c.seen]);
      assert events[k] == AsBlockEvent(s.log[c.seen]) && events[..k] == before + done;
      TipFollows(start.ix, before, done);
      ReadyTooEarly(naming, base, events, k);
    }
  }

  /** A prompt client none of whose waits was cut off too soon is patient. */
  predicate Careful(s: Server, c: Client) {
    c.conduct.prompt && c.conduct.waited ==> c.conduct.patient && (c.conduct.ready ==> c.seen < s.applied)
  }

  ghost predicate AllCareful(w: World) {
    forall c | c in w.clients :: Careful(w.server, c)
  }

  lemma MovedCareful(hash: Digest, naming: Naming, base: nat, before: seq<Reorg.BlockEvent>, start: State, w: World,
                     move: Move)
    requires Inv(hash, naming, w) && AllSteady(w) && AllCareful(w) && Enabled(naming, w, move)
    requires IndexFollows(start, w.server) && OrderedSince(naming, base, before, start, w.server)
    ensures AllCareful(After(hash, naming, w, move))
  {
    hide Handled, Announced, Model.Next, Among, StatusHash, MempoolPairs, IsMempool, HistoryNow, InOrder,
         EventNamed, BlockNamed, LooksHandled, OrderedSince, NewsOf, BlockNewsIn, Ready, IndexFollows, Consistent,
         LogNamed, Due, UpToDate, Written, LookedUp, ReplyWritten, NoteWritten;
    var s, w' := w.server, After(hash, naming, w, move);
    match move
    case Broadcast(_) =>
      forall i | 0 <= i < |w.clients| ensures Careful(w'.server, w'.clients[i]) {
        assert Careful(s, w.clients[i]);
      }
    case Wait(i) =>
      assert Careful(s, w.clients[i]) && Steady(s, w.clients[i]);
      if w.clients[i].conduct.prompt && w.clients[i].conduct.waited {
        LooksAndIsHandled(naming, base, before, start, s, w.clients[i]);
      }
      assert Careful(s, w'.clients[i]);
    case TakeBlock(i) =>
      assert Served(hash, s, w.clients[i]);
      assert Careful(s, w.clients[i]) && Careful(s, w'.clients[i]);
    case ReadHistory(i, h) =>
      assert Careful(s, w.clients[i]) && Careful(s, w'.clients[i]);
    case Join =>
    case Leave(_) =>
    case Emit(_) => assert forall c | c in w.clients :: Careful(s, c);
    case Index => assert forall c | c in w.clients :: Careful(s, c);
    case Change(_, _) => assert forall c | c in w.clients :: Careful(s, c);
    case _ =>
      QuietMoved(hash, naming, w, move);
      forall i | 0 <= i < |w.clients| ensures Careful(w'.server, w'.clients[i]) {
        assert Careful(s, w.clients[i]) && SamePlace(w.clients[i], w'.clients[i]);
      }
  }

  lemma LogGrows(hash: Digest, naming: Naming, base: nat, before: seq<Reorg.BlockEvent>, start: State, w: World,
                 move: Move)
    requires Enabled(naming, w, move)
    requires OrderedSince(naming, base, before, start, After(hash, naming, w, move).server)
    ensures OrderedSince(naming, base, before, start, w.server)
  {
    hide Reorg.StackOrdered, NewsOf, Handled, Announced, Model.Next, Among, StatusHash, MempoolPairs, IsMempool,
         HistoryNow, InOrder, EventNamed, BlockNamed, BlockTaken, LooksHandled, LookedUp, ReplyWritten, NoteWritten;
    var log, log' := w.server.log, After(hash, naming, w, move).server.log;
    if move.Emit? {
      assert log'[..|log|] == log;
      NewsPrefix(log', |log|);
      var k := |before + NewsOf(log)|;
      PrefixOrdered(naming, base, before + NewsOf(log'), k);
      assert (before + NewsOf(log'))[..k] == before + NewsOf(log);
    }
  }

  lemma BootCareful(start: State)
    ensures AllCareful(Boot(start))
  {
  }

  lemma {:induction false} RanCareful(hash: Digest, naming: Naming, base: nat, before: seq<Reorg.BlockEvent>,
                                      start: State, moves: seq<Move>)
    requires Consistent(naming, start)
    requires OrderedSince(naming, base, before, start, Ran(hash, naming, start, moves).server)
    ensures AllCareful(Ran(hash, naming, start, moves))
  {
    hide Inv, Enabled, After, AllSteady, AllCareful, OrderedSince, IndexFollows, Consistent;
    if moves == [] {
      BootCareful(start);
    } else {
      var w, move := Ran(hash, naming, start, moves[..|moves| - 1]), moves[|moves| - 1];
      if Enabled(naming, w, move) {
        LogGrows(hash, naming, base, before, start, w, move);
        RanCareful(hash, naming, base, before, start, moves[..|moves| - 1]);
        RanSteady(hash, naming, start, moves[..|moves| - 1]);
        AlwaysServed(hash, naming, start, moves[..|moves| - 1]);
        RanFollows(hash, naming, start, moves[..|moves| - 1]);
        MovedCareful(hash, naming, base, before, start, w, move);
      } else {
        RanCareful(hash, naming, base, before, start, moves[..|moves| - 1]);
      }
    }
  }

  /**
   * In every run with block events in stack order above height 0, once drained, a client is served if it
   * connected when the indexer had caught up and no wait of its own was cut off while the event was
   * unhandled: the record is current, and the last line written too unless its threads have crossed.
   */
  lemma PunctualConverged(hash: Digest, naming: Naming, base: nat, before: seq<Reorg.BlockEvent>, start: State,
                          moves: seq<Move>, c: Client, sh: ScriptHash)
    requires Consistent(naming, start)
    requires var w := Ran(hash, naming, start, moves);
      && Drained(w) && c in w.clients && sh in c.subs
      && OrderedSince(naming, base, before, start, w.server)
    requires c.conduct.prompt && c.conduct.waited
    ensures sh in c.statuses && Current(hash, Ran(hash, naming, start, moves).server.st, sh, c.statuses[sh])
    ensures sh !in c.out.crossed ==>
      sh in c.out.wire && Current(hash, Ran(hash, naming, start, moves).server.st, sh, c.out.wire[sh])
  {
    hide Ran, Current, Drained, OrderedSince, Consistent;
    RanCareful(hash, naming, base, before, start, moves);
    assert Careful(Ran(hash, naming, start, moves).server, c);
    PatientConverged(hash, naming, start, moves, c, sh);
  }

  // ---- A server that reopens a store --------------------------------------------------------

  lemma ReopenedConsistent(naming: Naming, st: State, st': State)
    requires Consistent(naming, st) && Restart.Reopened(st, st')
    ensures Consistent(naming, st')
  {
    hide Named, Restart.HistoryAgrees, Restart.JournalLoaded;
  }

  /** Whatever is reopened after a run of named events is a server to which the theorems above apply. */
  lemma ReopenedServer(naming: Naming, events: seq<Event>, start: State)
    requires forall e | e in events :: Announce.EventNamed(naming, e)
    requires Restart.Reopened(Model.Run(events), start)
    ensures Consistent(naming, start) && start.ix.tip == Reorg.Run(BlockEvents(events)).tip
  {
    hide Consistent, Announce.EventNamed, Model.Run, Reorg.Run, BlockEvents;
    RunConsistent(naming, events);
    ReopenedConsistent(naming, Model.Run(events), start);
    RunIndex(events);
    ReopenedTip(Model.Run(events), start);
  }

  lemma ReopenedTip(st: State, st': State)
    requires Restart.Reopened(st, st')
    ensures st'.ix.tip == st.ix.tip
  {
  }

  // ---- The queues drain ---------------------------------------------------------------------

  /** Moves that take no new input. */
  predicate Internal(move: Move) {
    || move.Index? || move.Broadcast? || move.Wait? || move.TakeBlock? || move.TakeChange?
    || move.ReadHistory? || move.ReadMempool? || move.WriteReply? || move.WriteNote?
  }

  /** Messages that clients still have to take. */
  function Queued(log: seq<SourceEvent>, clients: seq<Client>): int {
    if clients == [] then 0
    else
      var c := clients[|clients| - 1];
      Queued(log, clients[..|clients| - 1]) + (|log| - c.seen) + |c.inbox|
  }

  function Effort(c: Client): int {
    3 * |c.work| - (if c.half.Some? then 1 else 0) + (if c.conduct.ready then 0 else 1)
    + (if c.out.reply.Some? then 1 else 0) + |c.out.notes|
  }

  /** Reads, waits and lines to write that clients still have to do. */
  function Reads(clients: seq<Client>): int {
    if clients == [] then 0 else Reads(clients[..|clients| - 1]) + Effort(clients[|clients| - 1])
  }

  lemma {:induction false} QueuedUpdate(log: seq<SourceEvent>, clients: seq<Client>, i: nat, c: Client)
    requires i < |clients|
    ensures Queued(log, clients[i := c]) - Queued(log, clients)
         == clients[i].seen - c.seen + |c.inbox| - |clients[i].inbox|
  {
    var rest, last := clients[..|clients| - 1], |clients| - 1;
    if i < last {
      QueuedUpdate(log, rest, i, c);
      assert clients[i := c][..last] == rest[i := c];
    } else {
      assert clients[i := c][..last] == rest;
    }
  }

  lemma {:induction false} ReadsUpdate(clients: seq<Client>, i: nat, c: Client)
    requires i < |clients|
    ensures Reads(clients[i := c]) - Reads(clients) == Effort(c) - Effort(clients[i])
  {
    hide Effort;
    var rest, last := clients[..|clients| - 1], |clients| - 1;
    if i < last {
      ReadsUpdate(rest, i, c);
      assert clients[i := c][..last] == rest[i := c];
    } else {
      assert clients[i := c][..last] == rest;
    }
  }

  ghost predicate AllServed(hash: Digest, s: Server, clients: seq<Client>) {
    forall c | c in clients :: Served(hash, s, c)
  }

  lemma {:induction false} Counted(hash: Digest, s: Server, clients: seq<Client>)
    requires AllServed(hash, s, clients)
    ensures Queued(s.log, clients) >= 0 && Reads(clients) >= 0
  {
    if clients != [] {
      Counted(hash, s, clients[..|clients| - 1]);
      assert Served(hash, s, clients[|clients| - 1]);
    }
  }

  /** Events to index, sets to broadcast, messages to take, reads to do: in this order of weight. */
  ghost predicate Closer(w: World, w': World) {
    var a, b := |w.server.log| - w.server.applied, |w'.server.log| - w'.server.applied;
    var c, d := |w.server.unsent|, |w'.server.unsent|;
    var e, f := Queued(w.server.log, w.clients), Queued(w'.server.log, w'.clients);
    b < a || (b == a && (d < c || (d == c && (f < e || (f == e && Reads(w'.clients) < Reads(w.clients))))))
  }

  lemma LookedUpEffort(c: Client, status: Option<string>)
    requires Written(c) && c.work != [] && c.half.Some?
    ensures var c' := LookedUp(c, status);
      && Effort(c') < Effort(c) && c'.seen == c.seen && c'.inbox == c.inbox
  {
    hide InStep;
  }

  /** Without new input the system cannot move for ever. */
  lemma InternalCloser(hash: Digest, naming: Naming, w: World, move: Move)
    requires Inv(hash, naming, w)
    requires Enabled(naming, w, move) && Internal(move)
    ensures Closer(w, After(hash, naming, w, move))
  {
    hide Handled, Among, StatusHash, MempoolPairs, IsMempool, HistoryNow, Queued, Reads, BlockNewsIn, LooksHandled,
         Served, Written, Consistent, LogNamed, LookedUp;
    var w' := After(hash, naming, w, move);
    match move
    case Wait(i) =>
      QueuedUpdate(w.server.log, w.clients, i, w'.clients[i]);
      ReadsUpdate(w.clients, i, w'.clients[i]);
    case TakeBlock(i) => QueuedUpdate(w.server.log, w.clients, i, w'.clients[i]);
    case TakeChange(i) => QueuedUpdate(w.server.log, w.clients, i, w'.clients[i]);
    case ReadHistory(i, _) =>
      QueuedUpdate(w.server.log, w.clients, i, w'.clients[i]);
      ReadsUpdate(w.clients, i, w'.clients[i]);
    case ReadMempool(i, _) =>
      assert Served(hash, w.server, w.clients[i]) && Written(w.clients[i]);
      LookedUpEffort(w.clients[i], StatusHash(hash, w.clients[i].half.value, MempoolPairs(move.m)));
      QueuedUpdate(w.server.log, w.clients, i, w'.clients[i]);
      ReadsUpdate(w.clients, i, w'.clients[i]);
    case WriteReply(i) =>
      QueuedUpdate(w.server.log, w.clients, i, w'.clients[i]);
      ReadsUpdate(w.clients, i, w'.clients[i]);
    case WriteNote(i) =>
      QueuedUpdate(w.server.log, w.clients, i, w'.clients[i]);
      ReadsUpdate(w.clients, i, w'.clients[i]);
    case _ =>
  }

  lemma HistoryExists(st: State, sh: ScriptHash) returns (h: seq<TxEntry>)
    ensures HistoryNow(st, sh, h)
  {
    var all := Get(st.ix.history, sh) + Listing(PoolHistory(st.pool, st.ix.outputs, sh));
    SortBySorted(all, EntryKey);
    h := SortBy(all, EntryKey);
  }

  lemma MempoolExists(st: State, sh: ScriptHash) returns (m: seq<MempoolEntry>)
    ensures IsMempool(st.pool, st.ix.outputs, sh, m)
  {
    hide MempoolEntries;
    var all := Listing(MempoolEntries(st.pool, st.ix.outputs, sh));
    SortBySorted(all, MempoolKey);
    m := SortBy(all, MempoolKey);
  }

  /** Nor can it get stuck before the queues are drained. */
  lemma NotStuck(hash: Digest, naming: Naming, w: World) returns (move: Move)
    requires Inv(hash, naming, w) && !Drained(w)
    ensures Internal(move) && Enabled(naming, w, move) && Considerate(w, move)
  {
    hide HistoryNow, IsMempool, BlockNewsIn, Served, Written, Consistent, LogNamed;
    var s := w.server;
    if i :| 0 <= i < |w.clients| && w.clients[i].out.reply.Some? {
      move := WriteReply(i);
    } else if i :| 0 <= i < |w.clients| && NotifierFree(w.clients[i]) && w.clients[i].out.notes != [] {
      move := WriteNote(i);
    } else if s.applied < |s.log| {
      move := Move.Index;
    } else if s.unsent != [] {
      move := Broadcast(0);
    } else {
      var c :| c in w.clients && !(c.seen == |s.log| && c.inbox == [] && Idle(c) && AllWritten(c.out));
      var i :| 0 <= i < |w.clients| && w.clients[i] == c;
      move := ClientNotStuck(hash, naming, w, i);
    }
  }

  lemma ClientNotStuck(hash: Digest, naming: Naming, w: World, i: nat) returns (move: Move)
    requires i < |w.clients| && Served(hash, w.server, w.clients[i]) && Written(w.clients[i])
    requires w.server.applied == |w.server.log| && w.clients[i].out.reply.None?
    requires NotifierFree(w.clients[i]) ==> w.clients[i].out.notes == []
    requires var c := w.clients[i]; !(c.seen == |w.server.log| && c.inbox == [] && Idle(c) && AllWritten(c.out))
    ensures Internal(move) && Enabled(naming, w, move) && Considerate(w, move)
  {
    hide HistoryNow, IsMempool, BlockNewsIn, Due, UpToDate, Written;
    var c, st := w.clients[i], w.server.st;
    if c.work != [] {
      if c.half.None? {
        var h := HistoryExists(st, c.work[0]);
        move := ReadHistory(i, h);
      } else {
        var m := MempoolExists(st, c.work[0]);
        move := ReadMempool(i, m);
      }
    } else if c.inbox != [] {
      move := TakeChange(i);
    } else {
      move := TakeBlock(i);
    }
  }

  /** A block event is taken when all are handled, and a status recorded when the other thread has nothing to write. */
  predicate Considerate(w: World, move: Move) {
    match move
    case TakeBlock(_) => w.server.applied == |w.server.log|
    case ReadMempool(i, _) => i < |w.clients| ==>
      if w.clients[i].asking then w.clients[i].out.notes == [] else w.clients[i].out.reply.None?
    case _ => true
  }

  lemma RanNext(hash: Digest, naming: Naming, start: State, moves: seq<Move>, move: Move)
    requires Enabled(naming, Ran(hash, naming, start, moves), move)
    ensures Ran(hash, naming, start, moves + [move]) == After(hash, naming, Ran(hash, naming, start, moves), move)
  {
    hide Enabled, After;
    assert (moves + [move])[..|moves|] == moves;
  }

  /** The same connections: each that was prompt and patient still is, and no threads have crossed anew. */
  ghost predicate ConductKept(clients: seq<Client>, clients': seq<Client>) {
    && |clients'| == |clients|
    && forall i | 0 <= i < |clients| ::
         && clients'[i].out.crossed <= clients[i].out.crossed && clients'[i].subs == clients[i].subs
         && (clients[i].conduct.prompt && clients[i].conduct.patient ==>
               clients'[i].conduct.prompt && clients'[i].conduct.patient)
  }

  lemma LookedUpUncrossed(c: Client, status: Option<string>)
    requires c.work != [] && (if c.asking then c.out.notes == [] else c.out.reply.None?)
    ensures LookedUp(c, status).out.crossed <= c.out.crossed
  {
  }

  lemma InternalConduct(hash: Digest, naming: Naming, w: World, move: Move)
    requires Enabled(naming, w, move) && Internal(move) && Considerate(w, move)
    ensures ConductKept(w.clients, After(hash, naming, w, move).clients)
  {
    hide Handled, Among, StatusHash, MempoolPairs, IsMempool, HistoryNow, BlockNewsIn, LooksHandled, Ready, Answered,
         Noted;
    match move
    case ReadMempool(i, m) =>
      LookedUpUncrossed(w.clients[i], StatusHash(hash, w.clients[i].half.value, MempoolPairs(m)));
    case _ =>
  }

  lemma ConductTransitive(a: seq<Client>, b: seq<Client>, c: seq<Client>)
    requires ConductKept(a, b) && ConductKept(b, c)
    ensures ConductKept(a, c)
  {
  }

  /**
   * From wherever a run has got to, indexing, broadcasting, notifying and writing alone can drain the
   * queues, without costing any client its promptness or patience and without crossing any threads.
   */
  lemma {:induction false} Drains(hash: Digest, naming: Naming, start: State, moves: seq<Move>)
    returns (more: seq<Move>)
    requires Consistent(naming, start)
    ensures (forall move | move in more :: Internal(move)) && Drained(Ran(hash, naming, start, moves + more))
    ensures ConductKept(Ran(hash, naming, start, moves).clients, Ran(hash, naming, start, moves + more).clients)
    decreases |Ran(hash, naming, start, moves).server.log| - Ran(hash, naming, start, moves).server.applied,
              |Ran(hash, naming, start, moves).server.unsent|,
              Queued(Ran(hash, naming, start, moves).server.log, Ran(hash, naming, start, moves).clients),
              Reads(Ran(hash, naming, start, moves).clients)
  {
    hide Ran, Enabled, After, Drained, Internal, Queued, Reads, Served, Written, Consistent, LogNamed, ConductKept,
         Considerate;
    var w := Ran(hash, naming, start, moves);
    if Drained(w) {
      more := [];
      assert moves + [] == moves;
      ConductItself(w.clients);
    } else {
      AlwaysServed(hash, naming, start, moves);
      var move := NotStuck(hash, naming, w);
      InternalCloser(hash, naming, w, move);
      InternalConduct(hash, naming, w, move);
      RanNext(hash, naming, start, moves, move);
      AlwaysServed(hash, naming, start, moves + [move]);
      Counted(hash, w.server, w.clients);
      var rest := Drains(hash, naming, start, moves + [move]);
      more := [move] + rest;
      assert moves + [move] + rest == moves + more;
      ConductTransitive(w.clients, Ran(hash, naming, start, moves + [move]).clients,
                        Ran(hash, naming, start, moves + more).clients);
    }
  }

  lemma ConductItself(clients: seq<Client>)
    ensures ConductKept(clients, clients)
  {
  }

  /** So every prompt and patient client can always be served without new input. */
  lemma PatientCatchUp(hash: Digest, naming: Naming, start: State, moves: seq<Move>, i: nat, sh: ScriptHash)
    returns (more: seq<Move>)
    requires Consistent(naming, start)
    requires var w := Ran(hash, naming, start, moves);
      && i < |w.clients| && sh in w.clients[i].subs
      && w.clients[i].conduct.prompt && w.clients[i].conduct.patient
    ensures forall move | move in more :: Internal(move)
    ensures var w := Ran(hash, naming, start, moves + more);
      && Drained(w) && i < |w.clients| && sh in w.clients[i].statuses
      && Current(hash, w.server.st, sh, w.clients[i].statuses[sh])
      && (sh !in Ran(hash, naming, start, moves).clients[i].out.crossed ==>
            sh in w.clients[i].out.wire && Current(hash, w.server.st, sh, w.clients[i].out.wire[sh]))
  {
    hide Ran, Current, Drained, Internal, Consistent;
    more := Drains(hash, naming, start, moves);
    PatientConverged(hash, naming, start, moves + more, Ran(hash, naming, start, moves + more).clients[i], sh);
  }
}
