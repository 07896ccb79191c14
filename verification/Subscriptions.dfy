/**
 * Subscriptions as a state machine: block events and pending changes reach every client through its
 * own queues, while the index moves on between any two reads. Once the queues are drained, every
 * subscribed script hash has its current status.
 */
module Subscriptions {
  import opened Announce
  import opened Chain
  import opened Fanout
  import opened Model
  import opened Notify
  import opened Queries
  import opened Status
  import opened Statuses
  import opened Waiting
  import opened Wire
  import Reorg

  // ---- Server and clients -------------------------------------------------------------------

  /**
   * `log` holds every block event broadcast so far, of which the indexer has handled `applied`;
   * `unsent` the announced sets that are computed but not broadcast yet.
   */
  datatype Server = Server(st: State, log: seq<SourceEvent>, applied: nat, unsent: seq<set<ScriptHash>>)

  /**
   * One connection. Its block queue is `log[seen..]`, its change queue is `inbox`. `work` is what the
   * holder of the state lock still has to look up, `asking` whether the holder is the thread that answers
   * requests, `half` the history read for the first of them. `statuses` is the server's record, `out`
   * what is written to the client. `late` and `conduct` are bookkeeping: `late` has the script hashes last
   * read while the indexer was behind events that this client had no longer in its queue.
   */
  datatype Client = Client(seen: nat, inbox: seq<set<ScriptHash>>, subs: seq<ScriptHash>,
                           statuses: map<ScriptHash, Option<string>>, work: seq<ScriptHash>, asking: bool,
                           half: Option<seq<TxEntry>>, out: Outgoing, late: set<ScriptHash>, conduct: Conduct)

  /**
   * `prompt`: it connected when the indexer had handled every block event broadcast before. `patient`: it
   * has taken each block event only once it was handled. `waited`: no wait for the indexer was cut off
   * while its event was still unhandled. `ready`: the tip comparison has held for its next block event.
   */
  datatype Conduct = Conduct(prompt: bool, patient: bool, waited: bool, ready: bool)

  datatype World = World(server: Server, clients: seq<Client>)

  /** A server that has just opened its store. */
  function Boot(start: State): World {
    World(Server(start, [], 0, []), [])
  }

  datatype Move =
    | Emit(event: SourceEvent)
    | Index
    | Change(e: Event, order: seq<Txid>)
    | Broadcast(index: nat)
    | Join
    | Leave(client: nat)
    | Subscribe(client: nat, sh: ScriptHash)
    | Wait(client: nat)
    | TakeBlock(client: nat)
    | TakeChange(client: nat)
    | ReadHistory(client: nat, h: seq<TxEntry>)
    | ReadMempool(client: nat, m: seq<MempoolEntry>)
    | WriteReply(client: nat)
    | WriteNote(client: nat)

  predicate IsBlockNews(e: SourceEvent) {
    !e.ChainSynced?
  }

  /** A block event as the index sees it. */
  function AsBlockEvent(e: SourceEvent): Reorg.BlockEvent
    requires IsBlockNews(e)
  {
    match e
    case BlockConnected(block, h) => Reorg.Connected(block, h)
    case BlockDisconnected(_, h) => Reorg.Disconnected(h)
  }

  /** What a client that waits for the indexer compares. */
  predicate LooksHandled(s: Server, c: Client) {
    c.seen < |s.log| && IsBlockNews(s.log[c.seen]) && Ready(AsBlockEvent(s.log[c.seen]), s.st.ix.tip)
  }

  function Handled(st: State, e: SourceEvent): State {
    match e
    case BlockConnected(block, h) => Connect(st, block, h)
    case BlockDisconnected(_, h) => Disconnect(st, h)
    case ChainSynced(_, _) => st
  }

  predicate BlockNewsIn(log: seq<SourceEvent>, from: nat, to: nat) {
    exists k :: from <= k < Min(to, |log|) && IsBlockNews(log[k])
  }

  /** The client has taken, or joined after, a block event that the indexer has not handled. */
  predicate Ahead(s: Server, c: Client) {
    BlockNewsIn(s.log, s.applied, c.seen)
  }

  /** Nobody holds the client's state lock. */
  predicate Idle(c: Client) {
    c.work == []
  }

  /** The notification thread is not inside its loop. */
  predicate NotifierFree(c: Client) {
    Idle(c) || c.asking
  }

  ghost predicate Enabled(naming: Naming, w: World, move: Move) {
    var s := w.server;
    match move
    case Emit(event) => event.BlockConnected? ==> BlockNamed(naming, event.block)
    case Index => s.applied < |s.log|
    case Change(e, order) => IsPendingEvent(e) && EventNamed(naming, e) && InOrder(s.st, e, order)
    case Broadcast(i) => i < |s.unsent|
    case Join => true
    case Leave(i) => i < |w.clients|
    case Subscribe(i, _) => i < |w.clients| && Idle(w.clients[i]) && w.clients[i].out.reply.None?
    case Wait(i) => i < |w.clients| && NotifierFree(w.clients[i]) && w.clients[i].out.notes == []
                    && !w.clients[i].conduct.ready && LooksHandled(s, w.clients[i])
    case TakeBlock(i) => i < |w.clients| && Idle(w.clients[i]) && w.clients[i].out.notes == []
                         && w.clients[i].seen < |s.log|
    case TakeChange(i) => i < |w.clients| && Idle(w.clients[i]) && w.clients[i].out.notes == []
                          && w.clients[i].inbox != []
    case ReadHistory(i, h) => i < |w.clients| && !Idle(w.clients[i]) && w.clients[i].half.None?
                              && HistoryNow(s.st, w.clients[i].work[0], h)
    case ReadMempool(i, m) => i < |w.clients| && !Idle(w.clients[i]) && w.clients[i].half.Some?
                              && IsMempool(s.st.pool, s.st.ix.outputs, w.clients[i].work[0], m)
    case WriteReply(i) => i < |w.clients| && w.clients[i].out.reply.Some?
    case WriteNote(i) => i < |w.clients| && NotifierFree(w.clients[i]) && w.clients[i].out.notes != []
  }

  function Among(subs: seq<ScriptHash>, told: set<ScriptHash>): seq<ScriptHash> {
    if subs == [] then []
    else
      var rest, last := Among(subs[..|subs| - 1], told), subs[|subs| - 1];
      if last in told then rest + [last] else rest
  }

  function Subscribed(c: Client, sh: ScriptHash): Client {
    c.(subs := if sh in c.subs then c.subs else c.subs + [sh], work := [sh], asking := true)
  }

  /** A client that connects now. */
  function Joined(s: Server): Client {
    var prompt := !BlockNewsIn(s.log, s.applied, |s.log|);
    Client(|s.log|, [], [], map[], [], false, None, NOTHING_SENT, {}, Conduct(prompt, true, true, false))
  }

  function WaitOver(c: Client): Client {
    c.(conduct := c.conduct.(ready := true))
  }

  /** A wait can be cut off, so the event need neither look handled nor be handled. */
  function BlockTaken(s: Server, c: Client): Client
    requires c.seen < |s.log|
  {
    var e := s.log[c.seen];
    var c' := c.(seen := c.seen + 1);
    if IsBlockNews(e) then
      c'.(work := c.subs,
          conduct := Conduct(c.conduct.prompt, c.conduct.patient && c.seen < s.applied,
                             c.conduct.waited && (c.conduct.ready || c.seen < s.applied), false))
    else c'.(work := [])
  }

  function ChangeTaken(c: Client): Client
    requires c.inbox != []
  {
    c.(inbox := c.inbox[1..], work := Among(c.subs, c.inbox[0]))
  }

  function HistoryRead(s: Server, c: Client, h: seq<TxEntry>): Client
    requires c.work != []
  {
    c.(half := Some(h), late := if Ahead(s, c) then c.late + {c.work[0]} else c.late - {c.work[0]})
  }

  /** The lock is released after the last lookup; the line for a status is written later. */
  function MempoolRead(hash: Digest, c: Client, m: seq<MempoolEntry>): Client
    requires c.work != [] && c.half.Some?
  {
    LookedUp(c, StatusHash(hash, c.half.value, MempoolPairs(m)))
  }

  /** A response is always written, a notification only if the status has moved. */
  function LookedUp(c: Client, status: Option<string>): Client
    requires c.work != []
  {
    var sh := c.work[0];
    c.(statuses := c.statuses[sh := status], work := c.work[1..], half := None, asking := false,
       out := if c.asking then Answered(c.out, sh, status)
              else if LastRecorded(c.statuses, sh) == status then c.out
              else Noted(c.out, sh, status))
  }

  function LastRecorded(statuses: map<ScriptHash, Option<string>>, sh: ScriptHash): Option<string> {
    if sh in statuses then statuses[sh] else None
  }

  function SendAll(clients: seq<Client>, told: set<ScriptHash>): seq<Client> {
    seq(|clients|, i requires 0 <= i < |clients| => clients[i].(inbox := clients[i].inbox + [told]))
  }

  function Without<T>(xs: seq<T>, i: nat): seq<T>
    requires i < |xs|
  {
    xs[..i] + xs[i + 1..]
  }

  ghost function After(hash: Digest, naming: Naming, w: World, move: Move): World
    requires Enabled(naming, w, move)
  {
    var s := w.server;
    match move
    case Emit(event) => w.(server := s.(log := s.log + [event]))
    case Index => w.(server := s.(st := Handled(s.st, s.log[s.applied]), applied := s.applied + 1))
    case Change(e, order) =>
      var told := Announced(s.st, e, order);
      w.(server := s.(st := Model.Next(s.st, e), unsent := if told.Some? then s.unsent + [told.value] else s.unsent))
    case Broadcast(i) => World(s.(unsent := Without(s.unsent, i)), SendAll(w.clients, s.unsent[i]))
    case Join => w.(clients := w.clients + [Joined(s)])
    case Leave(i) => w.(clients := Without(w.clients, i))
    case Subscribe(i, sh) => w.(clients := w.clients[i := Subscribed(w.clients[i], sh)])
    case Wait(i) => w.(clients := w.clients[i := WaitOver(w.clients[i])])
    case TakeBlock(i) => w.(clients := w.clients[i := BlockTaken(s, w.clients[i])])
    case TakeChange(i) => w.(clients := w.clients[i := ChangeTaken(w.clients[i])])
    case ReadHistory(i, h) => w.(clients := w.clients[i := HistoryRead(s, w.clients[i], h)])
    case ReadMempool(i, m) => w.(clients := w.clients[i := MempoolRead(hash, w.clients[i], m)])
    case WriteReply(i) => w.(clients := w.clients[i := w.clients[i].(out := ReplyWritten(w.clients[i].out))])
    case WriteNote(i) => w.(clients := w.clients[i := w.clients[i].(out := NoteWritten(w.clients[i].out))])
  }

  /** Any finite run after opening a store, at first without clients; a move that cannot happen changes nothing. */
  ghost function Ran(hash: Digest, naming: Naming, start: State, moves: seq<Move>): World {
    if moves == [] then Boot(start)
    else
      var w, move := Ran(hash, naming, start, moves[..|moves| - 1]), moves[|moves| - 1];
      if Enabled(naming, w, move) then After(hash, naming, w, move) else w
  }

  // ---- The invariant ------------------------------------------------------------------------

  function Rest(c: Client): seq<ScriptHash> {
    if c.half.Some? && c.work != [] then c.work[1..] else c.work
  }

  predicate Reading(c: Client, sh: ScriptHash) {
    c.half.Some? && c.work != [] && c.work[0] == sh
  }

  predicate BlockDue(s: Server, c: Client) {
    BlockNewsIn(s.log, c.seen, s.applied)
  }

  ghost predicate Told(messages: seq<set<ScriptHash>>, sh: ScriptHash) {
    exists told :: told in messages && sh in told
  }

  /** A queued message or an unfinished loop will make the client look the script hash up again. */
  ghost predicate Due(s: Server, c: Client, sh: ScriptHash) {
    BlockDue(s, c) || Told(c.inbox, sh) || Told(s.unsent, sh) || sh in Rest(c)
  }

  ghost predicate UpToDate(hash: Digest, s: Server, c: Client, sh: ScriptHash) {
    if Reading(c, sh) then HistoryNow(s.st, sh, c.half.value)
    else sh in c.statuses && Current(hash, s.st, sh, c.statuses[sh])
  }

  ghost predicate Served(hash: Digest, s: Server, c: Client) {
    && c.seen <= |s.log| && (c.half.Some? ==> c.work != [])
    && (c.conduct.ready ==> c.seen < |s.log| && IsBlockNews(s.log[c.seen]))
    && (forall sh | sh in c.subs && sh !in c.late :: Due(s, c, sh) || UpToDate(hash, s, c, sh))
    && (Ahead(s, c) ==> forall sh | sh in c.subs :: sh in c.late || sh in Rest(c))
  }

  /** Whatever is recorded is written or will be, and only a thread's own lookups are under way. */
  predicate Written(c: Client) {
    && (c.asking ==> c.out.reply.None? && |c.work| == 1)
    && (!c.asking ==> forall sh | sh in c.work :: sh in c.subs)
    && (forall sh | sh in c.subs :: sh in c.statuses || (c.asking && sh in c.work))
    && (forall sh | sh in c.statuses :: InStep(c.out, sh, c.statuses[sh]))
  }

  ghost predicate LogNamed(naming: Naming, log: seq<SourceEvent>) {
    forall e | e in log && e.BlockConnected? :: BlockNamed(naming, e.block)
  }

  ghost predicate Inv(hash: Digest, naming: Naming, w: World) {
    && Consistent(naming, w.server.st) && LogNamed(naming, w.server.log) && w.server.applied <= |w.server.log|
    && forall c | c in w.clients :: Served(hash, w.server, c) && Written(c)
  }

  lemma NewsLonger(log: seq<SourceEvent>, event: SourceEvent, from: nat, to: nat)
    requires to <= |log|
    ensures BlockNewsIn(log + [event], from, to) <==> BlockNewsIn(log, from, to)
  {
    var more := log + [event];
    if BlockNewsIn(log, from, to) {
      var k :| from <= k < Min(to, |log|) && IsBlockNews(log[k]);
      assert IsBlockNews(more[k]);
    }
    if BlockNewsIn(more, from, to) {
      var k :| from <= k < Min(to, |more|) && IsBlockNews(more[k]);
      assert IsBlockNews(log[k]);
    }
  }

  lemma EmitServed(hash: Digest, s: Server, c: Client, event: SourceEvent)
    requires Served(hash, s, c) && s.applied <= |s.log|
    ensures Served(hash, s.(log := s.log + [event]), c)
  {
    hide Current, Told, HistoryNow, Rest, Reading, BlockNewsIn;
    NewsLonger(s.log, event, c.seen, s.applied);
    NewsLonger(s.log, event, s.applied, c.seen);
  }

  lemma IndexServed(hash: Digest, s: Server, c: Client)
    requires Served(hash, s, c) && s.applied < |s.log|
    ensures Served(hash, s.(st := Handled(s.st, s.log[s.applied]), applied := s.applied + 1), c)
  {
    hide Current, Told, HistoryNow, Rest, Reading, Connect, Disconnect;
    var s' := s.(st := Handled(s.st, s.log[s.applied]), applied := s.applied + 1);
    assert BlockDue(s, c) ==> BlockDue(s', c);
    assert Ahead(s', c) ==> Ahead(s, c);
    if IsBlockNews(s.log[s.applied]) {
      assert BlockDue(s', c) || Ahead(s, c);
    }
  }

  lemma ToldMore(messages: seq<set<ScriptHash>>, told: set<ScriptHash>, sh: ScriptHash)
    ensures Told(messages + [told], sh) <==> Told(messages, sh) || sh in told
  {
    assert told in messages + [told];
  }

  lemma UpToDateStill(hash: Digest, s: Server, s': Server, c: Client, sh: ScriptHash)
    requires UpToDate(hash, s, c, sh)
    requires Get(s.st.ix.history, sh) == Get(s'.st.ix.history, sh)
    requires Entries(s.st.pool, s.st.ix.outputs, sh) == Entries(s'.st.pool, s'.st.ix.outputs, sh)
    ensures UpToDate(hash, s', c, sh)
  {
    hide HistoryNow, PairsNow, StatusHash, Entries;
    SameAnswers(s.st, s'.st, sh);
    if !Reading(c, sh) {
      var h, ps :| && HistoryNow(s.st, sh, h) && PairsNow(s.st, sh, ps)
                   && c.statuses[sh] == StatusHash(hash, h, ps);
      assert HistoryNow(s'.st, sh, h) && PairsNow(s'.st, sh, ps);
    }
  }

  lemma ChangeServed(hash: Digest, naming: Naming, s: Server, c: Client, e: Event, order: seq<Txid>)
    requires Served(hash, s, c) && Consistent(naming, s.st)
    requires IsPendingEvent(e) && EventNamed(naming, e) && InOrder(s.st, e, order)
    ensures var told := Announced(s.st, e, order);
      Served(hash, s.(st := Model.Next(s.st, e),
                      unsent := if told.Some? then s.unsent + [told.value] else s.unsent), c)
  {
    hide Told, UpToDate, Rest, Consistent, Announced, Model.Next, InOrder, EventNamed, IsPendingEvent, Entries;
    var told := Announced(s.st, e, order);
    var s' := s.(st := Model.Next(s.st, e), unsent := if told.Some? then s.unsent + [told.value] else s.unsent);
    forall sh | sh in c.subs && sh !in c.late ensures Due(s', c, sh) || UpToDate(hash, s', c, sh) {
      if told.Some? { ToldMore(s.unsent, told.value, sh); }
      if told.Some? && sh in told.value {
      } else {
        PendingQuiet(naming, s.st, e, order, sh);
        if UpToDate(hash, s, c, sh) { UpToDateStill(hash, s, s', c, sh); }
      }
    }
  }

  lemma ToldWithout(messages: seq<set<ScriptHash>>, i: nat, sh: ScriptHash)
    requires i < |messages|
    ensures Told(messages, sh) <==> Told(Without(messages, i), sh) || sh in messages[i]
  {
    assert messages == messages[..i] + [messages[i]] + messages[i + 1..];
  }

  lemma BroadcastServed(hash: Digest, s: Server, c: Client, i: nat)
    requires Served(hash, s, c) && i < |s.unsent|
    ensures Served(hash, s.(unsent := Without(s.unsent, i)), c.(inbox := c.inbox + [s.unsent[i]]))
  {
    hide Told, HistoryNow, Current, Without;
    var s', c' := s.(unsent := Without(s.unsent, i)), c.(inbox := c.inbox + [s.unsent[i]]);
    forall sh ensures Told(c.inbox, sh) || Told(s.unsent, sh) ==> Told(c'.inbox, sh) || Told(s'.unsent, sh) {
      ToldMore(c.inbox, s.unsent[i], sh);
      ToldWithout(s.unsent, i, sh);
    }
  }

  lemma SubscribeWritten(c: Client, sh: ScriptHash)
    requires Written(c) && Idle(c) && c.out.reply.None?
    ensures Written(Subscribed(c, sh))
  {
    hide InStep;
  }

  lemma TakenWritten(c: Client, c': Client)
    requires Written(c) && Idle(c) && c'.subs == c.subs && c'.statuses == c.statuses && c'.out == c.out
    requires c'.asking == c.asking && forall sh | sh in c'.work :: sh in c.subs
    ensures Written(c')
  {
    hide InStep;
  }

  lemma LookedUpWritten(c: Client, status: Option<string>)
    requires Written(c) && c.work != []
    ensures Written(LookedUp(c, status))
  {
    hide InStep, Answered, Noted;
    var sh, c' := c.work[0], LookedUp(c, status);
    forall other | other in c'.statuses ensures InStep(c'.out, other, c'.statuses[other]) {
      if c.asking {
        AnsweredInStep(c.out, sh, status, other, c'.statuses[other]);
      } else {
        assert sh in c.subs && sh in c.statuses;
        NotedInStep(c.out, sh, status, other, c'.statuses[other]);
      }
    }
    assert forall x | x in c.work :: x == sh || x in c.work[1..];
    assert forall x | x in c.work[1..] :: x in c.work;
  }

  lemma WroteReply(c: Client)
    requires Written(c) && c.out.reply.Some?
    ensures Written(c.(out := ReplyWritten(c.out)))
  {
    hide InStep, ReplyWritten;
    ReplyGone(c.out);
    forall sh | sh in c.statuses ensures InStep(ReplyWritten(c.out), sh, c.statuses[sh]) {
      ReplyWrittenInStep(c.out, sh, c.statuses[sh]);
    }
  }

  lemma ReplyGone(o: Outgoing)
    requires o.reply.Some?
    ensures ReplyWritten(o).reply.None?
  {
  }

  lemma WroteNote(c: Client)
    requires Written(c) && c.out.notes != []
    ensures Written(c.(out := NoteWritten(c.out)))
  {
    hide InStep;
    forall sh | sh in c.statuses ensures InStep(NoteWritten(c.out), sh, c.statuses[sh]) {
      NoteWrittenInStep(c.out, sh, c.statuses[sh]);
    }
  }

  /** A line written changes nothing that the record depends on. */
  lemma WroteServed(hash: Digest, s: Server, c: Client, out: Outgoing)
    requires Served(hash, s, c)
    ensures Served(hash, s, c.(out := out))
  {
    hide Told, HistoryNow, Current, BlockNewsIn;
  }

  lemma SubscribeServed(hash: Digest, s: Server, c: Client, sh: ScriptHash)
    requires Served(hash, s, c) && Idle(c)
    ensures Served(hash, s, Subscribed(c, sh))
  {
    hide Told, HistoryNow, Current, BlockNewsIn;
  }

  lemma {:induction false} AmongAll(subs: seq<ScriptHash>, told: set<ScriptHash>)
    ensures forall sh :: sh in Among(subs, told) <==> sh in subs && sh in told
  {
    if subs != [] {
      AmongAll(subs[..|subs| - 1], told);
      assert subs == subs[..|subs| - 1] + [subs[|subs| - 1]];
    }
  }

  lemma WaitServed(hash: Digest, s: Server, c: Client)
    requires Served(hash, s, c) && LooksHandled(s, c)
    ensures Served(hash, s, WaitOver(c))
  {
    hide Told, HistoryNow, Current, BlockNewsIn;
  }

  lemma TakeBlockServed(hash: Digest, s: Server, c: Client)
    requires Served(hash, s, c) && Idle(c) && c.seen < |s.log|
    ensures Served(hash, s, BlockTaken(s, c))
  {
    hide Told, HistoryNow, Current;
    var c' := BlockTaken(s, c);
    if !IsBlockNews(s.log[c.seen]) {
      assert BlockDue(s, c) ==> BlockDue(s, c');
      assert Ahead(s, c') ==> Ahead(s, c);
    }
  }

  lemma TakeChangeServed(hash: Digest, s: Server, c: Client)
    requires Served(hash, s, c) && Idle(c) && c.inbox != []
    ensures Served(hash, s, ChangeTaken(c))
  {
    hide Told, HistoryNow, Current, Among;
    var c' := ChangeTaken(c);
    AmongAll(c.subs, c.inbox[0]);
    forall sh ensures Told(c.inbox, sh) <==> Told(c'.inbox, sh) || sh in c.inbox[0] {
      ToldWithout(c.inbox, 0, sh);
      assert Without(c.inbox, 0) == c.inbox[1..];
    }
  }

  lemma ReadHistoryServed(hash: Digest, s: Server, c: Client, h: seq<TxEntry>)
    requires Served(hash, s, c) && c.work != [] && c.half.None? && HistoryNow(s.st, c.work[0], h)
    ensures Served(hash, s, HistoryRead(s, c, h))
  {
    hide Told, HistoryNow, Current;
    assert forall sh :: sh in c.work ==> sh == c.work[0] || sh in c.work[1..];
  }

  lemma ReadMempoolServed(hash: Digest, s: Server, c: Client, m: seq<MempoolEntry>)
    requires Served(hash, s, c) && c.work != [] && c.half.Some?
    requires IsMempool(s.st.pool, s.st.ix.outputs, c.work[0], m)
    ensures Served(hash, s, MempoolRead(hash, c, m))
  {
    hide Told, HistoryNow, PairsNow, StatusHash, MempoolPairs, IsMempool, BlockNewsIn;
    MempoolPairsNow(s.st, c.work[0], m);
  }

  lemma JoinServed(hash: Digest, s: Server)
    ensures Served(hash, s, Joined(s)) && Written(Joined(s))
  {
  }

  lemma BlockTakenWork(s: Server, c: Client)
    requires c.seen < |s.log|
    ensures var c' := BlockTaken(s, c);
      && c'.work == (if IsBlockNews(s.log[c.seen]) then c.subs else [])
      && c'.subs == c.subs && c'.statuses == c.statuses && c'.out == c.out && c'.asking == c.asking
  {
    hide Ready;
  }

  lemma HandledConsistent(naming: Naming, st: State, e: SourceEvent)
    requires Consistent(naming, st) && (e.BlockConnected? ==> BlockNamed(naming, e.block))
    ensures Consistent(naming, Handled(st, e))
  {
    hide Consistent, Connect, Disconnect;
    match e
    case BlockConnected(block, h) => NextConsistent(naming, st, Connected(block, h));
    case BlockDisconnected(_, h) => NextConsistent(naming, st, Disconnected(h));
    case ChainSynced(_, _) =>
  }

  lemma OneServed(hash: Digest, naming: Naming, w: World, i: nat, c: Client)
    requires Inv(hash, naming, w) && i < |w.clients| && Served(hash, w.server, c) && Written(c)
    ensures Inv(hash, naming, w.(clients := w.clients[i := c]))
  {
    hide Served, Written, Consistent, LogNamed;
  }

  lemma ServerMoved(hash: Digest, naming: Naming, w: World, move: Move)
    requires Inv(hash, naming, w) && Enabled(naming, w, move)
    requires move.Emit? || move.Index? || move.Change? || move.Broadcast?
    ensures Inv(hash, naming, After(hash, naming, w, move))
  {
    hide Served, Written, Consistent, Handled, Announced, Model.Next, Without;
    var s, w' := w.server, After(hash, naming, w, move);
    match move
    case Emit(event) =>
      forall c | c in w.clients ensures Served(hash, w'.server, c) { EmitServed(hash, s, c, event); }
    case Index =>
      HandledConsistent(naming, s.st, s.log[s.applied]);
      forall c | c in w.clients ensures Served(hash, w'.server, c) { IndexServed(hash, s, c); }
    case Change(e, order) =>
      NextConsistent(naming, s.st, e);
      forall c | c in w.clients ensures Served(hash, w'.server, c) { ChangeServed(hash, naming, s, c, e, order); }
    case Broadcast(i) =>
      forall k | 0 <= k < |w.clients| ensures Served(hash, w'.server, w'.clients[k]) && Written(w'.clients[k]) {
        BroadcastServed(hash, s, w.clients[k], i);
        InboxWritten(w.clients[k], w'.clients[k].inbox);
      }
  }

  lemma InboxWritten(c: Client, inbox: seq<set<ScriptHash>>)
    requires Written(c)
    ensures Written(c.(inbox := inbox))
  {
    hide InStep;
  }

  lemma HalfWritten(c: Client, c': Client)
    requires Written(c) && c' == c.(half := c'.half, late := c'.late, conduct := c'.conduct)
    ensures Written(c')
  {
    hide InStep;
  }

  lemma ClientMoved(hash: Digest, naming: Naming, w: World, move: Move)
    requires Inv(hash, naming, w) && Enabled(naming, w, move)
    requires !move.Emit? && !move.Index? && !move.Change? && !move.Broadcast?
    ensures Inv(hash, naming, After(hash, naming, w, move))
  {
    hide Served, Written, Consistent, LogNamed, Among, StatusHash, MempoolPairs, IsMempool, HistoryNow, BlockTaken,
         Joined, LooksHandled, LookedUp, ReplyWritten, NoteWritten;
    var s, w' := w.server, After(hash, naming, w, move);
    match move
    case Join => JoinServed(hash, s);
    case Leave(i) =>
    case Subscribe(i, sh) =>
      SubscribeServed(hash, s, w.clients[i], sh);
      SubscribeWritten(w.clients[i], sh);
      OneServed(hash, naming, w, i, w'.clients[i]);
    case Wait(i) =>
      WaitServed(hash, s, w.clients[i]);
      HalfWritten(w.clients[i], w'.clients[i]);
      OneServed(hash, naming, w, i, w'.clients[i]);
    case TakeBlock(i) =>
      TakeBlockServed(hash, s, w.clients[i]);
      BlockTakenWork(s, w.clients[i]);
      TakenWritten(w.clients[i], w'.clients[i]);
      OneServed(hash, naming, w, i, w'.clients[i]);
    case TakeChange(i) =>
      TakeChangeServed(hash, s, w.clients[i]);
      AmongAll(w.clients[i].subs, w.clients[i].inbox[0]);
      TakenWritten(w.clients[i], w'.clients[i]);
      OneServed(hash, naming, w, i, w'.clients[i]);
    case ReadHistory(i, h) =>
      ReadHistoryServed(hash, s, w.clients[i], h);
      HalfWritten(w.clients[i], w'.clients[i]);
      OneServed(hash, naming, w, i, w'.clients[i]);
    case ReadMempool(i, m) =>
      ReadMempoolServed(hash, s, w.clients[i], m);
      LookedUpWritten(w.clients[i], StatusHash(hash, w.clients[i].half.value, MempoolPairs(m)));
      OneServed(hash, naming, w, i, w'.clients[i]);
    case WriteReply(i) =>
      WroteServed(hash, s, w.clients[i], ReplyWritten(w.clients[i].out));
      WroteReply(w.clients[i]);
      OneServed(hash, naming, w, i, w'.clients[i]);
    case WriteNote(i) =>
      WroteServed(hash, s, w.clients[i], NoteWritten(w.clients[i].out));
      WroteNote(w.clients[i]);
      OneServed(hash, naming, w, i, w'.clients[i]);
    case _ => assert false;
  }

  lemma {:induction false} AlwaysServed(hash: Digest, naming: Naming, start: State, moves: seq<Move>)
    requires Consistent(naming, start)
    ensures Inv(hash, naming, Ran(hash, naming, start, moves))
  {
    hide Inv, Enabled, After, Consistent;
    if moves == [] {
      BootServed(hash, naming, start);
    } else {
      var w, move := Ran(hash, naming, start, moves[..|moves| - 1]), moves[|moves| - 1];
      AlwaysServed(hash, naming, start, moves[..|moves| - 1]);
      if Enabled(naming, w, move) {
        if move.Emit? || move.Index? || move.Change? || move.Broadcast? {
          ServerMoved(hash, naming, w, move);
        } else {
          ClientMoved(hash, naming, w, move);
        }
      }
    }
  }

  lemma BootServed(hash: Digest, naming: Naming, start: State)
    requires Consistent(naming, start)
    ensures Inv(hash, naming, Boot(start))
  {
  }

  // ---- Convergence --------------------------------------------------------------------------

  /** The indexer has caught up, nothing is left to broadcast, to take, to look up or to write. */
  ghost predicate Drained(w: World) {
    && w.server.applied == |w.server.log| && w.server.unsent == []
    && forall c | c in w.clients :: c.seen == |w.server.log| && c.inbox == [] && Idle(c) && AllWritten(c.out)
  }

  /**
   * In every run, once drained, whatever was not read too early is recorded as it is; and the last line the
   * client got says so too, unless the two threads of the connection have crossed.
   */
  lemma Converged(hash: Digest, naming: Naming, start: State, moves: seq<Move>, c: Client, sh: ScriptHash)
    requires Consistent(naming, start)
    requires var w := Ran(hash, naming, start, moves); Drained(w) && c in w.clients
    requires sh in c.subs && sh !in c.late
    ensures sh in c.statuses && Current(hash, Ran(hash, naming, start, moves).server.st, sh, c.statuses[sh])
    ensures sh !in c.out.crossed ==>
      sh in c.out.wire && Current(hash, Ran(hash, naming, start, moves).server.st, sh, c.out.wire[sh])
  {
    hide Ran, Current, HistoryNow, Consistent;
    AlwaysServed(hash, naming, start, moves);
    assert Served(hash, Ran(hash, naming, start, moves).server, c) && Written(c);
    assert InStep(c.out, sh, c.statuses[sh]);
  }
}
