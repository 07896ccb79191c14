/**
 * Lock-protected fan-out: one order of events for all subscribers, and the block source that
 * caches a block before announcing it.
 */
module Fanout {
  import opened Chain

  /**
   * One subscriber's channel: everything sent to it so far, and whether its receiver still exists.
   * `since` counts the events that had been sent when it subscribed; only the proofs look at it.
   */
  datatype Sub<T> = Sub(since: nat, stream: seq<T>, live: bool)

  function Delivered<T>(subs: seq<Sub<T>>, event: T): seq<Sub<T>> {
    if subs == [] then []
    else
      var rest, last := Delivered(subs[..|subs| - 1], event), subs[|subs| - 1];
      if last.live then rest + [last.(stream := last.stream + [event])] else rest
  }

  /** The senders behind the mutex, as both the block source and the pending-change broadcaster keep them. */
  class Bus<T> {
    var subs: seq<Sub<T>>
    var sent: nat

    constructor ()
      ensures subs == [] && sent == 0
    {
      subs, sent := [], 0;
    }

    method Subscribe()
      modifies this
      ensures subs == old(subs) + [Sub(sent, [], true)] && sent == old(sent)
    {
      subs := subs + [Sub(sent, [], true)];
    }

    /** Sends to every live subscriber and drops those whose receiver is gone. */
    method Broadcast(event: T)
      modifies this
      ensures subs == Delivered(old(subs), event) && sent == old(sent) + 1
    {
      var kept := [];
      for i := 0 to |subs|
        invariant subs == old(subs) && sent == old(sent)
        invariant kept == Delivered(subs[..i], event)
      {
        assert subs[..i + 1][..i] == subs[..i];
        if subs[i].live {
          kept := kept + [subs[i].(stream := subs[i].stream + [event])];
        }
      }
      assert subs[..|subs|] == subs;
      subs, sent := kept, sent + 1;
    }
  }

  // ---- The order of one bus -----------------------------------------------------------------

  /** Everyone has received exactly what was sent since it subscribed; the list is in that order. */
  ghost predicate Ordered<T>(subs: seq<Sub<T>>, log: seq<T>) {
    && (forall i | 0 <= i < |subs| :: subs[i].since <= |log| && subs[i].stream == log[subs[i].since..])
    && (forall i, j | 0 <= i < j < |subs| :: subs[i].since <= subs[j].since)
  }

  predicate IsSuffix<T(==)>(tail: seq<T>, whole: seq<T>) {
    |tail| <= |whole| && whole[|whole| - |tail|..] == tail
  }

  /** Of two subscribers, the later one has seen exactly the last events of the earlier one. */
  lemma LaterIsSuffix<T>(subs: seq<Sub<T>>, log: seq<T>, i: nat, j: nat)
    requires Ordered(subs, log) && i < j < |subs|
    ensures IsSuffix(subs[j].stream, subs[i].stream)
  {
    var m, n := subs[i].since, subs[j].since;
    assert log[m..][n - m..] == log[n..];
  }

  /** A broadcast keeps every live subscriber and none whose receiver is gone. */
  lemma {:induction false} DeliveredToLive<T>(subs: seq<Sub<T>>, event: T)
    ensures forall s | s in subs && s.live :: s.(stream := s.stream + [event]) in Delivered(subs, event)
    ensures forall d | d in Delivered(subs, event) ::
      d.live && d.stream != [] && d.(stream := d.stream[..|d.stream| - 1]) in subs
  {
    if subs != [] {
      var rest, last := subs[..|subs| - 1], subs[|subs| - 1];
      DeliveredToLive(rest, event);
      assert subs == rest + [last];
      assert (last.stream + [event])[..|last.stream|] == last.stream;
      assert last.(stream := last.stream) == last;
    }
  }

  lemma {:induction false} DeliveredOrdered<T>(subs: seq<Sub<T>>, log: seq<T>, event: T)
    requires Ordered(subs, log)
    ensures Ordered(Delivered(subs, event), log + [event])
    ensures forall d | d in Delivered(subs, event) :: subs != [] && d.since <= subs[|subs| - 1].since
  {
    if subs != [] {
      var rest, last := subs[..|subs| - 1], subs[|subs| - 1];
      DeliveredOrdered(rest, log, event);
      assert (log + [event])[last.since..] == log[last.since..] + [event];
      assert forall s | s in rest :: s.since <= last.since;
    }
  }

  lemma SubscribedOrdered<T>(subs: seq<Sub<T>>, log: seq<T>)
    requires Ordered(subs, log)
    ensures Ordered(subs + [Sub(|log|, [], true)], log)
  {
  }

  // ---- The block source ---------------------------------------------------------------------

  type BlockHash = nat

  datatype SourceEvent =
    | BlockConnected(block: Block, height: nat)
    | BlockDisconnected(hash: BlockHash, height: nat)
    | ChainSynced(height: nat, tip: BlockHash)

  /** `log` is everything broadcast so far; `arrived` a block that is cached but not announced yet. */
  datatype Source = Source(subs: seq<Sub<SourceEvent>>, log: seq<SourceEvent>, cache: map<BlockHash, Block>,
                           arrived: Option<SourceEvent>)

  /**
   * Atomic steps, in any interleaving: of subscribers, of the blocks thread (cache, then announce)
   * and of the events thread, which announces disconnects and synced tips.
   */
  datatype SourceStep =
    | NewSubscriber
    | DropReceiver(index: nat)
    | CacheBlock(block: Block, height: nat)
    | AnnounceBlock
    | AnnounceDisconnect(hash: BlockHash, height: nat)
    | AnnounceTip(height: nat, tip: BlockHash)

  function Announce(s: Source, event: SourceEvent): Source {
    s.(subs := Delivered(s.subs, event), log := s.log + [event])
  }

  /** The blocks thread announces one block before it takes the next; a step that cannot happen changes nothing. */
  function SourceNext(hashOf: Block -> BlockHash, s: Source, step: SourceStep): Source {
    match step
    case NewSubscriber => s.(subs := s.subs + [Sub(|s.log|, [], true)])
    case DropReceiver(i) => if i < |s.subs| then s.(subs := s.subs[i := s.subs[i].(live := false)]) else s
    case CacheBlock(block, height) =>
      if s.arrived.Some? then s
      else s.(cache := s.cache[hashOf(block) := block], arrived := Some(BlockConnected(block, height)))
    case AnnounceBlock => if s.arrived.None? then s else Announce(s, s.arrived.value).(arrived := None)
    case AnnounceDisconnect(hash, height) => Announce(s, BlockDisconnected(hash, height))
    case AnnounceTip(height, tip) => Announce(s, ChainSynced(height, tip))
  }

  function SourceRun(hashOf: Block -> BlockHash, steps: seq<SourceStep>): Source {
    if steps == [] then Source([], [], map[], None)
    else SourceNext(hashOf, SourceRun(hashOf, steps[..|steps| - 1]), steps[|steps| - 1])
  }

  /** The answer for an event's block is a block with that hash. */
  predicate Fetchable(hashOf: Block -> BlockHash, cache: map<BlockHash, Block>, e: SourceEvent) {
    e.BlockConnected? ==> hashOf(e.block) in cache && hashOf(cache[hashOf(e.block)]) == hashOf(e.block)
  }

  ghost predicate Answerable(hashOf: Block -> BlockHash, s: Source) {
    && (forall e | e in s.log :: Fetchable(hashOf, s.cache, e))
    && (s.arrived.Some? ==> s.arrived.value.BlockConnected? && Fetchable(hashOf, s.cache, s.arrived.value))
  }

  /** One event order, and no block is announced before it can be answered, over every interleaving. */
  lemma {:induction false} SourceOrdered(hashOf: Block -> BlockHash, steps: seq<SourceStep>)
    ensures var s := SourceRun(hashOf, steps); Ordered(s.subs, s.log) && Answerable(hashOf, s)
  {
    if steps != [] {
      var s := SourceRun(hashOf, steps[..|steps| - 1]);
      SourceOrdered(hashOf, steps[..|steps| - 1]);
      match steps[|steps| - 1]
      case NewSubscriber => SubscribedOrdered(s.subs, s.log);
      case AnnounceBlock => if s.arrived.Some? { DeliveredOrdered(s.subs, s.log, s.arrived.value); }
      case AnnounceDisconnect(hash, height) => DeliveredOrdered(s.subs, s.log, BlockDisconnected(hash, height));
      case AnnounceTip(height, tip) => DeliveredOrdered(s.subs, s.log, ChainSynced(height, tip));
      case _ =>
    }
  }

  /** What two subscribers see of any run: one shared order, and every connected block can be fetched. */
  lemma SubscribersAgree(hashOf: Block -> BlockHash, steps: seq<SourceStep>, i: nat, j: nat)
    requires i < j < |SourceRun(hashOf, steps).subs|
    ensures var s := SourceRun(hashOf, steps);
      && IsSuffix(s.subs[j].stream, s.subs[i].stream)
      && forall e | e in s.subs[i].stream :: Fetchable(hashOf, s.cache, e)
  {
    hide SourceRun;
    var s := SourceRun(hashOf, steps);
    SourceOrdered(hashOf, steps);
    LaterIsSuffix(s.subs, s.log, i, j);
    assert forall e | e in s.subs[i].stream :: e in s.log;
  }
}
