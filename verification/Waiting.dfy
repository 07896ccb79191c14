/** The wait before a notification: why a tip height tells that a block event has been handled. */
module Waiting {
  import opened Chain
  import opened Reorg

  /** What the notification thread compares before it looks statuses up. */
  predicate Ready(event: BlockEvent, tip: nat) {
    match event
    case Connected(_, h) => tip >= h
    case Disconnected(h) => tip < h
  }

  lemma {:induction false} PrefixOrdered(naming: Naming, base: nat, events: seq<BlockEvent>, k: nat)
    requires StackOrdered(naming, base, events) && k <= |events|
    ensures StackOrdered(naming, base, events[..k])
  {
    hide ValidNext, Survivors;
    if k == |events| {
      assert events[..k] == events;
    } else {
      PrefixOrdered(naming, base, events[..|events| - 1], k);
      assert events[..|events| - 1][..k] == events[..k];
    }
  }

  /** With exactly the events before it handled, an event looks handled only if it is a block at height 0. */
  lemma ReadyTooEarly(naming: Naming, base: nat, events: seq<BlockEvent>, k: nat)
    requires StackOrdered(naming, base, events) && k < |events|
    ensures Ready(events[k], Run(events[..k]).tip)
       <==> base == 0 && Survivors(events[..k]) == [] && events[k].Connected?
  {
    PrefixOrdered(naming, base, events, k);
    PrefixOrdered(naming, base, events, k + 1);
    hide Run, ValidNext, Survivors;
    assert events[..k + 1][..k] == events[..k];
    ReorgRefinement(naming, base, events[..k]);
  }

  /** The comparison is sound for a client that has waited for every earlier event. */
  lemma ReadyHandled(naming: Naming, base: nat, events: seq<BlockEvent>, k: nat, applied: nat)
    requires StackOrdered(naming, base, events) && base > 0
    requires k < |events| && k <= applied <= |events|
    requires Ready(events[k], Run(events[..applied]).tip)
    ensures k < applied
  {
    hide StackOrdered, Run, Survivors;
    ReadyTooEarly(naming, base, events, k);
  }

  /**
   * For any number of unhandled earlier events: an unhandled block looks handled exactly when those events
   * shorten the chain, an unhandled disconnect exactly when they lengthen it.
   */
  lemma ReadyUnhandled(naming: Naming, base: nat, events: seq<BlockEvent>, applied: nat, k: nat)
    requires StackOrdered(naming, base, events) && base > 0 && applied <= k < |events|
    ensures var now, later := |Survivors(events[..applied])|, |Survivors(events[..k])|;
      Ready(events[k], Run(events[..applied]).tip) <==> if events[k].Connected? then later < now else now < later
  {
    PrefixOrdered(naming, base, events, applied);
    PrefixOrdered(naming, base, events, k + 1);
    hide Run, ValidNext, Survivors;
    assert events[..k + 1][..k] == events[..k];
    ReorgRefinement(naming, base, events[..applied]);
  }
}
