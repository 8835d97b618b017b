/**
 * The callback lists all four services keep. A callback is represented by a
 * token; calling it with a snapshot is recorded as a delivery.
 */
module Listeners {
  import opened Types

  /** One call of a registered callback with the snapshot it was given. */
  datatype Delivery<S> = Delivery(listener: ListenerId, snapshot: S)

  /**
   * `listeners.forEach(l => l(snapshot))`: one delivery per registration.
   */
  function Broadcast<S>(listeners: seq<ListenerId>, snapshot: S): (r: seq<Delivery<S>>)
    ensures |r| == |listeners|
  {
    if listeners == [] then [] else [Delivery(listeners[0], snapshot)] + Broadcast(listeners[1..], snapshot)
  }

  /**
   * Every registered callback, in registration order, receives the same
   * snapshot, once per registration.
   */
  lemma {:induction false} BroadcastDelivers<S>(listeners: seq<ListenerId>, snapshot: S)
    ensures forall i :: 0 <= i < |listeners| ==> Broadcast(listeners, snapshot)[i] == Delivery(listeners[i], snapshot)
  {
    if listeners != [] {
      BroadcastDelivers(listeners[1..], snapshot);
    }
  }

  /** Notifying after a registration reaches the newcomer last. */
  lemma BroadcastAppend<S>(listeners: seq<ListenerId>, l: ListenerId, snapshot: S)
    ensures Broadcast(listeners + [l], snapshot) == Broadcast(listeners, snapshot) + [Delivery(l, snapshot)]
  {
    BroadcastDelivers(listeners + [l], snapshot);
    BroadcastDelivers(listeners, snapshot);
  }
}
