/**
 * The resize broadcaster (`ResizeManager`): a lazily created process-wide instance holding an
 * append-only, duplicate-free list of listeners, all called in registration order on a resize.
 */
module ResizeBroadcast {

  /**
   * A listener callback, identified by reference: two ids are equal exactly when the source's
   * callbacks are the same function object.
   */
  type ListenerId = nat

  predicate NoDuplicates(s: seq<ListenerId>) {
    forall i, j :: 0 <= i < j < |s| ==> s[i] != s[j]
  }

  /**
   * The listener list after `subscribe(cb)`: it only grows, by `cb` at the end when `cb` was not
   * yet registered, and stays duplicate-free.
   */
  function Subscribed(listeners: seq<ListenerId>, cb: ListenerId): (r: seq<ListenerId>)
    ensures listeners <= r
    ensures forall l :: l in r <==> l in listeners || l == cb
    ensures |r| == if cb in listeners then |listeners| else |listeners| + 1
    ensures NoDuplicates(listeners) ==> NoDuplicates(r)
  {
    if cb in listeners then listeners else listeners + [cb]
  }

  /** Subscribing the same callback again changes nothing. */
  lemma SubscribeIdempotent(listeners: seq<ListenerId>, cb: ListenerId)
    ensures Subscribed(Subscribed(listeners, cb), cb) == Subscribed(listeners, cb)
  {
  }

  /** How many times `l` occurs in `s`. */
  function Occurrences(s: seq<ListenerId>, l: ListenerId): nat {
    if s == [] then 0 else (if s[0] == l then 1 else 0) + Occurrences(s[1..], l)
  }

  /** In a duplicate-free list every member occurs exactly once. */
  lemma {:induction false} NoDuplicatesOccursOnce(s: seq<ListenerId>, l: ListenerId)
    requires NoDuplicates(s)
    ensures Occurrences(s, l) == if l in s then 1 else 0
  {
    if s != [] {
      assert NoDuplicates(s[1..]);
      NoDuplicatesOccursOnce(s[1..], l);
      if s[0] == l {
        assert l !in s[1..] by {
          forall k | 0 <= k < |s[1..]| ensures s[1..][k] != l {
            assert s[1..][k] == s[k + 1];
          }
        }
      }
    }
  }

  class ResizeManager {
    var listeners: seq<ListenerId>

    ghost predicate Valid()
      reads this
    {
      NoDuplicates(listeners)
    }

    /** The private constructor: an empty listener list. */
    constructor ()
      ensures Valid() && listeners == []
    {
      listeners := [];
    }

    /** `subscribe(callback)`: append unless the same callback is already registered. */
    method Subscribe(cb: ListenerId)
      requires Valid()
      modifies this
      ensures Valid()
      ensures listeners == Subscribed(old(listeners), cb)
    {
      if cb !in listeners {
        listeners := listeners + [cb];
      }
    }

    /**
     * `handleResize`: call the listeners in registration order. A listener that throws (one in
     * `failing`) aborts the pass: it has been called, the listeners after it have not.
     */
    method HandleResize(failing: set<ListenerId>) returns (invoked: seq<ListenerId>, aborted: bool)
      ensures invoked <= listeners
      ensures !aborted <==> forall l :: l in listeners ==> l !in failing
      ensures !aborted ==> invoked == listeners
      ensures aborted ==> |invoked| > 0 && invoked[|invoked| - 1] in failing
      ensures forall k :: 0 <= k < |invoked| - 1 ==> invoked[k] !in failing
      ensures !aborted && Valid() ==> forall l :: l in listeners ==> Occurrences(invoked, l) == 1
    {
      invoked, aborted := [], false;
      var i := 0;
      while i < |listeners|
        invariant 0 <= i <= |listeners|
        invariant invoked == listeners[..i]
        invariant forall k :: 0 <= k < i ==> listeners[k] !in failing
      {
        var listener := listeners[i];
        invoked := invoked + [listener];
        if listener in failing {
          aborted := true;
          return;
        }
        i := i + 1;
      }
      assert invoked == listeners;
      if Valid() {
        forall l | l in listeners ensures Occurrences(invoked, l) == 1 {
          NoDuplicatesOccursOnce(listeners, l);
        }
      }
    }
  }

  /** The class-level (static) side of `ResizeManager`: the `instance` slot. */
  class ResizeManagerStatics {
    var instance: ResizeManager?

    constructor ()
      ensures instance == null
    {
      instance := null;
    }

    /** `getInstance`: create the instance on first use, return the same one ever after. */
    method GetInstance() returns (m: ResizeManager)
      modifies this
      ensures old(instance) != null ==> m == old(instance)
      ensures old(instance) == null ==> fresh(m) && m.listeners == [] && m.Valid()
      ensures instance == m
    {
      if instance == null {
        instance := new ResizeManager();
      }
      m := instance;
    }
  }

  /**
   * A client: two calls share one instance, a repeated subscription registers once, and a resize
   * with no throwing listener calls the callback exactly once.
   */
  method SubscribeTwiceThroughInstance(statics: ResizeManagerStatics, cb: ListenerId)
    returns (first: ResizeManager, second: ResizeManager, invoked: seq<ListenerId>, aborted: bool)
    modifies statics, statics.instance
    requires statics.instance != null ==> statics.instance.Valid()
    ensures second == first
    ensures !aborted && Occurrences(invoked, cb) == 1
  {
    first := statics.GetInstance();
    first.Subscribe(cb);
    second := statics.GetInstance();
    var before := second.listeners;
    second.Subscribe(cb);
    assert second.listeners == before;
    invoked, aborted := second.HandleResize({});
  }
}
