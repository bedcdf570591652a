/**
 * The rate-limiting work queue the controller drives
 * (`workqueue.NewRateLimitingQueue(workqueue.DefaultControllerRateLimiter())`).
 *
 * The queue's code belongs to client-go and is not part of this model. What
 * follows is the contract the controller relies on, written down as an
 * assumption: a FIFO of ready keys, a dirty set that coalesces duplicate adds,
 * a processing set that defers a key re-added while a worker holds it, and a
 * per-key failure count that `AddRateLimited` raises by one and `Forget`
 * resets to zero. The backoff delay itself is not modelled: a rate-limited
 * key is added at once.
 */
module WorkQueue {
  import opened Objects

  /** The queue's observable state. */
  datatype QueueState = QueueState(
    queue: seq<Key>,              // keys ready to be handed out by Get, in order
    dirty: set<Key>,              // keys that need processing
    processing: set<Key>,         // keys handed out by Get and not yet Done
    failures: map<Key, nat>,      // the rate limiter's per-key failure count
    shuttingDown: bool)

  const Empty := QueueState([], {}, {}, map[], false)

  /** The queue's invariant: no key is ready twice, and the ready keys are
      exactly the dirty keys that no worker holds. */
  ghost predicate Inv(s: QueueState) {
    (forall i, j | 0 <= i < j < |s.queue| :: s.queue[i] != s.queue[j]) &&
    (forall k :: k in s.queue <==> k in s.dirty && k !in s.processing)
  }

  /** A failure count, 0 for a key the rate limiter does not know. */
  function Failures(failures: map<Key, nat>, key: Key): nat {
    if key in failures then failures[key] else 0
  }

  /** `NumRequeues(key)`. */
  function Requeues(s: QueueState, key: Key): nat {
    Failures(s.failures, key)
  }

  /** `Add(key)`: ignored when shutting down or when the key is already dirty;
      a key a worker holds is only marked dirty, any other becomes ready. */
  function AfterAdd(s: QueueState, key: Key): (t: QueueState)
    ensures Inv(s) ==> Inv(t)
    ensures t.processing == s.processing && t.failures == s.failures && t.shuttingDown == s.shuttingDown
    ensures !s.shuttingDown ==> key in t.dirty
    ensures t.queue == s.queue || (!s.shuttingDown && key !in s.processing && t.queue == s.queue + [key])
  {
    if s.shuttingDown || key in s.dirty then s
    else if key in s.processing then s.(dirty := s.dirty + {key})
    else s.(dirty := s.dirty + {key}, queue := s.queue + [key])
  }

  /** `Get()` when a key is ready: the first ready key moves to processing. */
  function AfterGet(s: QueueState): (t: QueueState)
    requires s.queue != []
    ensures Inv(s) ==> Inv(t)
    ensures t.queue == s.queue[1..] && t.processing == s.processing + {s.queue[0]}
    ensures t.failures == s.failures && t.shuttingDown == s.shuttingDown
  {
    var key := s.queue[0];
    s.(queue := s.queue[1..], dirty := s.dirty - {key}, processing := s.processing + {key})
  }

  /** `Done(key)`: the key is released, and made ready again if it was
      re-added while it was being processed. */
  function AfterDone(s: QueueState, key: Key): (t: QueueState)
    requires key in s.processing
    ensures Inv(s) ==> Inv(t)
    ensures t.processing == s.processing - {key}
    ensures t.queue == if key in s.dirty then s.queue + [key] else s.queue
    ensures t.dirty == s.dirty && t.failures == s.failures && t.shuttingDown == s.shuttingDown
  {
    var t := s.(processing := s.processing - {key});
    if key in s.dirty then t.(queue := s.queue + [key]) else t
  }

  /** `Forget(key)`: the key's failure count goes back to zero. */
  function AfterForget(s: QueueState, key: Key): (t: QueueState)
    ensures Inv(s) ==> Inv(t)
    ensures Requeues(t, key) == 0
    ensures t.(failures := s.failures) == s
  {
    s.(failures := s.failures - {key})
  }

  /** `AddRateLimited(key)`: the key's failure count goes up by one and the
      key is added (after a delay that this model does not keep). */
  function AfterAddRateLimited(s: QueueState, key: Key): (t: QueueState)
    ensures Inv(s) ==> Inv(t)
    ensures Requeues(t, key) == Requeues(s, key) + 1
    ensures t.(failures := s.failures) == AfterAdd(s, key)
  {
    AfterAdd(s.(failures := s.failures[key := Requeues(s, key) + 1]), key)
  }

  /** `ShutDown()`: from now on adds are ignored and an empty queue quits. */
  function AfterShutDown(s: QueueState): (t: QueueState)
    ensures Inv(s) ==> Inv(t)
    ensures t.shuttingDown && t.(shuttingDown := s.shuttingDown) == s
  {
    s.(shuttingDown := true)
  }

  /** Adding a key that is already dirty changes nothing: two adds before the
      key is handed out leave it in the ready queue once. */
  lemma AddCoalesces(s: QueueState, key: Key)
    requires Inv(s)
    ensures AfterAdd(AfterAdd(s, key), key) == AfterAdd(s, key)
  {
  }

  /** A key re-added while a worker holds it is not lost: Done makes it ready. */
  lemma AddWhileProcessingIsDeferred(s: QueueState, key: Key)
    requires Inv(s) && key in s.processing && !s.shuttingDown
    ensures AfterAdd(s, key).queue == s.queue
    ensures AfterDone(AfterAdd(s, key), key).queue == s.queue + [key]
  {
  }

  /** The queue's calls, in the order they were made. */
  datatype Call =
    | CallAdd(key: Key)
    | CallDone(key: Key)
    | CallForget(key: Key)
    | CallAddRateLimited(key: Key)
    | CallShutDown

  /** The queue object shared by the event handlers and the workers. `calls`
      records every call that changes it, except Get. */
  class RateLimitingQueue {
    var queue: seq<Key>
    var dirty: set<Key>
    var processing: set<Key>
    var failures: map<Key, nat>
    var shuttingDown: bool
    var calls: seq<Call>

    function State(): QueueState
      reads this
    {
      QueueState(queue, dirty, processing, failures, shuttingDown)
    }

    ghost predicate Valid()
      reads this
    {
      Inv(State())
    }

    constructor ()
      ensures Valid() && State() == Empty && calls == []
    {
      queue, dirty, processing, failures, shuttingDown := [], {}, {}, map[], false;
      calls := [];
    }

    /** `NumRequeues(key)`: how often the key has failed since it was last
        forgotten; 0 for a key the rate limiter does not know. */
    function NumRequeues(key: Key): (n: nat)
      reads this
      ensures key in failures ==> n == failures[key]
      ensures key !in failures ==> n == 0
    {
      Requeues(State(), key)
    }

    method SetState(t: QueueState)
      modifies this
      ensures State() == t && calls == old(calls)
    {
      queue, dirty, processing, failures, shuttingDown := t.queue, t.dirty, t.processing, t.failures, t.shuttingDown;
    }

    method Add(key: Key)
      requires Valid()
      modifies this
      ensures Valid()
      ensures State() == AfterAdd(old(State()), key)
      ensures calls == old(calls) + [CallAdd(key)]
    {
      SetState(AfterAdd(State(), key));
      calls := calls + [CallAdd(key)];
    }

    /** Blocks while nothing is ready and the queue is live; the model only
        takes the calls that return. */
    method Get() returns (key: Key, quit: bool)
      requires Valid()
      requires queue != [] || shuttingDown
      modifies this
      ensures Valid()
      ensures quit <==> old(queue) == []
      ensures quit ==> State() == old(State())
      ensures !quit ==> key == old(queue)[0] && State() == AfterGet(old(State()))
      ensures calls == old(calls)
    {
      if queue == [] {
        return "", true;
      }
      key, quit := queue[0], false;
      SetState(AfterGet(State()));
    }

    method Done(key: Key)
      requires Valid()
      requires key in processing
      modifies this
      ensures Valid()
      ensures State() == AfterDone(old(State()), key)
      ensures calls == old(calls) + [CallDone(key)]
    {
      SetState(AfterDone(State(), key));
      calls := calls + [CallDone(key)];
    }

    method Forget(key: Key)
      requires Valid()
      modifies this
      ensures Valid()
      ensures State() == AfterForget(old(State()), key)
      ensures calls == old(calls) + [CallForget(key)]
    {
      SetState(AfterForget(State(), key));
      calls := calls + [CallForget(key)];
    }

    method AddRateLimited(key: Key)
      requires Valid()
      modifies this
      ensures Valid()
      ensures State() == AfterAddRateLimited(old(State()), key)
      ensures calls == old(calls) + [CallAddRateLimited(key)]
    {
      SetState(AfterAddRateLimited(State(), key));
      calls := calls + [CallAddRateLimited(key)];
    }

    method ShutDown()
      requires Valid()
      modifies this
      ensures Valid()
      ensures State() == AfterShutDown(old(State()))
      ensures calls == old(calls) + [CallShutDown]
    {
      SetState(AfterShutDown(State()));
      calls := calls + [CallShutDown];
    }
  }
}
