/**
 * The Pod controller of controller/main.go: event handlers that turn informer
 * events into queue keys, and a worker that takes keys off the queue,
 * reconciles them against the informer's store and decides, on failure,
 * whether to retry the key or give up on it.
 *
 * The queue is the client-go contract of module WorkQueue; the store and the
 * key functions are client-go code too and appear here as parameters.
 */
module Controller {
  import opened Results
  import opened Objects
  import opened WorkQueue

  /** `handleErr` retries a key while it has been requeued fewer times than this. */
  const MaxRetries: nat := 5

  /** The three outcomes of `indexer.GetByKey(key)`: the object, no object, or an error. */
  datatype Lookup = Found(pod: PodObject) | Absent | Failed(error: Error)

  /** What `handleErr` does with a key. */
  datatype Decision =
    | Succeeded   // nil error: Forget
    | Retry       // error, retry budget left: AddRateLimited
    | GiveUp      // error, budget spent: Forget and report the error

  /** The choice `handleErr` makes from the error and `NumRequeues(key)`.
      Exactly one branch applies to every input. */
  function Decide(err: Option<Error>, requeues: nat): (d: Decision)
    ensures d == Succeeded <==> err.None?
    ensures d == Retry <==> err.Some? && requeues < MaxRetries
    ensures d == GiveUp <==> err.Some? && requeues >= MaxRetries
  {
    if err.None? then Succeeded
    else if requeues < MaxRetries then Retry
    else GiveUp
  }

  /** The queue call `handleErr` makes for a decision. */
  function CallFor(d: Decision, key: Key): Call {
    if d == Retry then CallAddRateLimited(key) else CallForget(key)
  }

  /** The queue state after that call. */
  function AfterHandle(s: QueueState, d: Decision, key: Key): (t: QueueState)
    ensures Inv(s) ==> Inv(t)
    ensures t.processing == s.processing && t.shuttingDown == s.shuttingDown
    ensures Requeues(t, key) == if d == Retry then Requeues(s, key) + 1 else 0
  {
    if d == Retry then AfterAddRateLimited(s, key) else AfterForget(s, key)
  }

  /**
   * The decisions `handleErr` takes for one key whose successive
   * reconciliations return `outcomes`, starting at requeue count `requeues`,
   * up to the first decision that forgets the key. Each retry raises the count
   * by one (AfterAddRateLimited); a forget ends the episode.
   */
  function Episode(requeues: nat, outcomes: seq<Option<Error>>): seq<Decision>
    decreases |outcomes|
  {
    if outcomes == [] then []
    else if Decide(outcomes[0], requeues) == Retry then [Retry] + Episode(requeues + 1, outcomes[1..])
    else [Decide(outcomes[0], requeues)]
  }

  /** The number of retries in a list of decisions. */
  function Retries(ds: seq<Decision>): nat {
    if ds == [] then 0 else (if ds[0] == Retry then 1 else 0) + Retries(ds[1..])
  }

  /** Whatever the reconciler returns, a key is retried at most MaxRetries
      times in all, counting the requeues it already has; an episode never has
      more decisions than outcomes, and only its last decision may forget. */
  lemma {:induction false} RetryBudget(requeues: nat, outcomes: seq<Option<Error>>)
    ensures Retries(Episode(requeues, outcomes)) <= if requeues < MaxRetries then MaxRetries - requeues else 0
    ensures |Episode(requeues, outcomes)| <= |outcomes|
    ensures forall i | 0 <= i < |Episode(requeues, outcomes)| - 1 :: Episode(requeues, outcomes)[i] == Retry
    decreases |outcomes|
  {
    if outcomes != [] && Decide(outcomes[0], requeues) == Retry {
      var rest := Episode(requeues + 1, outcomes[1..]);
      RetryBudget(requeues + 1, outcomes[1..]);
      assert ([Retry] + rest)[1..] == rest;
    }
  }

  /** A key that fails every time is retried exactly MaxRetries times (from a
      fresh count) and then given up on, never a further time. */
  lemma {:induction false} AlwaysFailing(requeues: nat, outcomes: seq<Option<Error>>)
    requires requeues <= MaxRetries
    requires |outcomes| > MaxRetries - requeues
    requires forall i | 0 <= i < |outcomes| :: outcomes[i].Some?
    ensures Episode(requeues, outcomes) == seq(MaxRetries - requeues, _ => Retry) + [GiveUp]
    decreases MaxRetries - requeues
  {
    if requeues < MaxRetries {
      AlwaysFailing(requeues + 1, outcomes[1..]);
      assert [Retry] + seq(MaxRetries - requeues - 1, _ => Retry) == seq(MaxRetries - requeues, _ => Retry);
    } else {
      assert seq(0, _ => Retry) == [];
    }
  }

  /**
   * The decisions `handleErr` takes for `key` on the queue itself, one per
   * reconciliation outcome: each is decided against the queue's current
   * `NumRequeues(key)`, and a retry continues from the state AddRateLimited
   * leaves, up to the first decision that forgets the key.
   */
  function Replay(s: QueueState, key: Key, outcomes: seq<Option<Error>>): seq<Decision>
    decreases |outcomes|
  {
    if outcomes == [] then []
    else
      var d := Decide(outcomes[0], Requeues(s, key));
      if d == Retry then [Retry] + Replay(AfterHandle(s, d, key), key, outcomes[1..]) else [d]
  }

  /** The queue's own requeue count follows the episode's: replaying the
      outcomes on the queue takes exactly the decisions of `Episode`. */
  lemma {:induction false} ReplayIsEpisode(s: QueueState, key: Key, outcomes: seq<Option<Error>>)
    ensures Replay(s, key, outcomes) == Episode(Requeues(s, key), outcomes)
    decreases |outcomes|
  {
    if outcomes != [] && Decide(outcomes[0], Requeues(s, key)) == Retry {
      ReplayIsEpisode(AfterHandle(s, Retry, key), key, outcomes[1..]);
    }
  }

  /** The retry budget on the queue: from any queue state, the key is retried
      at most MaxRetries - NumRequeues(key) more times, and a key that fails
      every time is retried exactly that often and then given up on. */
  lemma QueueRetryBudget(s: QueueState, key: Key, outcomes: seq<Option<Error>>)
    ensures var n := Requeues(s, key);
      Retries(Replay(s, key, outcomes)) <= if n < MaxRetries then MaxRetries - n else 0
    ensures var n := Requeues(s, key);
      n <= MaxRetries && |outcomes| > MaxRetries - n && (forall i | 0 <= i < |outcomes| :: outcomes[i].Some?) ==>
      Replay(s, key, outcomes) == seq(MaxRetries - n, _ => Retry) + [GiveUp]
  {
    ReplayIsEpisode(s, key, outcomes);
    RetryBudget(Requeues(s, key), outcomes);
    var n := Requeues(s, key);
    if n <= MaxRetries && |outcomes| > MaxRetries - n && (forall i | 0 <= i < |outcomes| :: outcomes[i].Some?) {
      AlwaysFailing(n, outcomes);
    }
  }

  /** A whole pass of processNextItem on `key` (Get, the policy's call, Done)
      leaves the key's requeue count where the policy's call alone puts it, so
      `Replay`'s steps are those of successive passes. */
  lemma PassRequeues(s: QueueState, d: Decision)
    requires s.queue != []
    ensures var key := s.queue[0];
      var t := AfterHandle(AfterGet(s), d, key);
      key in t.processing &&
      Requeues(AfterDone(t, key), key) == Requeues(AfterHandle(s, d, key), key)
  {
  }

  /** A sum that every worker step makes smaller: each ready key weighs one
      plus the retries it has left. */
  function Weight(failures: map<Key, nat>, key: Key): nat {
    1 + (if Failures(failures, key) < MaxRetries then MaxRetries - Failures(failures, key) else 0)
  }

  function Backlog(q: seq<Key>, failures: map<Key, nat>): nat {
    if q == [] then 0 else Weight(failures, q[0]) + Backlog(q[1..], failures)
  }

  lemma {:induction false} BacklogAppend(q: seq<Key>, key: Key, failures: map<Key, nat>)
    ensures Backlog(q + [key], failures) == Backlog(q, failures) + Weight(failures, key)
  {
    if q == [] {
      assert [key][1..] == [];
    } else {
      assert (q + [key])[1..] == q[1..] + [key];
      BacklogAppend(q[1..], key, failures);
    }
  }

  lemma {:induction false} BacklogFrame(q: seq<Key>, f: map<Key, nat>, g: map<Key, nat>)
    requires forall k :: k in q ==> Failures(f, k) == Failures(g, k)
    ensures Backlog(q, f) == Backlog(q, g)
  {
    if q != [] {
      assert q[0] in q;
      assert forall k :: k in q[1..] ==> k in q;
      BacklogFrame(q[1..], f, g);
    }
  }

  /** One pass of processNextItem makes the backlog smaller, whatever
      `handleErr` decides. */
  lemma ProcessingShrinksBacklog(s: QueueState, d: Decision)
    requires Inv(s) && s.queue != []
    requires d == Retry ==> Requeues(s, s.queue[0]) < MaxRetries
    ensures var t := AfterHandle(AfterGet(s), d, s.queue[0]);
      s.queue[0] in t.processing &&
      var u := AfterDone(t, s.queue[0]);
      Backlog(u.queue, u.failures) < Backlog(s.queue, s.failures)
  {
    var key, rest := s.queue[0], s.queue[1..];
    var t := AfterHandle(AfterGet(s), d, key);
    var u := AfterDone(t, key);
    assert key !in rest;
    BacklogFrame(rest, s.failures, u.failures);
    if d == Retry && !s.shuttingDown {
      assert u.queue == rest + [key];
      BacklogAppend(rest, key, u.failures);
    } else {
      assert u.queue == rest;
    }
  }

  /** What one pass of processNextItem does to any other key `k`: its count
      and its place among the ready keys are kept. The head key is ready
      again after a retry on a live queue, and forgotten otherwise. */
  lemma PassFrame(s: QueueState, d: Decision, k: Key)
    requires Inv(s) && s.queue != []
    ensures var h := s.queue[0];
      var u := AfterDone(AfterHandle(AfterGet(s), d, h), h);
      (k != h ==> Requeues(u, k) == Requeues(s, k) && (k in s.queue ==> k in u.queue)) &&
      (k == h && d == Retry && !s.shuttingDown ==> k in u.queue) &&
      (k == h && d != Retry ==> Requeues(u, k) == 0)
  {
    var h := s.queue[0];
    var u := AfterDone(AfterHandle(AfterGet(s), d, h), h);
    if k != h && k in s.queue {
      assert k in s.queue[1..];
    }
  }

  /** The Update and Delete handlers panic when no key can be derived. */
  datatype Outcome = Pass | Panic(error: Error)

  /** The AddFunc handler: enqueue the object's key, or drop the event
      silently when no key can be derived. */
  method OnAdd<O>(queue: RateLimitingQueue, keyFunc: O -> Result<Key>, obj: O)
    requires queue.Valid()
    modifies queue
    ensures queue.Valid()
    ensures keyFunc(obj).Ok? ==>
      queue.State() == AfterAdd(old(queue.State()), keyFunc(obj).value) &&
      queue.calls == old(queue.calls) + [CallAdd(keyFunc(obj).value)]
    ensures keyFunc(obj).Err? ==> queue.State() == old(queue.State()) && queue.calls == old(queue.calls)
  {
    var key := keyFunc(obj);
    if key.Ok? {
      queue.Add(key.value);
    }
  }

  /** The UpdateFunc handler: enqueue the key of the new object; the old one
      is not consulted. */
  method OnUpdate<O>(queue: RateLimitingQueue, keyFunc: O -> Result<Key>, oldObj: O, newObj: O) returns (r: Outcome)
    requires queue.Valid()
    modifies queue
    ensures queue.Valid()
    ensures r == Pass <==> keyFunc(newObj).Ok?
    ensures keyFunc(newObj).Ok? ==>
      queue.State() == AfterAdd(old(queue.State()), keyFunc(newObj).value) &&
      queue.calls == old(queue.calls) + [CallAdd(keyFunc(newObj).value)]
    ensures keyFunc(newObj).Err? ==>
      r == Panic(keyFunc(newObj).error) &&
      queue.State() == old(queue.State()) && queue.calls == old(queue.calls)
  {
    var key := keyFunc(newObj);
    if key.Err? {
      return Panic(key.error);
    }
    queue.Add(key.value);
    r := Pass;
  }

  /** The DeleteFunc handler: enqueue the key the deletion-safe key function
      derives (it also accepts a tombstone for an object already gone). */
  method OnDelete<O>(queue: RateLimitingQueue, deletionKeyFunc: O -> Result<Key>, obj: O) returns (r: Outcome)
    requires queue.Valid()
    modifies queue
    ensures queue.Valid()
    ensures r == Pass <==> deletionKeyFunc(obj).Ok?
    ensures deletionKeyFunc(obj).Ok? ==>
      queue.State() == AfterAdd(old(queue.State()), deletionKeyFunc(obj).value) &&
      queue.calls == old(queue.calls) + [CallAdd(deletionKeyFunc(obj).value)]
    ensures deletionKeyFunc(obj).Err? ==>
      r == Panic(deletionKeyFunc(obj).error) &&
      queue.State() == old(queue.State()) && queue.calls == old(queue.calls)
  {
    var key := deletionKeyFunc(obj);
    if key.Err? {
      return Panic(key.error);
    }
    queue.Add(key.value);
    r := Pass;
  }

  /** The controller: its queue, the store the informer fills (seen through
      `GetByKey`), and the errors it has handed to `runtime.HandleError`. */
  class Controller {
    const queue: RateLimitingQueue
    const store: Key -> Lookup
    var reported: seq<Error>

    constructor (queue: RateLimitingQueue, store: Key -> Lookup)
      ensures this.queue == queue && this.store == store && reported == []
    {
      this.queue := queue;
      this.store := store;
      reported := [];
    }

    /** The reconciler: fails exactly when the store lookup fails; a key with
        no object is a deletion already handled and succeeds. */
    function SyncToStdout(key: Key): (err: Option<Error>)
      ensures err.Some? <==> store(key).Failed?
      ensures store(key).Failed? ==> err == Some(store(key).error)
      ensures store(key).Absent? ==> err == None
    {
      match store(key)
      case Failed(e) => Some(e)
      case _ => None
    }

    /** The retry policy applied to a key after its reconciliation. */
    method HandleErr(key: Key, err: Option<Error>)
      requires queue.Valid()
      modifies this, queue
      ensures queue.Valid()
      ensures err.None? ==>
        queue.calls == old(queue.calls) + [CallForget(key)] &&
        queue.State() == AfterForget(old(queue.State()), key) &&
        reported == old(reported)
      ensures err.Some? && old(queue.NumRequeues(key)) < MaxRetries ==>
        queue.calls == old(queue.calls) + [CallAddRateLimited(key)] &&
        queue.State() == AfterAddRateLimited(old(queue.State()), key) &&
        reported == old(reported)
      ensures err.Some? && old(queue.NumRequeues(key)) >= MaxRetries ==>
        queue.calls == old(queue.calls) + [CallForget(key)] &&
        queue.State() == AfterForget(old(queue.State()), key) &&
        reported == old(reported) + [err.value]
    {
      if err.None? {
        queue.Forget(key);
        return;
      }
      if queue.NumRequeues(key) < MaxRetries {
        queue.AddRateLimited(key);
        return;
      }
      queue.Forget(key);
      reported := reported + [err.value];
    }

    /**
     * Take the next key; on quit stop without touching the queue. Otherwise
     * reconcile the key, apply the retry policy, and release the key with
     * exactly one Done on that same key, after the policy's call.
     */
    method ProcessNextItem() returns (more: bool)
      requires queue.Valid()
      requires queue.queue != [] || queue.shuttingDown
      modifies this, queue
      ensures queue.Valid()
      ensures more <==> old(queue.queue) != []
      ensures !more ==>
        queue.State() == old(queue.State()) && queue.calls == old(queue.calls) && reported == old(reported)
      ensures more ==>
        var key := old(queue.queue[0]);
        var d := Decide(SyncToStdout(key), old(queue.NumRequeues(key)));
        queue.calls == old(queue.calls) + [CallFor(d, key), CallDone(key)] &&
        key in AfterHandle(AfterGet(old(queue.State())), d, key).processing &&
        queue.State() == AfterDone(AfterHandle(AfterGet(old(queue.State())), d, key), key) &&
        queue.processing == old(queue.processing) &&
        reported == old(reported) + (if d == GiveUp then [SyncToStdout(key).value] else [])
    {
      var key, quit := queue.Get();
      if quit {
        return false;
      }
      var err := SyncToStdout(key);
      HandleErr(key, err);
      queue.Done(key);
      more := true;
    }

    /**
     * `runWorker`: process keys until the queue quits. A Get on an empty live
     * queue would block until another goroutine adds or shuts down; the
     * model returns at that point instead. Under a single worker the loop
     * always reaches one of the two, because every pass shrinks the backlog.
     */
    method RunWorker()
      requires queue.Valid() && queue.processing == {}
      modifies this, queue
      ensures queue.Valid() && queue.queue == [] && queue.processing == {}
      ensures queue.shuttingDown == old(queue.shuttingDown)
      ensures !old(queue.shuttingDown) ==> forall k | k in old(queue.queue) :: queue.NumRequeues(k) == 0
    {
      ghost var start := queue.queue;
      while true
        invariant queue.Valid() && queue.processing == {}
        invariant queue.shuttingDown == old(queue.shuttingDown)
        invariant !queue.shuttingDown ==> forall k | k in start :: k in queue.queue || queue.NumRequeues(k) == 0
        decreases Backlog(queue.queue, queue.failures)
      {
        if queue.queue == [] && !queue.shuttingDown {
          return;
        }
        ghost var s := queue.State();
        var more := ProcessNextItem();
        if !more {
          return;
        }
        ghost var d := Decide(SyncToStdout(s.queue[0]), Requeues(s, s.queue[0]));
        ProcessingShrinksBacklog(s, d);
        forall k | k in start
          ensures !queue.shuttingDown ==> k in queue.queue || queue.NumRequeues(k) == 0
        {
          PassFrame(s, d, k);
        }
      }
    }
  }

  /** The calls of `n` retries of one key: AddRateLimited, then Done. */
  function RetryCalls(key: Key, n: nat): seq<Call> {
    if n == 0 then [] else RetryCalls(key, n - 1) + [CallAddRateLimited(key), CallDone(key)]
  }

  /** One pass of processNextItem over a queue whose only key is ready. */
  lemma SoleKeyPass(f: map<Key, nat>, key: Key, d: Decision)
    ensures var t := AfterHandle(AfterGet(QueueState([key], {key}, {}, f, false)), d, key);
      key in t.processing &&
      AfterDone(t, key) ==
        if d == Retry then QueueState([key], {key}, {}, f[key := Failures(f, key) + 1], false)
        else QueueState([], {}, {}, f - {key}, false)
  {
  }

  /**
   * A key whose store lookup fails every time: after it is added, five
   * passes retry it, the sixth forgets it and reports the error once, and
   * after shutdown the worker quits without seeing the key again.
   */
  method AlwaysFailingKey(key: Key, err: Error) returns (calls: seq<Call>, reported: seq<Error>, requeues: nat, again: bool)
    ensures calls == [CallAdd(key)] + RetryCalls(key, MaxRetries) + [CallForget(key), CallDone(key), CallShutDown]
    ensures reported == [err]
    ensures requeues == 0
    ensures !again
  {
    var queue := new RateLimitingQueue();
    var c := new Controller(queue, (k: Key) => if k == key then Failed(err) else Absent);
    queue.Add(key);
    RetrySoleKey(c, key, err, MaxRetries);
    ghost var retried := [CallAdd(key)] + RetryCalls(key, MaxRetries);
    assert queue.calls == retried;
    GiveUpSoleKey(c, key, err);
    assert queue.queue == [] && c.reported == [err];
    assert queue.calls == retried + [CallForget(key), CallDone(key)];
    queue.ShutDown();
    again := c.ProcessNextItem();
    assert queue.calls == retried + [CallForget(key), CallDone(key), CallShutDown];
    calls, reported, requeues := queue.calls, c.reported, queue.NumRequeues(key);
  }

  /** `n` passes over a queue whose only key is ready and always fails to
      reconcile, with retry budget left for all of them. */
  method RetrySoleKey(c: Controller, key: Key, err: Error, n: nat)
    requires c.queue.Valid() && c.store(key) == Failed(err)
    requires c.queue.queue == [key] && c.queue.dirty == {key} && c.queue.processing == {} && !c.queue.shuttingDown
    requires c.queue.NumRequeues(key) + n <= MaxRetries
    modifies c, c.queue
    ensures c.queue.Valid()
    ensures c.queue.queue == [key] && c.queue.dirty == {key} && c.queue.processing == {} && !c.queue.shuttingDown
    ensures c.queue.NumRequeues(key) == old(c.queue.NumRequeues(key)) + n
    ensures c.queue.calls == old(c.queue.calls) + RetryCalls(key, n)
    ensures c.reported == old(c.reported)
  {
    var queue := c.queue;
    var i := 0;
    while i < n
      invariant 0 <= i <= n
      invariant queue.Valid()
      invariant queue.queue == [key] && queue.dirty == {key} && queue.processing == {} && !queue.shuttingDown
      invariant queue.NumRequeues(key) == old(queue.NumRequeues(key)) + i
      invariant queue.calls == old(queue.calls) + RetryCalls(key, i)
      invariant c.reported == old(c.reported)
    {
      assert c.SyncToStdout(key) == Some(err);
      ghost var f, before := queue.failures, queue.calls;
      SoleKeyPass(f, key, Retry);
      assert queue.State() == QueueState([key], {key}, {}, f, false);
      var more := c.ProcessNextItem();
      assert queue.State() == QueueState([key], {key}, {}, f[key := Failures(f, key) + 1], false);
      assert queue.calls == before + [CallAddRateLimited(key), CallDone(key)];
      i := i + 1;
    }
  }

  /** The last pass over a queue whose only key is ready and always fails to
      reconcile, with its retry budget spent: the key is forgotten, released
      and its error reported. */
  method GiveUpSoleKey(c: Controller, key: Key, err: Error)
    requires c.queue.Valid() && c.store(key) == Failed(err)
    requires c.queue.queue == [key] && c.queue.dirty == {key} && c.queue.processing == {} && !c.queue.shuttingDown
    requires c.queue.NumRequeues(key) >= MaxRetries
    modifies c, c.queue
    ensures c.queue.Valid()
    ensures c.queue.State() == QueueState([], {}, {}, old(c.queue.failures) - {key}, false)
    ensures c.queue.calls == old(c.queue.calls) + [CallForget(key), CallDone(key)]
    ensures c.reported == old(c.reported) + [err]
  {
    var queue := c.queue;
    assert c.SyncToStdout(key) == Some(err);
    ghost var f := queue.failures;
    SoleKeyPass(f, key, GiveUp);
    assert queue.State() == QueueState([key], {key}, {}, f, false);
    var more := c.ProcessNextItem();
  }
}
