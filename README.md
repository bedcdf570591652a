# client-go controller and indexer demos, modelled in Dafny

The repository is a set of client-go learning demos. This project models the two parts that hold logic the repository writes itself.

- **The Pod controller** (`controller/main.go`). The informer's event handlers turn Add, Update and Delete events into keys on a rate-limiting work queue. A worker loop takes one key at a time, reconciles it against the informer's store (`syncToStdout`) and applies a retry policy (`handleErr`). On success the key is forgotten. On failure it is re-added with rate limiting while it has been requeued fewer than 5 times; after that it is forgotten and the error is reported.
- **The indexer demo** (`indexer/main.go`). Two index functions (by namespace and by `Spec.NodeName`) are registered on an indexer. Three pods are added and then looked up by node name.

Files:

- `results.dfy`: Go errors and `(T, error)` returns.
- `objects.dfy`: the object kinds the caches hold. These are a Pod, another kind with metadata, and a value without metadata. Also `meta.Accessor` and the key type shared by the store and the queue.
- `workqueue.dfy`: the client-go work queue. It is an *assumed contract*, not code of this repository. It has a FIFO of ready keys, a dirty set that merges duplicate adds, and a processing set that defers a key re-added while a worker holds it. It also has a per-key failure count: `AddRateLimited` raises it by one and `Forget` resets it to 0. The class `RateLimitingQueue` holds this state and records in `calls` every call that changes it, except Get.
- `controller.dfy`: the controller. `Controller` holds the queue, the store lookup (`GetByKey`, a parameter with three outcomes) and the errors given to `runtime.HandleError`.
- `indexer.dfy`: the index functions, a map-backed indexer and the demo's `main`.

The verified claims are about what the repository's code decides. The work queue's and indexer's own behaviour is stated as contracts of the client-go library and taken on trust.

## Model

| member | source | states |
|---|---|---|
| `Controller.Decide` | controller/main.go:139-158 | Exactly one branch applies. Succeeded exactly when the error is nil. Retry exactly when there is an error and the key has been requeued fewer than 5 times. GiveUp exactly when there is an error and the count is 5 or more. |
| `Controller.Controller.HandleErr` | controller/main.go:139-158 | Nil error: the only call is `Forget(key)`, the count becomes 0, the key is not re-added and nothing is reported. Error with count < 5: the only call is `AddRateLimited(key)`, the count goes up by one, there is no Forget and nothing is reported. Error with count >= 5: the only call is `Forget(key)`, the key is not re-added and the error is reported exactly once. |
| `Controller.Controller.SyncToStdout` | controller/main.go:102-117 | Returns an error exactly when the store lookup fails, and then it is the lookup's error. A key absent from the store yields nil, so it is not retried. |
| `Controller.Controller.ProcessNextItem` | controller/main.go:120-136 | On quit: returns false and changes nothing, so no reconcile, no handleErr and no Done. On a key: returns true for the first ready key. The calls made are the retry policy's one call, then exactly one `Done` on that same key. The processing set returns to what it was, and the reported errors grow only on GiveUp. |
| `Controller.Controller.RunWorker` | controller/main.go:95-98 | Repeats processNextItem until it reports quit, or until Get would block. It ends with the queue empty and no key held, and the shutdown flag unchanged. On a live queue, every key that was ready on entry has finished its episode and been forgotten: its requeue count is 0. The loop terminates because each pass shrinks the backlog. |
| `Controller.PassFrame` | controller/main.go:120-136 | One pass of processNextItem keeps every other key's requeue count and keeps it among the ready keys. After a retry on a live queue the processed key is ready again, and after any other decision its count is 0. |
| `Controller.RetryBudget` | controller/main.go:146-157 | Whatever the reconciler returns, a key starting at requeue count n is retried at most 5 − n more times, and never again once the count reaches 5. Only the last decision of an episode forgets the key. |
| `Controller.AlwaysFailing` | controller/main.go:146-157 | A key that fails every time is retried exactly 5 − n times from count n, and then given up on; there is no 6th retry from a fresh count. |
| `Controller.ReplayIsEpisode` | controller/main.go:140-157 | From any queue state, deciding each reconciliation outcome against the queue's current `NumRequeues(key)`, and moving on through the state AddRateLimited leaves, gives exactly the decisions of `Episode` from that count. So the retry budget above is a fact about the queue's states. |
| `Controller.QueueRetryBudget` | controller/main.go:140-157 | On the queue: from any state, a key is retried at most 5 − `NumRequeues(key)` more times. A key that fails every time is retried exactly that often and then given up on. |
| `Controller.PassRequeues` | controller/main.go:120-136 | A whole pass of processNextItem (Get, the policy's call, Done) leaves the key's requeue count exactly where the policy's call alone puts it. |
| `Controller.ProcessingShrinksBacklog` | controller/main.go:120-136 | From any valid queue state with a ready key, one pass of processNextItem lowers the sum of (1 + retries left) over the ready keys, whatever handleErr decides. |
| `Controller.AlwaysFailingKey` | controller/main.go:120-158 | Scenario on the class itself: a key whose lookup always fails is added once. The calls are then AddRateLimited+Done five times, followed by Forget+Done. The error is reported once and the count ends at 0. After ShutDown the next processNextItem quits without seeing the key. |
| `Controller.Controller.constructor` | controller/main.go:60-66 | `NewController`: the controller holds the given queue and store, and has reported no errors yet. |
| `Controller.OnAdd` | controller/main.go:173-181 | If key derivation succeeds, the object's key is added to the queue. Otherwise the queue is left untouched and nothing is reported. |
| `Controller.OnUpdate` | controller/main.go:182-188 | Adds the key of the new object; the old object is not consulted. A key error is a panic outcome that leaves the queue untouched. |
| `Controller.OnDelete` | controller/main.go:189-195 | Adds the key from the deletion-safe key function. A key error is a panic outcome that leaves the queue untouched. |
| `Indexer.NamespaceIndexFunc` | indexer/main.go:18-25 | For an object with metadata it returns exactly one value, the object's namespace. For a value without metadata it returns an error and no values. |
| `Indexer.NodeNameIndexFunc` | indexer/main.go:26-33 | For a Pod it returns exactly one value, its `Spec.NodeName`. For any other object it returns the type-assertion error and no values. |
| `Indexer.DemoIndexers` | indexer/main.go:13-39 | The two index names are distinct, so the registry has exactly two entries, each bound to its own function. |
| `Indexer.NodeNameMatchesArePods` | indexer/main.go:85-91 | Everything the node-name index yields is a Pod on the queried node, so the type assertion on each result cannot fail. |
| `Indexer.ThreePodsByIndex` | indexer/main.go:41-80 | Three pods are stored under distinct keys: pod-1/node1/default, pod-2/node2/default and pod-3/node2/kube-system. Node "node2" then holds exactly {pod-2, pod-3}, and namespace "default" holds exactly {pod-1, pod-2}. |
| `Indexer.IndexerDemo` | indexer/main.go:35-83 | `main` on the class: with any key function giving the three pods distinct keys, `ByIndex("nodeName", "node2")` returns {pod-2, pod-3} and `ByIndex("namespaceIndexFunc", "default")` returns {pod-1, pod-2}. |
| `Indexer.Indexer.constructor` | indexer/main.go:36-39 | `cache.NewIndexer`: the indexer holds the given key function and index functions, and the store starts empty. Assumed client-go contract. |
| `Indexer.Indexer.Add` | indexer/main.go:71-73 | Assumed client-go contract: the object is stored under its key, and a key error fails the call and leaves the store as it was. The model's own choice: an index-function error also fails the call, with that function's error, and leaves the store as it was. |
| `Indexer.Indexer.ByIndex` | indexer/main.go:80-83 | Assumed client-go contract. An unregistered index name is an error. Otherwise the result is exactly the stored objects whose index values contain the queried value. |
| `Objects.Accessor` | indexer/main.go:19-22 | `meta.Accessor`: succeeds exactly for an object with metadata and then yields that metadata. A value without metadata gets the not-an-object error. Assumed client-go contract. |
| `WorkQueue.AfterAdd` | controller/main.go:179 | Assumed client-go contract. Add keeps the queue invariant and never changes the processing set, the failure counts or the shutdown flag. Unless the queue is shutting down, the key ends up dirty. The ready queue either stays as it was or gains the key at its end, and only if no worker holds the key. |
| `WorkQueue.RateLimitingQueue.constructor` | controller/main.go:169 | Assumed client-go contract. `NewRateLimitingQueue` yields an empty, live queue: no ready, dirty or held keys, no failure counts, and no calls recorded. |
| `WorkQueue.RateLimitingQueue.NumRequeues` | controller/main.go:147 | Assumed client-go contract. The key's failure count since it was last forgotten, and 0 for a key the rate limiter does not know. |
| `WorkQueue.RateLimitingQueue.Add` | controller/main.go:177-194 | Assumed client-go contract. The new state is `AfterAdd` of the old one, and one Add call is recorded. Each of the three handlers calls it, at lines 179, 187 and 194. |
| `WorkQueue.AfterGet` | controller/main.go:122 | Assumed client-go contract. Get keeps the invariant. It removes the first ready key from the ready queue and adds it to the processing set, and leaves the failure counts and the shutdown flag unchanged. |
| `WorkQueue.AfterDone` | controller/main.go:129 | Assumed client-go contract. Done keeps the invariant and removes the key from the processing set. It appends the key to the ready queue exactly when the key is dirty, and changes nothing else. |
| `WorkQueue.RateLimitingQueue.Forget` | controller/main.go:140-157 | Assumed client-go contract. The new state is `AfterForget` of the old one, and one Forget call is recorded. handleErr calls it on success (line 142) and on giving up (line 155). |
| `WorkQueue.RateLimitingQueue.AddRateLimited` | controller/main.go:151 | Assumed client-go contract. The new state is `AfterAddRateLimited` of the old one, and one AddRateLimited call is recorded. |
| `WorkQueue.AfterShutDown` | controller/main.go:73 | Assumed client-go contract. ShutDown keeps the invariant, sets the shutdown flag and changes nothing else. |
| `WorkQueue.RateLimitingQueue.ShutDown` | controller/main.go:73 | Assumed client-go contract. The new state is `AfterShutDown` of the old one, and one ShutDown call is recorded. |
| `WorkQueue.AfterAddRateLimited` | controller/main.go:151 | Assumed client-go contract: the key's requeue count goes up by exactly one. Apart from the failure counts, the new state is what `Add(key)` gives. |
| `WorkQueue.AfterForget` | controller/main.go:142 | Assumed client-go contract: the key's requeue count becomes 0. Nothing but the failure counts changes, so the key is neither added nor released. |
| `WorkQueue.RateLimitingQueue.Get` | controller/main.go:122 | Assumed client-go contract: quits exactly when nothing is ready. Otherwise it hands out the first ready key and marks it as being processed. |
| `WorkQueue.RateLimitingQueue.Done` | controller/main.go:129 | Assumed client-go contract: releases the key, re-queues it if it was re-added meanwhile, and records one Done call. |
| `WorkQueue.AddCoalesces` | controller/main.go:179 | Proved from the assumed contract: adding the same key twice has the effect of adding it once, so a key is never queued twice. |
| `WorkQueue.AddWhileProcessingIsDeferred` | controller/main.go:129 | Proved from the assumed contract: a key re-added while it is being processed is not ready until Done, and Done then makes it ready, so the update is not lost. |

## Left out

- `informer/main.go`: client construction, the shared informer factory, print-only handlers and a lister call. All of it is plumbing over client-go.
- `initClient` and the client and informer setup in `controller/main.go` `main`: flags, kubeconfig and cluster config are I/O. The `indexer.Add(mypod)` call in that `main` writes into the informer's store, which the model sees only through the `store` parameter.
- `Run` (controller/main.go:69-93): goroutines, `wait.Until`, the cache-sync wait and blocking on the stop channel are concurrency. Its one rule is that a failed cache sync reports the error and returns before any worker starts (lines 80-83). The model does not include it.
- Key derivation (`cache.MetaNamespaceKeyFunc`, `cache.DeletionHandlingMetaNamespaceKeyFunc`) is library code. It is a function parameter of the handlers and of `IndexerDemo`, so its format and tombstone handling are not modelled.
- The rate limiter's backoff delays: `AddRateLimited` adds the key at once, so delay ordering is not modelled. The dirty and processing bookkeeping is the assumed contract in `workqueue.dfy`, not client-go's code.
- Several workers at once, and the queue's locking, are concurrency.
- `Controller.store`: the store lookup is a constant function of the key. So the model never sees the informer change the store between two passes, and each key's lookup succeeds or fails the same way for the whole of a run.
- The indexer's index maintenance and locking are not modelled. `ByIndex` is defined directly from the stored objects. What client-go does when an index function fails inside `Add` is not visible. The model fails the call and leaves the store unchanged.
- `Indexer.Indexer.Add`: the error value is simplified. On a key error it returns the key function's own error, where client-go wraps it in a `KeyError` that also carries the object.
- `Indexer.Indexer.ByIndex`: the result is an unordered set. client-go returns a list in map-iteration order. No duplicates are lost, because each stored object sits under its own key.
- Logging (`klog`), `fmt.Printf` in `syncToStdout` and the `fmt.Println` loop in the indexer `main`: output only.
- The `panic` in the Update and Delete handlers is the `Outcome.Panic` result, with the queue untouched. A panic's unwinding of the informer is not modelled.
- `syncToStdout` asserts that the stored object is a Pod. The informer is built for `&v1.Pod{}`, so `Lookup.Found` carries only Pods and the panicking assertion is left out.
- All objects are handled as pointers, as the demos pass them. A non-pointer Pod value, which the two index functions would reject, is not modelled.
- `WorkQueue.RateLimitingQueue.Get`: requires that the call returns, meaning a key is ready or the queue is shutting down. A Get that blocks waiting for another goroutine is not modelled.
- `Controller.Controller.ProcessNextItem`: has the same requirement as Get, for the same reason.
- `Controller.Controller.RunWorker`: returns where Get would block instead of waiting for more keys. It is stated for a single worker, with no key held by another worker on entry. Its contract gives the final queue shape and the requeue counts of the keys ready on entry. It does not state the calls recorded or the errors reported along the way.
- The general watch-cache-reconcile design reports a malformed event and never crashes. This code instead drops a key error silently on Add and panics on Update and Delete. The model follows the code.
