/**
 * indexer/main.go: two index functions registered on a client-go indexer,
 * three pods added to it, and a lookup by node name.
 *
 * The indexer itself is client-go code. It appears here as a map from key to
 * object, with `ByIndex` giving the stored objects whose index values contain
 * the queried value; how client-go maintains its index sets is not modelled.
 */
module Indexer {
  import opened Results
  import opened Objects

  /** `cache.IndexFunc`: the index values of an object, or an error. */
  type IndexFunc = Object -> Result<seq<string>>

  const NamespaceIndexName := "namespaceIndexFunc"
  const NodeNameIndexName := "nodeName"

  /** The error `nodeNameIndexFunc` returns for an object that is not a Pod. */
  const NotAPod := Error("断言失败，类型不对")

  /** `namespaceIndexFunc`: the object's namespace, its only index value; an
      object without metadata has no values and an error instead. */
  function NamespaceIndexFunc(obj: Object): (r: Result<seq<string>>)
    ensures r.Ok? <==> obj.HasMeta()
    ensures r.Ok? ==> r.value == [obj.meta.namespace]
    ensures r.Err? ==> r.error == NotAnObject
  {
    match Accessor(obj)
    case Err(e) => Err(e)
    case Ok(m) => Ok([m.namespace])
  }

  /** `nodeNameIndexFunc`: a Pod's `Spec.NodeName`, its only index value; any
      other object has no values and an error instead. */
  function NodeNameIndexFunc(obj: Object): (r: Result<seq<string>>)
    ensures r.Ok? <==> obj.Pod?
    ensures r.Ok? ==> r.value == [obj.nodeName]
    ensures r.Err? ==> r.error == NotAPod
  {
    if obj.Pod? then Ok([obj.nodeName]) else Err(NotAPod)
  }

  /** The indexers `main` registers: two distinct names, each bound to its
      own function. */
  function DemoIndexers(): (m: map<string, IndexFunc>)
    ensures NamespaceIndexName != NodeNameIndexName
    ensures m.Keys == {NamespaceIndexName, NodeNameIndexName} && |m| == 2
    ensures m[NamespaceIndexName] == NamespaceIndexFunc
    ensures m[NodeNameIndexName] == NodeNameIndexFunc
  {
    map[NamespaceIndexName := NamespaceIndexFunc, NodeNameIndexName := NodeNameIndexFunc]
  }

  /** `value` is among the index values `f` gives `obj`. */
  predicate Indexed(f: IndexFunc, obj: Object, value: string) {
    f(obj).Ok? && value in f(obj).value
  }

  /** Every registered index function accepts `obj`. */
  predicate Indexable(indexers: map<string, IndexFunc>, obj: Object) {
    forall name | name in indexers :: indexers[name](obj).Ok?
  }

  /** The stored objects that `f` files under `value`. */
  function Matching(items: map<Key, Object>, f: IndexFunc, value: string): set<Object> {
    set k | k in items && Indexed(f, items[k], value) :: items[k]
  }

  /** The index on node names yields only Pods, so the type assertion `main`
      applies to each result never fails. */
  lemma NodeNameMatchesArePods(items: map<Key, Object>, value: string)
    ensures forall o | o in Matching(items, NodeNameIndexFunc, value) :: o.Pod? && o.nodeName == value
  {
  }

  /** Both registered index functions accept every Pod. */
  lemma PodsAreIndexable()
    ensures forall o: Object | o.Pod? :: Indexable(DemoIndexers(), o)
  {
  }

  /** The store behind `cache.NewIndexer(keyFunc, indexers)`. */
  class Indexer {
    const keyFunc: Object -> Result<Key>
    const indexers: map<string, IndexFunc>
    var items: map<Key, Object>

    /** Every object is stored under its own key and every index function
        accepts it. */
    ghost predicate Valid()
      reads this
    {
      forall k | k in items :: keyFunc(items[k]) == Ok(k) && Indexable(indexers, items[k])
    }

    constructor (keyFunc: Object -> Result<Key>, indexers: map<string, IndexFunc>)
      ensures Valid() && items == map[]
      ensures this.keyFunc == keyFunc && this.indexers == indexers
    {
      this.keyFunc := keyFunc;
      this.indexers := indexers;
      items := map[];
    }

    /** `Add(obj)`: store the object under its key. A failing key function or
        index function makes the call fail and leaves the store as it was. */
    method Add(obj: Object) returns (err: Option<Error>)
      requires Valid()
      modifies this
      ensures Valid()
      ensures keyFunc(obj).Err? ==> err == Some(keyFunc(obj).error) && items == old(items)
      ensures keyFunc(obj).Ok? && !Indexable(indexers, obj) ==>
        err.Some? && (exists name :: name in indexers && indexers[name](obj) == Err(err.value)) &&
        items == old(items)
      ensures keyFunc(obj).Ok? && Indexable(indexers, obj) ==>
        err == None && items == old(items)[keyFunc(obj).value := obj]
    {
      var key := keyFunc(obj);
      if key.Err? {
        return Some(key.error);
      }
      if !Indexable(indexers, obj) {
        var name :| name in indexers && indexers[name](obj).Err?;
        return Some(indexers[name](obj).error);
      }
      items := items[key.value := obj];
      err := None;
    }

    /** `ByIndex(name, value)`: the stored objects the named index function
        files under `value`; an unregistered name is an error. */
    function ByIndex(name: string, value: string): (r: Result<set<Object>>)
      reads this
      ensures r.Err? <==> name !in indexers
      ensures r.Ok? ==> forall o :: o in r.value <==> o in items.Values && Indexed(indexers[name], o, value)
    {
      if name !in indexers then Err(Error("Index with name " + name + " does not exist"))
      else Ok(Matching(items, indexers[name], value))
    }
  }

  const Pod1 := Pod(ObjectMeta("pod-1", "default"), "node1")
  const Pod2 := Pod(ObjectMeta("pod-2", "default"), "node2")
  const Pod3 := Pod(ObjectMeta("pod-3", "kube-system"), "node2")

  /** With the three pods stored under distinct keys, node "node2" holds
      exactly pod-2 and pod-3, and namespace "default" exactly pod-1 and pod-2. */
  lemma ThreePodsByIndex(k1: Key, k2: Key, k3: Key)
    requires k1 != k2 && k1 != k3 && k2 != k3
    ensures Matching(map[k1 := Pod1, k2 := Pod2, k3 := Pod3], NodeNameIndexFunc, "node2") == {Pod2, Pod3}
    ensures Matching(map[k1 := Pod1, k2 := Pod2, k3 := Pod3], NamespaceIndexFunc, "default") == {Pod1, Pod2}
  {
    var items := map[k1 := Pod1, k2 := Pod2, k3 := Pod3];
    assert items[k1] == Pod1 && items[k2] == Pod2 && items[k3] == Pod3;
    assert !Indexed(NodeNameIndexFunc, Pod1, "node2");
    assert !Indexed(NamespaceIndexFunc, Pod3, "default");
  }

  /**
   * `main`: build the indexer with both index functions, add the three pods
   * and look them up by node name (and, as the commented-out query does, by
   * namespace). Every Add succeeds because every index function accepts a Pod.
   */
  method IndexerDemo(keyFunc: Object -> Result<Key>) returns (byNode: Result<set<Object>>, byNamespace: Result<set<Object>>)
    requires keyFunc(Pod1).Ok? && keyFunc(Pod2).Ok? && keyFunc(Pod3).Ok?
    requires keyFunc(Pod1).value != keyFunc(Pod2).value
    requires keyFunc(Pod1).value != keyFunc(Pod3).value
    requires keyFunc(Pod2).value != keyFunc(Pod3).value
    ensures byNode == Ok({Pod2, Pod3})
    ensures byNamespace == Ok({Pod1, Pod2})
  {
    var k1, k2, k3 := keyFunc(Pod1).value, keyFunc(Pod2).value, keyFunc(Pod3).value;
    PodsAreIndexable();
    var indexer := new Indexer(keyFunc, DemoIndexers());
    var err1 := indexer.Add(Pod1);
    var err2 := indexer.Add(Pod2);
    var err3 := indexer.Add(Pod3);
    assert indexer.items == map[k1 := Pod1, k2 := Pod2, k3 := Pod3];
    ThreePodsByIndex(k1, k2, k3);
    byNamespace := indexer.ByIndex(NamespaceIndexName, "default");
    byNode := indexer.ByIndex(NodeNameIndexName, "node2");
  }
}
