/**
 * The Kubernetes objects the demos put into caches: a Pod, some other kind of
 * object that still carries object metadata, and a value without metadata.
 * Objects are held by pointer, as the demos pass `&v1.Pod{...}`.
 */
module Objects {
  import opened Results

  /** The key an object is stored and queued under, `<namespace>/<name>`. */
  type Key = string

  /** The identity part of `metav1.ObjectMeta`. */
  datatype ObjectMeta = ObjectMeta(name: string, namespace: string)

  datatype Object =
    | Pod(meta: ObjectMeta, nodeName: string)   // *v1.Pod; nodeName is Spec.NodeName
    | Other(meta: ObjectMeta)                  // any other kind with metadata
    | Bare                                     // a value with no object metadata
  {
    predicate HasMeta() { !Bare? }
  }

  /** Objects an informer built for `&v1.Pod{}` delivers. */
  type PodObject = o: Object | o.Pod? witness Pod(ObjectMeta("", ""), "")

  /** The error `meta.Accessor` returns for a value without metadata. */
  const NotAnObject := Error("object does not implement the Object interfaces")

  /** `meta.Accessor`: the object's metadata, or an error when it has none. */
  function Accessor(obj: Object): (r: Result<ObjectMeta>)
    ensures r.Ok? <==> obj.HasMeta()
    ensures r.Ok? ==> r.value == obj.meta
    ensures r.Err? ==> r.error == NotAnObject
  {
    match obj
    case Bare => Err(NotAnObject)
    case _ => Ok(obj.meta)
  }
}
