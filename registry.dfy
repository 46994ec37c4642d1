/**
 * The topic registry shared in shape by the three publishers: a map from
 * topic name to handle (a Go sync.Map), filled by insert-if-absent.
 *
 * The map is modelled sequentially: sync.Map's LoadOrStore is "return the
 * existing entry if there is one, otherwise store the given value and return
 * it".
 */
module Registry {
  import opened Backend

  /** What sync.Map.LoadOrStore returns, together with the map afterwards. */
  datatype Loaded<K, V> = Loaded(actual: V, loaded: bool, entries: map<K, V>)

  /** sync.Map.LoadOrStore: an existing entry wins; otherwise `value` is stored. */
  function LoadOrStore<K, V>(m: map<K, V>, key: K, value: V): (r: Loaded<K, V>)
    ensures r.loaded <==> key in m
    ensures r.entries.Keys == m.Keys + {key}
    ensures key in r.entries && r.actual == r.entries[key]
    ensures forall k :: k in m ==> r.entries[k] == m[k]
    ensures !r.loaded ==> r.actual == value
  {
    if key in m then Loaded(m[key], true, m) else Loaded(value, false, m[key := value])
  }

  /** The state a handle stored under a name starts in: ordering enabled, nothing paused. */
  const OrderedInitial := Unconfigured.(orderingEnabled := true)

  /**
   * The registry invariant: each entry is a handle for its own name, created
   * by `conn`, with message ordering enabled.  Since names are distinct, so
   * are the handles.
   */
  ghost predicate Registered(topics: map<string, Topic>, conn: Client)
    reads topics.Values
  {
    forall n :: n in topics ==> Configured(topics[n], n, conn)
  }

  /** `t` is the handle for `name` on `conn`, with message ordering enabled. */
  ghost predicate Configured(t: Topic, name: string, conn: Client)
    reads t
  {
    t.name == name && t.conn == conn && t.orderingEnabled && t.Valid()
  }

  /** The state of the handle that a lookup of `name` would return. */
  ghost function HandleState(topics: map<string, Topic>, name: string): TopicState
    reads topics.Values
  {
    if name in topics then topics[name].State() else OrderedInitial
  }

  /** The handle cached under `name`, as a frame. */
  function Cached(topics: map<string, Topic>, name: string): set<Topic> {
    if name in topics then {topics[name]} else {}
  }
}
