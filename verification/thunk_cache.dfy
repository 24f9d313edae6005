/** The thunk cache: one flat map from identifier to the substitute value
    produced for it, and the ways `clearThunkCache` empties it.
 */
module ThunkCache {
  import opened Selection

  /** A value handed back by the loader. `Plain` is the loader's own value,
      untouched; `Thunked` is a handler result carrying the `__thunked` marker. */
  datatype Export<V> = Plain(value: V) | Thunked(value: V)

  /** At most one entry per identifier. */
  type Cache<V> = map<Id, Export<V>>

  /** The optional argument of `clearThunkCache`: absent, or one or more ids. */
  datatype ClearTargets = Everything | Only(targets: Targets)

  /** Deletes each listed key in turn; keys that are absent or listed twice
      are harmless. */
  function DeleteEach<T>(m: map<Id, T>, ids: seq<Id>): (r: map<Id, T>)
    ensures forall k :: k in r <==> k in m && k !in ids
    ensures forall k :: k in r ==> r[k] == m[k]
    decreases |ids|
  {
    if |ids| == 0 then m else DeleteEach(m - {ids[0]}, ids[1..])
  }

  /** No argument empties the map; otherwise exactly the named keys go and
      every other entry keeps its value. */
  function Clear<T>(m: map<Id, T>, which: ClearTargets): (r: map<Id, T>)
    ensures which.Everything? ==> r == map[]
    ensures which.Only? ==> forall k :: k in r <==> k in m && k !in AsList(which.targets)
    ensures forall k :: k in r ==> k in m && r[k] == m[k]
  {
    match which
    case Everything => map[]
    case Only(Single(id)) => m - {id}
    case Only(List(ids)) => DeleteEach(m, ids)
  }

  /** Clearing one id and clearing the one-element list holding it agree. */
  lemma ClearSingleAsList<T>(m: map<Id, T>, id: Id)
    ensures Clear(m, Only(Single(id))) == Clear(m, Only(List([id])))
  {
  }
}
