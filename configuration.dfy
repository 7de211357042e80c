/**
 * `ConfiguratorCollection` (src/core/Wyam.App/Configuration/ConfiguratorCollection.cs):
 * a dictionary from a configurable type to the ordered list of configurators
 * registered for it. `Get` creates the list for a type on first use; `TryGet`
 * never creates one; every `Add` appends to the list of one type.
 */
module Configuration {
  import opened Wrappers
  import opened Reflection

  /**
   * What the collection stores for a type: a delegate wrapped in a
   * `DelegateConfigurator<T>`, or some other `IConfigurator<T>` object.
   */
  datatype Configurator<A, O> = DelegateConfigurator(action: A) | ConfiguratorObject(instance: O)

  /** The list stored for `t`, or the empty list when there is none. */
  function Lookup<C>(m: map<TypeInfo, seq<C>>, t: TypeInfo): seq<C>
  {
    if t in m then m[t] else []
  }

  /** The dictionary after `Get` for `t`: an empty list is added for an absent type, nothing else changes. */
  function GetOrCreate<C>(m: map<TypeInfo, seq<C>>, t: TypeInfo): (m': map<TypeInfo, seq<C>>)
    ensures m'.Keys == m.Keys + {t}
    ensures m'[t] == Lookup(m, t)
    ensures forall k :: k in m ==> m'[k] == m[k]
  {
    if t in m then m else m[t := []]
  }

  /** The dictionary after one `Add` for `t`: `c` is appended to the list of `t`. */
  function Appended<C>(m: map<TypeInfo, seq<C>>, t: TypeInfo, c: C): (m': map<TypeInfo, seq<C>>)
    ensures m'.Keys == m.Keys + {t}
    ensures m'[t] == Lookup(m, t) + [c]
    ensures forall k :: k in m && k != t ==> m'[k] == m[k]
  {
    var created := GetOrCreate(m, t);
    created[t := created[t] + [c]]
  }

  /**
   * The dictionary after one `Add` for `t` per element of `cs`, in order: the
   * list of `t` grows by `cs`, created if needed unless `cs` is empty, and no
   * other list changes.
   */
  function AppendedAll<C>(m: map<TypeInfo, seq<C>>, t: TypeInfo, cs: seq<C>): (m': map<TypeInfo, seq<C>>)
    ensures m'.Keys == if |cs| == 0 then m.Keys else m.Keys + {t}
    ensures Lookup(m', t) == Lookup(m, t) + cs
    ensures forall k :: k in m && k != t ==> m'[k] == m[k]
  {
    if |cs| == 0 then m
    else
      var created := GetOrCreate(m, t);
      created[t := created[t] + cs]
  }

  /** One more `Add` after a run of them extends the run by that configurator. */
  lemma AppendedAllSnoc<C>(m: map<TypeInfo, seq<C>>, t: TypeInfo, cs: seq<C>, c: C)
    ensures AppendedAll(m, t, cs + [c]) == Appended(AppendedAll(m, t, cs), t, c)
  {
    var left, right := AppendedAll(m, t, cs + [c]), Appended(AppendedAll(m, t, cs), t, c);
    assert left.Keys == right.Keys;
    assert forall k :: k in left ==> left[k] == right[k];
  }

  /** Asking for the same type twice creates its entry at most once. */
  lemma GetOrCreateIdempotent<C>(m: map<TypeInfo, seq<C>>, t: TypeInfo)
    ensures GetOrCreate(GetOrCreate(m, t), t) == GetOrCreate(m, t)
    ensures t in m ==> GetOrCreate(m, t) == m
  {
  }

  class ConfiguratorCollection<A, O> {
    /** `_configurators` */
    var configurators: map<TypeInfo, seq<Configurator<A, O>>>

    constructor ()
      ensures configurators == map[]
    {
      configurators := map[];
    }

    /**
     * `Get<TConfigurable>()`: the list for `t`, created empty when `t` has no
     * entry yet; an existing entry is returned as it is and nothing changes.
     */
    method Get(t: TypeInfo) returns (list: seq<Configurator<A, O>>)
      modifies this
      ensures configurators == GetOrCreate(old(configurators), t)
      ensures list == configurators[t]
      ensures t in old(configurators) ==> configurators == old(configurators) && list == old(configurators)[t]
      ensures t !in old(configurators) ==> list == []
    {
      if t !in configurators {
        configurators := configurators[t := []];
      }
      list := configurators[t];
    }

    /**
     * `TryGet<TConfigurable>(out configurators)`: true with the stored list
     * when `t` has an entry, even an empty one; false with a null list
     * otherwise. It creates nothing.
     */
    method TryGet(t: TypeInfo) returns (found: bool, list: Option<seq<Configurator<A, O>>>)
      ensures found <==> t in configurators
      ensures found ==> list == Some(configurators[t])
      ensures !found ==> list == None
    {
      if t in configurators {
        found, list := true, Some(configurators[t]);
      } else {
        found, list := false, None;
      }
    }

    /** `Add<TConfigurable>(IConfigurator<TConfigurable>)`: appends to the list of `t` through `Get`. */
    method Add(t: TypeInfo, configurator: Configurator<A, O>)
      modifies this
      ensures configurators == Appended(old(configurators), t, configurator)
    {
      var _ := Get(t);
      configurators := configurators[t := configurators[t] + [configurator]];
    }

    /** `Add<TConfigurable>(Action<TConfigurable>)`: wraps the action and appends it. */
    method AddAction(t: TypeInfo, action: A)
      modifies this
      ensures configurators == Appended(old(configurators), t, DelegateConfigurator(action))
    {
      Add(t, DelegateConfigurator(action));
    }

    /**
     * `Add<TConfigurable, TConfigurator>()`: appends a new instance of the
     * configurator type; `created` stands for what `Activator.CreateInstance`
     * returns.
     */
    method AddCreated(t: TypeInfo, created: O)
      modifies this
      ensures configurators == Appended(old(configurators), t, ConfiguratorObject(created))
    {
      var _ := Get(t);
      configurators := configurators[t := configurators[t] + [ConfiguratorObject(created)]];
    }
  }
}
