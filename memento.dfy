/**
 * A memento (src/Memento.py): a snapshot made of keyword attributes, the
 * time it was created and the name of what created it.  The clock
 * (`time.time()`) is a parameter.
 */
module Mementos {
  import opened Wrappers

  datatype Memento<V> = Memento(attributes: map<string, V>, timestampCreated: real, source: Option<string>)

  /** The exception `__init__` raises for a key the memento reserves for itself. */
  datatype MementoError = UnderscoreKey(key: string)

  /** Keys starting with an underscore are reserved (Memento.py:10). */
  predicate Reserved(key: string) {
    |key| > 0 && key[0] == '_'
  }

  /** The keys of a list of keyword arguments. */
  ghost function Keys<V>(kwargs: seq<(string, V)>): set<string> {
    set i | 0 <= i < |kwargs| :: kwargs[i].0
  }

  /**
   * `Memento(_source, **kwargs)` (Memento.py:7-17): the keyword arguments,
   * in order, become attributes, until a reserved key raises.
   */
  method NewMemento<V>(source: Option<string> := None, kwargs: seq<(string, V)>, now: real)
    returns (r: Result<Memento<V>, MementoError>)
    requires forall i, j :: 0 <= i < j < |kwargs| ==> kwargs[i].0 != kwargs[j].0
    ensures r.Failure? <==> exists i :: 0 <= i < |kwargs| && Reserved(kwargs[i].0)
    ensures r.Failure? ==>
              exists i :: 0 <= i < |kwargs| && r.error.key == kwargs[i].0 && Reserved(kwargs[i].0) &&
                          forall j :: 0 <= j < i ==> !Reserved(kwargs[j].0)
    ensures r.Success? ==>
              && r.value.attributes.Keys == Keys(kwargs)
              && (forall i :: 0 <= i < |kwargs| ==> r.value.attributes[kwargs[i].0] == kwargs[i].1)
              && r.value.timestampCreated == now
              && r.value.source == source
  {
    var attributes: map<string, V> := map[];
    var n := 0;
    while n < |kwargs|
      invariant 0 <= n <= |kwargs|
      invariant forall j :: 0 <= j < n ==> !Reserved(kwargs[j].0)
      invariant attributes.Keys == Keys(kwargs[..n])
      invariant forall j :: 0 <= j < n ==> attributes[kwargs[j].0] == kwargs[j].1
    {
      var (key, value) := kwargs[n];
      if Reserved(key) {
        return Failure(UnderscoreKey(key));
      }
      attributes := attributes[key := value];
      assert kwargs[..n + 1] == kwargs[..n] + [kwargs[n]];
      n := n + 1;
    }
    assert kwargs[..n] == kwargs;
    r := Success(Memento(attributes, now, source));
  }

  /**
   * No stored attribute can be mistaken for the memento's own `_source` and
   * `_timestamp_created`, because a successful construction had no reserved key.
   */
  lemma AttributesNotReserved<V>(source: Option<string>, kwargs: seq<(string, V)>, m: Memento<V>)
    requires m.attributes.Keys == Keys(kwargs)
    requires forall i :: 0 <= i < |kwargs| ==> !Reserved(kwargs[i].0)
    ensures "_source" !in m.attributes && "_timestamp_created" !in m.attributes
  {
    assert Reserved("_source") && Reserved("_timestamp_created");
  }

  /** `is_related` (Memento.py:19-29): the base memento is related to nothing. */
  function IsRelated<V>(self: Memento<V>, other: Memento<V>): (r: bool)
    ensures !r
  {
    false
  }
}
