/**
 * The undo/redo history of src/Caretaker.py.  For every object id the
 * caretaker keeps a list of mementos, the index of the current one and the
 * largest number of mementos to keep.  The maximum comes from the
 * configuration (`config['mementos']['max_num_mementos']`) and is a
 * constructor parameter here.
 */
module Caretakers {
  import opened Wrappers
  import opened Ints

  /** The history of one id: its mementos, the current index and the maximum length. */
  datatype History<M> = History(entries: seq<M>, cursor: int, limit: int)

  /**
   * The shape every history keeps: never longer than its maximum (a maximum
   * of 0 or less keeps nothing, as `save` appends and then pops), and the
   * index names an entry exactly when there is one (-1 for an empty history).
   */
  predicate WellFormed<M>(h: History<M>) {
    && (h.entries == [] || |h.entries| <= h.limit)
    && -1 <= h.cursor < |h.entries|
    && (h.entries != [] ==> 0 <= h.cursor)
  }

  /** The history `save` starts for an id it has not seen (Caretaker.py:18-21). */
  function Fresh<M>(limit: int): (h: History<M>)
    ensures WellFormed(h) && h.entries == [] && h.cursor == -1
  {
    History([], -1, limit)
  }

  /**
   * `save` on one history (Caretaker.py:22-32): what was undone is dropped,
   * the memento is appended, the oldest entry is evicted when the list is
   * over its maximum, and the index moves to the last entry.
   */
  function Saved<M>(h: History<M>, m: M): (r: History<M>)
    requires WellFormed(h)
    ensures WellFormed(r) && r.limit == h.limit
    ensures r.cursor == |r.entries| - 1
  {
    var kept := if |h.entries| > 0 && h.cursor < |h.entries| - 1 then h.entries[..h.cursor + 1] else h.entries;
    var appended := kept + [m];
    var entries := if |appended| > h.limit then appended[1..] else appended;
    History(entries, |entries| - 1, h.limit)
  }

  /** `undo` is possible when the index can move back (Caretaker.py:44). */
  predicate CanUndo<M>(h: History<M>) {
    h.cursor - 1 >= 0
  }

  /** `redo` is possible when the index can move forward (Caretaker.py:60). */
  predicate CanRedo<M>(h: History<M>) {
    h.cursor + 1 < |h.entries|
  }

  /** The memento the index names. */
  function Current<M>(h: History<M>): M
    requires WellFormed(h) && h.entries != []
  {
    h.entries[h.cursor]
  }

  /**
   * The list updates of `save` (Caretaker.py:22-30), one after the other:
   * truncate what was undone, append, evict the oldest over the maximum.
   */
  method SaveEntries<M>(entries: seq<M>, cursor: int, limit: int, m: M) returns (r: seq<M>)
    requires WellFormed(History(entries, cursor, limit))
    ensures History(r, |r| - 1, limit) == Saved(History(entries, cursor, limit), m)
  {
    r := entries;
    if |r| > 0 && cursor < |r| - 1 {
      r := r[..cursor + 1];
    }
    r := r + [m];
    if |r| > limit {
      r := r[1..];
    }
  }

  class Caretaker<K(==,!new), M> {
    /** The maximum length given to every new history. */
    const maxNumMementos: int
    var mementos: map<K, seq<M>>
    var idx: map<K, int>
    var maxMementos: map<K, int>

    /** The three dictionaries have the same ids and every history is well formed. */
    ghost predicate Valid()
      reads this
    {
      && mementos.Keys == idx.Keys == maxMementos.Keys
      && forall id :: id in mementos ==> WellFormed(History(mementos[id], idx[id], maxMementos[id]))
    }

    /** The history of `id`, if `save` has been called for it. */
    function Lookup(id: K): (r: Option<History<M>>)
      reads this
      requires Valid()
      ensures r.Some? <==> id in mementos
      ensures r.Some? ==> WellFormed(r.value)
    {
      if id in mementos then Some(History(mementos[id], idx[id], maxMementos[id])) else None
    }

    /** `Caretaker()` (Caretaker.py:5-8). */
    constructor (maxNumMementos: int)
      ensures Valid() && this.maxNumMementos == maxNumMementos
      ensures mementos == map[] && idx == map[] && maxMementos == map[]
    {
      this.maxNumMementos := maxNumMementos;
      mementos := map[];
      idx := map[];
      maxMementos := map[];
    }

    /** `save(obj_id, memento)` (Caretaker.py:10-32). */
    method Save(id: K, memento: M)
      requires Valid()
      modifies this
      ensures Valid()
      ensures Lookup(id) == Some(Saved(if id in old(mementos) then old(Lookup(id)).value else Fresh(maxNumMementos), memento))
      ensures forall other :: other != id ==> Lookup(other) == old(Lookup(other))
    {
      // A new id starts with no mementos, index -1 and the configured maximum.
      var entries, cursor, limit := [], -1, maxNumMementos;
      if id in mementos {
        entries, cursor, limit := mementos[id], idx[id], maxMementos[id];
      }
      var saved := SaveEntries(entries, cursor, limit, memento);
      mementos, idx, maxMementos := mementos[id := saved], idx[id := |saved| - 1], maxMementos[id := limit];
    }

    /**
     * `undo(obj_id)` (Caretaker.py:34-48): moves the index one entry back and
     * returns that entry, or returns None and changes nothing.
     */
    method Undo(id: K) returns (r: Option<M>)
      requires Valid()
      modifies this
      ensures Valid()
      ensures old(Lookup(id)).None? || !CanUndo(old(Lookup(id)).value) ==>
                r.None? && Lookup(id) == old(Lookup(id))
      ensures old(Lookup(id)).Some? && CanUndo(old(Lookup(id)).value) ==>
                var h := old(Lookup(id)).value;
                Lookup(id) == Some(h.(cursor := h.cursor - 1)) && r == Some(h.entries[h.cursor - 1])
      ensures forall other :: other != id ==> Lookup(other) == old(Lookup(other))
    {
      if id !in mementos {
        return None;
      }
      if idx[id] - 1 < 0 {
        return None;
      }
      idx := idx[id := idx[id] - 1];
      r := Some(mementos[id][idx[id]]);
    }

    /**
     * `redo(obj_id)` (Caretaker.py:50-64): moves the index one entry forward
     * and returns that entry, or returns None and changes nothing.
     */
    method Redo(id: K) returns (r: Option<M>)
      requires Valid()
      modifies this
      ensures Valid()
      ensures old(Lookup(id)).None? || !CanRedo(old(Lookup(id)).value) ==>
                r.None? && Lookup(id) == old(Lookup(id))
      ensures old(Lookup(id)).Some? && CanRedo(old(Lookup(id)).value) ==>
                var h := old(Lookup(id)).value;
                Lookup(id) == Some(h.(cursor := h.cursor + 1)) && r == Some(h.entries[h.cursor + 1])
      ensures forall other :: other != id ==> Lookup(other) == old(Lookup(other))
    {
      if id !in mementos {
        return None;
      }
      if idx[id] + 1 >= |mementos[id]| {
        return None;
      }
      idx := idx[id := idx[id] + 1];
      r := Some(mementos[id][idx[id]]);
    }
  }

  /**
   * What `save` keeps: the new memento last (unless the maximum is 0 or
   * less, when nothing is kept), preceded by the newest entries up to the old index, as
   * many as fit below the maximum; the entries after the old index are gone.
   */
  lemma SaveKeepsPrefix<M>(h: History<M>, m: M)
    requires WellFormed(h)
    ensures var r := Saved(h, m);
            && |r.entries| == (if h.limit <= 0 then 0 else Min(h.cursor + 2, h.limit))
            && (h.limit <= 0 ==> r.entries == [])
            && (h.limit > 0 ==> r.entries[|r.entries| - 1] == m)
            && (h.limit > 0 ==>
                  var kept := h.entries[..h.cursor + 1];
                  r.entries[..|r.entries| - 1] == kept[|kept| + 1 - |r.entries|..])
  {
    var kept := h.entries[..h.cursor + 1];
    if !(|h.entries| > 0 && h.cursor < |h.entries| - 1) {
      assert kept == h.entries;
    }
  }

  /** Redoing right after an undo gives back the history as it was. */
  lemma UndoThenRedo<M>(h: History<M>)
    requires WellFormed(h) && CanUndo(h)
    ensures WellFormed(h.(cursor := h.cursor - 1))
    ensures CanRedo(h.(cursor := h.cursor - 1))
    ensures h.(cursor := h.cursor - 1).(cursor := h.cursor) == h
  {
  }

  /** Undoing right after a redo gives back the history as it was. */
  lemma RedoThenUndo<M>(h: History<M>)
    requires WellFormed(h) && CanRedo(h)
    ensures WellFormed(h.(cursor := h.cursor + 1))
    ensures CanUndo(h.(cursor := h.cursor + 1))
    ensures h.(cursor := h.cursor + 1).(cursor := h.cursor) == h
  {
  }

  /**
   * After a save there is nothing to redo, and as long as the maximum leaves
   * room for two entries an undo returns the memento that was current before.
   */
  lemma UndoAfterSave<M>(h: History<M>, m: M)
    requires WellFormed(h) && h.entries != [] && h.limit >= 2
    ensures !CanRedo(Saved(h, m))
    ensures CanUndo(Saved(h, m))
    ensures Saved(h, m).entries[Saved(h, m).cursor - 1] == Current(h)
  {
    var r := Saved(h, m);
    var kept := h.entries[..h.cursor + 1];
    SaveKeepsPrefix(h, m);
    assert r.entries[..|r.entries| - 1] == kept[|kept| + 1 - |r.entries|..];
    assert r.entries[|r.entries| - 2] == r.entries[..|r.entries| - 1][|r.entries| - 2];
  }

  /**
   * On the caretaker itself: a redo right after a successful undo returns
   * the memento that was current and leaves every history as it was.
   */
  method UndoRedoRoundTrip<K(==,!new), M>(c: Caretaker<K, M>, id: K) returns (undone: Option<M>, redone: Option<M>)
    requires c.Valid()
    modifies c
    ensures c.Valid()
    ensures undone.Some? ==>
              old(c.Lookup(id)).Some? && old(c.Lookup(id)).value.entries != [] &&
              redone == Some(Current(old(c.Lookup(id)).value))
    ensures undone.Some? ==> forall k :: c.Lookup(k) == old(c.Lookup(k))
  {
    ghost var before := c.Lookup(id);
    undone := c.Undo(id);
    if undone.Some? {
      UndoThenRedo(before.value);
      redone := c.Redo(id);
    } else {
      redone := None;
    }
  }
}
