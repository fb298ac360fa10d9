/** What `guardar` writes to the storage slot and what `cargar` rebuilds from
    it. The slot is modelled after `JSON.parse`: absent, unreadable, or a list of
    plain records. */
module Persistencia {
  import opened Tareas

  /** The one storage slot the store uses (the key `karlay_tareas_v1`), as
      `cargar` sees it. */
  datatype Slot =
    | Absent                          // no item, or the empty string
    | Malformed                       // not JSON, not a list, or an element the constructor rejects
    | Parsed(items: seq<TareaInit>)   // a list of records

  /** A stored snapshot read back: every field is present. */
  function Encode(t: TareaJson): (init: TareaInit)
    ensures init.id.Some? && init.completa.Some? && init.prioridad.Some? && init.createdAt.Some?
  {
    TareaInit(Some(t.id), t.nombre, Some(t.completa), Some(t.prioridad), Some(t.createdAt))
  }

  /** What the slot holds after `guardar`: the `toJSON` of every task, in order. */
  function Stored(snap: seq<TareaJson>): (slot: Slot)
    ensures slot.Parsed? && |slot.items| == |snap|
  {
    Parsed(seq(|snap|, i requires 0 <= i < |snap| => Encode(snap[i])))
  }

  /** The tasks `cargar` rebuilds: element `i` is `new Tarea(obj)` with
      `nuevoId(i)` for `crearId()` and `ahora` for `Date.now()`; an absent or
      malformed slot gives the empty list. */
  function Loaded(slot: Slot, nuevoId: nat -> string, ahora: int): (r: seq<TareaJson>)
    ensures !slot.Parsed? ==> r == []
    ensures slot.Parsed? ==> |r| == |slot.items|
  {
    match slot
    case Absent => []
    case Malformed => []
    case Parsed(items) => seq(|items|, i requires 0 <= i < |items| => ConDefectos(items[i], nuevoId(i), ahora))
  }

  /** Loading what was saved gives back the same tasks, field for field and in
      the same order, whatever ids and clock the reload would have used. */
  lemma LoadStored(snap: seq<TareaJson>, nuevoId: nat -> string, ahora: int)
    ensures Loaded(Stored(snap), nuevoId, ahora) == snap
  {
    var r := Loaded(Stored(snap), nuevoId, ahora);
    forall i | 0 <= i < |snap| ensures r[i] == snap[i] {
      assert Stored(snap).items[i] == Encode(snap[i]);
      assert r[i] == ConDefectos(Encode(snap[i]), nuevoId(i), ahora);
    }
  }
}
