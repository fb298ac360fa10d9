/** The `Tarea` entity: one to-do item, its defaults, its three in-place
    mutators and its `toJSON` snapshot. */
module Tareas {

  datatype Option<T> = None | Some(value: T)
  {
    function GetOr(default: T): T
    {
      if Some? then value else default
    }
  }

  /** The plain record `toJSON` produces (and `guardar` stores). */
  datatype TareaJson = TareaJson(id: string, nombre: string, completa: bool, prioridad: string, createdAt: int)

  /** The object handed to the `Tarea` constructor; an absent field is one that
      destructuring sees as `undefined`, and gets its default. */
  datatype TareaInit = TareaInit(
    id: Option<string>,
    nombre: string,
    completa: Option<bool>,
    prioridad: Option<string>,
    createdAt: Option<int>)

  const PrioridadPorDefecto: string := "media"

  /** The record the constructor builds from `init`, with `nuevoId` standing for
      `crearId()` and `ahora` for `Date.now()`. */
  function ConDefectos(init: TareaInit, nuevoId: string, ahora: int): (t: TareaJson)
    ensures t.nombre == init.nombre
    ensures init.id.Some? ==> t.id == init.id.value
    ensures init.id.None? ==> t.id == nuevoId
    ensures t.completa <==> init.completa == Some(true)
    ensures init.prioridad.None? ==> t.prioridad == PrioridadPorDefecto
    ensures init.prioridad.Some? ==> t.prioridad == init.prioridad.value
    ensures t.createdAt == init.createdAt.GetOr(ahora)
  {
    TareaJson(
      init.id.GetOr(nuevoId),
      init.nombre,
      init.completa.GetOr(false),
      init.prioridad.GetOr(PrioridadPorDefecto),
      init.createdAt.GetOr(ahora))
  }

  function IsDone(t: TareaJson): bool
  {
    t.completa
  }

  function IsPending(t: TareaJson): bool
  {
    !t.completa
  }

  class Tarea {
    const id: string
    var nombre: string
    var completa: bool
    var prioridad: string
    const createdAt: int

    constructor (init: TareaInit, nuevoId: string, ahora: int)
      ensures ToJson() == ConDefectos(init, nuevoId, ahora)
    {
      id := init.id.GetOr(nuevoId);
      nombre := init.nombre;
      completa := init.completa.GetOr(false);
      prioridad := init.prioridad.GetOr(PrioridadPorDefecto);
      createdAt := init.createdAt.GetOr(ahora);
    }

    /** `toJSON`: a snapshot of every field. */
    function ToJson(): (j: TareaJson)
      reads this
      ensures j.id == id && j.nombre == nombre && j.completa == completa
      ensures j.prioridad == prioridad && j.createdAt == createdAt
    {
      TareaJson(id, nombre, completa, prioridad, createdAt)
    }

    /** `alternarEstado`: flips the completion flag and nothing else. */
    method AlternarEstado()
      modifies this
      ensures ToJson() == old(ToJson()).(completa := !old(completa))
    {
      completa := !completa;
    }

    /** `editar`: replaces the name; the caller checks it is not empty. */
    method Editar(nuevoNombre: string)
      modifies this
      ensures ToJson() == old(ToJson()).(nombre := nuevoNombre)
    {
      nombre := nuevoNombre;
    }

    /** `setPrioridad`: replaces the priority; any string is accepted. */
    method SetPrioridad(nuevaPrioridad: string)
      modifies this
      ensures ToJson() == old(ToJson()).(prioridad := nuevaPrioridad)
    {
      prioridad := nuevaPrioridad;
    }
  }

  /** The snapshots of a list of task objects, in order. */
  function Snapshots(ts: seq<Tarea>): (r: seq<TareaJson>)
    reads ts
    ensures |r| == |ts|
    ensures forall i :: 0 <= i < |ts| ==> r[i] == ts[i].ToJson()
  {
    seq(|ts|, i requires 0 <= i < |ts| reads ts => ts[i].ToJson())
  }

  lemma SnapshotsAppend(ts: seq<Tarea>, t: Tarea)
    ensures Snapshots(ts + [t]) == Snapshots(ts) + [t.ToJson()]
  {
  }

  /** Every task object occurs at most once in the list. */
  ghost predicate Distinct(ts: seq<Tarea>)
  {
    forall i, j :: 0 <= i < j < |ts| ==> ts[i] != ts[j]
  }
}
