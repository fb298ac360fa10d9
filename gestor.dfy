/** `GestorDeTareas`: the store that owns the ordered list of tasks and the
    view state (filter and search), and its operations. Each operation is
    specified by a function over the list of `toJSON` snapshots; the
    properties of the operations are lemmas about those functions. */
module Gestor {
  import opened Tareas
  import opened Texto
  import opened Secuencias
  import opened Vista
  import opened Persistencia

  /** What an operation ends in: it changed the list (and then calls
      `guardar` and `render`), it returned without doing anything, or it showed
      an error through `mostrarError`. */
  datatype Efecto = Guardado | SinCambios | Error(mensaje: string)

  const ErrorAgregarVacia: string := "No puedo agregar una tarea vacía. Escribe algo primero."
  const ErrorEditarVacia: string := "No puedo guardar una tarea vacía. Escribe un texto válido."

  // ---------------------------------------------------------------------------
  // The operations on the list of snapshots

  /** `tareas.find((x) => x.id === id)`: the position of the first task with
      that id, if any. */
  function FirstIndex(s: seq<TareaJson>, id: string): (r: Option<nat>)
    ensures r.None? ==> forall j :: 0 <= j < |s| ==> s[j].id != id
    ensures r.Some? ==> r.value < |s| && s[r.value].id == id
    ensures r.Some? ==> forall j :: 0 <= j < r.value ==> s[j].id != id
  {
    if s == [] then None
    else if s[0].id == id then Some(0)
    else
      match FirstIndex(s[1..], id)
      case None => None
      case Some(k) => Some(k + 1)
  }

  /** The list after toggling the first task with that id. */
  function Toggled(s: seq<TareaJson>, id: string): (r: seq<TareaJson>)
    ensures SameIds(s, r)
    ensures (forall j :: 0 <= j < |s| ==> s[j].id != id) ==> r == s
  {
    match FirstIndex(s, id)
    case None => s
    case Some(k) => s[k := s[k].(completa := !s[k].completa)]
  }

  /** The list after renaming the first task with that id. */
  function Renamed(s: seq<TareaJson>, id: string, nombre: string): (r: seq<TareaJson>)
    ensures SameIds(s, r)
    ensures (forall j :: 0 <= j < |s| ==> s[j].id != id) ==> r == s
  {
    match FirstIndex(s, id)
    case None => s
    case Some(k) => s[k := s[k].(nombre := nombre)]
  }

  function OtherId(id: string): TareaJson -> bool
  {
    (t: TareaJson) => t.id != id
  }

  /** `tareas.filter((t) => t.id !== id)`. */
  function Removed(s: seq<TareaJson>, id: string): (r: seq<TareaJson>)
    ensures Subsequence(r, s)
    ensures forall j :: 0 <= j < |r| ==> r[j].id != id
  {
    FilterMembers(s, OtherId(id));
    Filter(s, OtherId(id))
  }

  /** The tasks of two lists carry the same ids, position by position. */
  predicate SameIds(s: seq<TareaJson>, u: seq<TareaJson>)
  {
    |s| == |u| && forall j :: 0 <= j < |s| ==> s[j].id == u[j].id
  }

  /** No two tasks of the list share an id. */
  predicate UniqueIds(s: seq<TareaJson>)
  {
    forall i, j :: 0 <= i < j < |s| ==> s[i].id != s[j].id
  }

  /** Finding by id looks at nothing but the ids. */
  lemma {:induction false} FirstIndexSameIds(s: seq<TareaJson>, u: seq<TareaJson>, id: string)
    requires SameIds(s, u)
    ensures FirstIndex(s, id) == FirstIndex(u, id)
    decreases |s|
  {
    if s != [] {
      FirstIndexSameIds(s[1..], u[1..], id);
    }
  }

  /** Toggling flips `completa` of the first task with the id and of no other
      task, and changes no other field; with an unknown id nothing changes. */
  lemma ToggledFlipsFirstMatch(s: seq<TareaJson>, id: string)
    ensures |Toggled(s, id)| == |s|
    ensures forall j :: 0 <= j < |s| ==> Toggled(s, id)[j].(completa := s[j].completa) == s[j]
    ensures forall j :: 0 <= j < |s| ==>
      (Toggled(s, id)[j].completa != s[j].completa <==> s[j].id == id && forall i :: 0 <= i < j ==> s[i].id != id)
  {
  }

  /** Toggling twice restores the list. */
  lemma ToggledTwice(s: seq<TareaJson>, id: string)
    ensures Toggled(Toggled(s, id), id) == s
  {
    var t := Toggled(s, id);
    ToggledFlipsFirstMatch(s, id);
    FirstIndexSameIds(s, t, id);
  }

  /** Renaming gives the first task with the id the new name and changes
      nothing else: not its id, `completa`, `prioridad` or `createdAt`, and no
      other task. With an unknown id nothing changes. */
  lemma RenamedChangesOnlyName(s: seq<TareaJson>, id: string, nombre: string)
    ensures |Renamed(s, id, nombre)| == |s|
    ensures forall j :: 0 <= j < |s| ==> Renamed(s, id, nombre)[j].(nombre := s[j].nombre) == s[j]
    ensures forall j :: 0 <= j < |s| ==>
      Renamed(s, id, nombre)[j].nombre ==
        (if s[j].id == id && forall i :: 0 <= i < j ==> s[i].id != id then nombre else s[j].nombre)
  {
  }

  /** After removal no task has the id; the other tasks are all kept, in their
      original relative order. */
  lemma RemovedDropsId(s: seq<TareaJson>, id: string)
    ensures forall j :: 0 <= j < |Removed(s, id)| ==> Removed(s, id)[j].id != id
    ensures forall t :: t in Removed(s, id) <==> t in s && t.id != id
    ensures Subsequence(Removed(s, id), s)
  {
    var r := Removed(s, id);
    FilterMembers(s, OtherId(id));
    forall t ensures t in r <==> t in s && t.id != id {
      if t in r {
        var i :| 0 <= i < |r| && r[i] == t;
      }
      if t in s && t.id != id {
        var i :| 0 <= i < |s| && s[i] == t;
      }
    }
  }

  /** Removing the same id a second time changes nothing. */
  lemma RemovedTwice(s: seq<TareaJson>, id: string)
    ensures Removed(Removed(s, id), id) == Removed(s, id)
  {
    FilterIdempotent(s, OtherId(id));
  }

  /** Removing an id no task has changes nothing. */
  lemma RemovedUnknown(s: seq<TareaJson>, id: string)
    requires forall j :: 0 <= j < |s| ==> s[j].id != id
    ensures Removed(s, id) == s
  {
    FilterKeepsAll(s, OtherId(id));
  }

  lemma {:induction false} FilterKeepsUniqueIds(s: seq<TareaJson>, p: TareaJson -> bool)
    requires UniqueIds(s)
    ensures UniqueIds(Filter(s, p))
    decreases |s|
  {
    if s != [] {
      FilterKeepsUniqueIds(s[1..], p);
      FilterMembers(s[1..], p);
      var rest := Filter(s[1..], p);
      forall k | 0 <= k < |rest| ensures rest[k].id != s[0].id {
        var j :| 0 <= j < |s[1..]| && s[1..][j] == rest[k];
        assert s[j + 1] == rest[k];
      }
    }
  }

  /** Ids stay unique: adding a task with a fresh id, toggling, renaming and
      removing never make two tasks share an id. */
  lemma OperationsKeepIdsUnique(s: seq<TareaJson>, id: string, nombre: string, nueva: TareaJson)
    requires UniqueIds(s)
    ensures (forall j :: 0 <= j < |s| ==> s[j].id != nueva.id) ==> UniqueIds(s + [nueva])
    ensures UniqueIds(Toggled(s, id))
    ensures UniqueIds(Renamed(s, id, nombre))
    ensures UniqueIds(Removed(s, id))
  {
    ToggledFlipsFirstMatch(s, id);
    RenamedChangesOnlyName(s, id, nombre);
    FilterKeepsUniqueIds(s, OtherId(id));
  }

  /** A task added with a fresh id, then toggled, then renamed by that id,
      ends up completed with the new name and its original id, priority and
      creation time; the tasks before it are untouched. */
  lemma AddToggleEdit(s: seq<TareaJson>, id: string, nombre: string, prioridad: string, ahora: int, nuevo: string)
    requires forall j :: 0 <= j < |s| ==> s[j].id != id
    ensures Renamed(Toggled(s + [TareaJson(id, nombre, false, prioridad, ahora)], id), id, nuevo)
      == s + [TareaJson(id, nuevo, true, prioridad, ahora)]
  {
    var s1 := s + [TareaJson(id, nombre, false, prioridad, ahora)];
    assert s1[|s|].id == id;
    assert forall j :: 0 <= j < |s| ==> s1[j] == s[j];
    assert FirstIndex(s1, id) == Some(|s|);
    var s2 := Toggled(s1, id);
    ToggledFlipsFirstMatch(s1, id);
    FirstIndexSameIds(s1, s2, id);
  }

  // ---------------------------------------------------------------------------
  // The store

  /** Appending `todas[i]` to the tasks kept from `todas[..i]` keeps them
      distinct and traced to their positions. */
  lemma KeepOne(restantes: seq<Tarea>, origen: seq<nat>, todas: seq<Tarea>, i: nat)
    requires Distinct(todas) && i < |todas| && Distinct(restantes)
    requires |origen| == |restantes|
    requires forall k :: 0 <= k < |origen| ==> origen[k] < i && restantes[k] == todas[origen[k]]
    ensures Distinct(restantes + [todas[i]])
    ensures forall k :: 0 <= k < |origen| + 1 ==>
      (origen + [i])[k] < i + 1 && (restantes + [todas[i]])[k] == todas[(origen + [i])[k]]
  {
  }

  /** One step of the `filter`: `todas[i]` is kept exactly when its id differs. */
  lemma RemovedStep(restantes: seq<Tarea>, todas: seq<Tarea>, i: nat, id: string)
    requires i < |todas|
    requires Snapshots(restantes) == Removed(Snapshots(todas)[..i], id)
    ensures todas[i].id != id ==> Snapshots(restantes + [todas[i]]) == Removed(Snapshots(todas)[..i + 1], id)
    ensures todas[i].id == id ==> Snapshots(restantes) == Removed(Snapshots(todas)[..i + 1], id)
  {
    var antes := Snapshots(todas);
    assert antes[..i + 1] == antes[..i] + [todas[i].ToJson()];
    FilterAppend(antes[..i], todas[i].ToJson(), OtherId(id));
    SnapshotsAppend(restantes, todas[i]);
  }

  /** The `filter` inside `eliminarTarea`: the task objects whose id differs,
      in their order. */
  method SinId(todas: seq<Tarea>, id: string) returns (restantes: seq<Tarea>)
    requires Distinct(todas)
    ensures Distinct(restantes)
    ensures forall k :: 0 <= k < |restantes| ==> restantes[k] in todas
    ensures Snapshots(restantes) == Removed(Snapshots(todas), id)
  {
    ghost var antes := Snapshots(todas);
    restantes := [];
    ghost var origen: seq<nat> := [];  // where each kept task stands in `todas`
    for i := 0 to |todas|
      invariant Snapshots(restantes) == Removed(antes[..i], id)
      invariant |origen| == |restantes|
      invariant forall k :: 0 <= k < |origen| ==> origen[k] < i && restantes[k] == todas[origen[k]]
      invariant Distinct(restantes)
    {
      RemovedStep(restantes, todas, i, id);
      if todas[i].id != id {
        KeepOne(restantes, origen, todas, i);
        restantes := restantes + [todas[i]];
        origen := origen + [i];
      }
    }
    assert antes[..|todas|] == antes;
  }

  class GestorDeTareas {
    var tareas: seq<Tarea>
    var filtro: string
    var busqueda: string

    /** The list never holds the same task object twice: tasks are only ever
        appended fresh, filtered, or rebuilt from storage. */
    ghost predicate Valid()
      reads this
    {
      Distinct(tareas)
    }

    /** The list as `toJSON` snapshots: the abstract value of the store. */
    function Snapshot(): seq<TareaJson>
      reads this, tareas
    {
      Snapshots(tareas)
    }

    /** `obtenerTareasVisibles()` on the store's own list, filter and search. */
    function Visibles(): (r: seq<TareaJson>)
      reads this, tareas
      ensures forall t :: t in r <==> t in Snapshot() && Shown(t, filtro, busqueda)
    {
      VisibleExactly(Snapshot(), filtro, busqueda);
      ObtenerTareasVisibles(Snapshot(), filtro, busqueda)
    }

    /** The constructor: filter `todas`, empty search, then `cargar`. */
    constructor (slot: Slot, nuevoId: nat -> string, ahora: int)
      ensures Valid() && Snapshot() == Loaded(slot, nuevoId, ahora)
      ensures filtro == "todas" && busqueda == ""
    {
      tareas := [];
      filtro := "todas";
      busqueda := "";
      new;
      Cargar(slot, nuevoId, ahora);
    }

    /** `cargar`: rebuilds the list from the slot with `new Tarea(obj)`, or
        empties it when the slot is absent or malformed. */
    method Cargar(slot: Slot, nuevoId: nat -> string, ahora: int)
      modifies this
      ensures Valid() && Snapshot() == Loaded(slot, nuevoId, ahora)
      ensures forall k :: 0 <= k < |tareas| ==> fresh(tareas[k])
      ensures filtro == old(filtro) && busqueda == old(busqueda)
    {
      match slot {
        case Parsed(items) =>
          var nuevas: seq<Tarea> := [];
          for i := 0 to |items|
            invariant |nuevas| == i
            invariant forall k :: 0 <= k < i ==> fresh(nuevas[k])
            invariant forall k :: 0 <= k < i ==> nuevas[k].ToJson() == ConDefectos(items[k], nuevoId(k), ahora)
            invariant Distinct(nuevas)
            invariant filtro == old(filtro) && busqueda == old(busqueda)
          {
            var t := new Tarea(items[i], nuevoId(i), ahora);
            nuevas := nuevas + [t];
          }
          tareas := nuevas;
          assert Snapshot() == Loaded(slot, nuevoId, ahora) by {
            var r := Loaded(slot, nuevoId, ahora);
            assert |r| == |nuevas|;
            forall k | 0 <= k < |nuevas| ensures Snapshots(nuevas)[k] == r[k] {
              assert r[k] == ConDefectos(items[k], nuevoId(k), ahora);
            }
          }
        case Absent =>
          tareas := [];
        case Malformed =>
          tareas := [];
      }
    }

    /** `guardar`: the `toJSON` of every task, in order, as the slot will
        hold it. */
    method Guardar() returns (slot: Slot)
      ensures slot == Stored(Snapshot())
    {
      var registros: seq<TareaInit> := [];
      for i := 0 to |tareas|
        invariant |registros| == i
        invariant forall k :: 0 <= k < i ==> registros[k] == Encode(tareas[k].ToJson())
      {
        registros := registros + [Encode(tareas[i].ToJson())];
      }
      slot := Parsed(registros);
    }

    /** `agregarDesdeUI`: rejects a name that is empty once trimmed, otherwise
        appends a new open task with the trimmed name and the chosen priority. */
    method AgregarDesdeUI(entrada: string, prioridad: string, nuevoId: string, ahora: int)
      returns (efecto: Efecto)
      requires Valid()
      modifies this
      ensures Valid()
      ensures Trim(entrada) == [] ==> efecto == Error(ErrorAgregarVacia) && Snapshot() == old(Snapshot())
      ensures Trim(entrada) != [] ==>
        efecto == Guardado &&
        Snapshot() == old(Snapshot()) + [TareaJson(nuevoId, Trim(entrada), false, prioridad, ahora)]
      ensures filtro == old(filtro) && busqueda == old(busqueda)
    {
      var nombre := Trim(entrada);
      if nombre == [] {
        return Error(ErrorAgregarVacia);
      }
      ghost var antes := Snapshot();
      var t := new Tarea(TareaInit(None, nombre, None, Some(prioridad), None), nuevoId, ahora);
      assert Snapshots(tareas) == antes;
      tareas := tareas + [t];
      assert Snapshot() == antes + [t.ToJson()];
      efecto := Guardado;
    }

    /** The position of the first task with the id, as `find` gives it. */
    method Buscar(id: string) returns (k: Option<nat>)
      ensures k == FirstIndex(Snapshot(), id)
    {
      for i := 0 to |tareas|
        invariant forall j :: 0 <= j < i ==> tareas[j].id != id
      {
        if tareas[i].id == id {
          return Some(i);
        }
      }
      return None;
    }

    /** `eliminarTarea`: keeps the tasks whose id differs. */
    method EliminarTarea(id: string)
      requires Valid()
      modifies this
      ensures Valid() && Snapshot() == Removed(old(Snapshot()), id)
      ensures filtro == old(filtro) && busqueda == old(busqueda)
    {
      tareas := SinId(tareas, id);
    }

    /** `alternarEstado(id)`: toggles the first task with the id, if any. */
    method AlternarEstado(id: string)
      requires Valid()
      modifies tareas
      ensures Valid() && Snapshot() == Toggled(old(Snapshot()), id)
    {
      var k := Buscar(id);
      match k {
        case None =>
        case Some(i) =>
          tareas[i].AlternarEstado();
      }
    }

    /** `editarTareaPrompt(id)` with the answer to `prompt` as `respuesta`
        (`None` when cancelled): renames the first task with the id to the
        trimmed answer, unless the id is unknown, the prompt was cancelled or
        the trimmed answer is empty (which is reported). */
    method EditarTareaPrompt(id: string, respuesta: Option<string>) returns (efecto: Efecto)
      requires Valid()
      modifies tareas
      ensures Valid()
      ensures FirstIndex(old(Snapshot()), id).None? || respuesta.None? ==>
        efecto == SinCambios && Snapshot() == old(Snapshot())
      ensures FirstIndex(old(Snapshot()), id).Some? && respuesta.Some? && Trim(respuesta.value) == [] ==>
        efecto == Error(ErrorEditarVacia) && Snapshot() == old(Snapshot())
      ensures FirstIndex(old(Snapshot()), id).Some? && respuesta.Some? && Trim(respuesta.value) != [] ==>
        efecto == Guardado && Snapshot() == Renamed(old(Snapshot()), id, Trim(respuesta.value))
    {
      var k := Buscar(id);
      if k.None? {
        return SinCambios;
      }
      if respuesta.None? {
        return SinCambios;
      }
      var limpio := Trim(respuesta.value);
      if limpio == [] {
        return Error(ErrorEditarVacia);
      }
      tareas[k.value].Editar(limpio);
      efecto := Guardado;
    }

    /** The "limpiar" handler with the answer to `confirm` as `confirmado`:
        nothing happens on an empty list (no question is asked) or when the
        user declines; otherwise the list is emptied. */
    method Limpiar(confirmado: bool) returns (efecto: Efecto)
      requires Valid()
      modifies this
      ensures Valid()
      ensures |old(tareas)| == 0 || !confirmado ==> efecto == SinCambios && tareas == old(tareas)
      ensures |old(tareas)| > 0 && confirmado ==> efecto == Guardado && Snapshot() == []
      ensures filtro == old(filtro) && busqueda == old(busqueda)
    {
      if |tareas| == 0 {
        return SinCambios;
      }
      if !confirmado {
        return SinCambios;
      }
      tareas := [];
      efecto := Guardado;
    }

    /** The search box handler: the search text is kept trimmed and lower-cased. */
    method SetBusqueda(texto: string)
      requires Valid()
      modifies this
      ensures Valid()
      ensures busqueda == Lower(Trim(texto))
      ensures tareas == old(tareas) && filtro == old(filtro)
    {
      busqueda := Lower(Trim(texto));
    }

    /** The filter chip handler. */
    method SetFiltro(valor: string)
      requires Valid()
      modifies this
      ensures Valid()
      ensures filtro == valor
      ensures tareas == old(tareas) && busqueda == old(busqueda)
    {
      filtro := valor;
    }
  }

  /** A page reload: `guardar` on one store, then a new store that loads the
      slot, holds the same tasks field for field and in the same order. */
  method Recargar(g: GestorDeTareas, nuevoId: nat -> string, ahora: int) returns (h: GestorDeTareas)
    ensures fresh(h) && h.Valid()
    ensures h.Snapshot() == g.Snapshot()
  {
    var slot := g.Guardar();
    h := new GestorDeTareas(slot, nuevoId, ahora);
    LoadStored(g.Snapshot(), nuevoId, ahora);
  }
}
