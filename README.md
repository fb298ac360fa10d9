# Gestor de tareas — a verified model of the task-list core

This project models the task-list core of `app.js`:

- **`Tarea`**, one to-do item. It has an id, a name, a completion flag, a priority and a creation time. The model covers its constructor defaults, its three in-place mutators and its `toJSON` snapshot.
- **`GestorDeTareas`**, the store. It owns the ordered list of `Tarea` objects, the current filter (`todas` / `pendientes` / `completadas`) and the lower-cased search text. The model covers:
  - adding from the input box;
  - removing, toggling and editing a task by id;
  - clearing the list after confirmation;
  - the search and filter handlers;
  - the visible-task projection;
  - the summary figures (completed/total and the rounded percentage);
  - saving the list to the storage slot and loading it back.
- **`escapeHTML`**, the per-character escaping that every name passes through before it reaches the page.

The modules are:

- `Tareas` (`tareas.dfy`): the `Tarea` class and its plain record `TareaJson`.
- `Gestor` (`gestor.dfy`): the `GestorDeTareas` class.
  - Each of its state-changing methods is proved against a pure function on the list of `toJSON` snapshots: `Toggled`, `Renamed`, `Removed`, `Loaded`, `Stored`, or an append.
  - The properties of those functions are lemmas: toggling is an involution; removal is idempotent, keeps order and drops exactly the id; toggling, renaming and removing never create a duplicate id, nor does adding a task with a fresh id; add → toggle → edit gives the expected record.
- `Vista` (`vista.dfy`): `obtenerTareasVisibles` and `actualizarResumen`.
- `Persistencia` (`persistencia.dfy`): the storage slot and the save/load round trip.
- `Html` (`html.dfy`): `escapeHTML` and its inverse.
- `Texto` (`texto.dfy`) and `Secuencias` (`secuencias.dfy`): JavaScript's `trim`, `toLowerCase` and `includes`, and `Array.prototype.filter`.

Nondeterministic inputs are parameters:

- `crearId()` becomes `nuevoId`.
- `Date.now()` becomes `ahora`.
- The answers to `confirm` and `prompt` become `confirmado` and `respuesta`.
- The values of the input box, the priority select, the search box and the filter chip become the arguments of the operations that read them.

## Model

| member | source | states |
|---|---|---|
| `Html.EscapeChar` | app.js:8 | the replacement map: each of `&`, `<`, `>`, `"`, `'` becomes a longer entity starting with `&`, and every other character stays as it is |
| `Html.EscapeHtml` | app.js:7-10 | after escaping, no `<`, `>`, `"` or `'` is left, and the output is never shorter than the input |
| `Html.UnescapeEscape` | app.js:7-10 | decoding the five entities gives back exactly the escaped text, so escaping loses nothing |
| `Html.AmpersandsStartEntities` | app.js:7-10 | every `&` in escaped text begins one of the five entities of the replacement map |
| `Html.EscapePlain` | app.js:7-10 | text without any of the five special characters is left unchanged |
| `Tareas.ConDefectos` | app.js:19-26 | the constructor's defaults, field by field: the given id or a fresh one, `completa` false unless given as true, priority `"media"` unless given, and the given creation time or now |
| `Tareas.Tarea.constructor` | app.js:19-26 | a new task's snapshot is the record with those defaults applied |
| `Tareas.Tarea.AlternarEstado` | app.js:29-31 | flips `completa` and changes no other field |
| `Tareas.Tarea.Editar` | app.js:34-36 | replaces the name and changes no other field |
| `Tareas.Tarea.SetPrioridad` | app.js:39-41 | replaces the priority and changes no other field |
| `Tareas.Tarea.ToJson` | app.js:44-52 | `toJSON` copies all five fields (id, name, state, priority, creation time) into a plain record |
| `Tareas.Snapshots` | app.js:174 | `toJSON` of a list holds every field of every task, position by position |
| `Persistencia.Stored` | app.js:173-174 | the saved payload is a list with one record per task |
| `Persistencia.Loaded` | app.js:186-195 | an absent or unreadable slot loads as the empty list; a parsed one loads one task per record |
| `Persistencia.LoadStored` | app.js:173-195 | loading what was saved gives back the same tasks, field for field and in order, whatever ids and clock the reload uses |
| `Gestor.GestorDeTareas.Guardar` | app.js:173-174 | the slot holds `toJSON` of every task, in order |
| `Gestor.GestorDeTareas.Cargar` | app.js:186-195 | the list becomes the tasks rebuilt from the slot, all fresh and distinct objects; the filter and search are untouched |
| `Gestor.GestorDeTareas.constructor` | app.js:59-93 | a new store has filter `todas`, empty search, and the list loaded from the slot |
| `Gestor.Recargar` | app.js:173-195 | a reload (save, then construct a new store on the slot) reproduces the same list |
| `Texto.TrimStart` | app.js:205 | trimming the front removes exactly the leading whitespace: the result is a suffix, all that was dropped is whitespace, and the result does not start with whitespace |
| `Texto.TrimEnd` | app.js:205 | the symmetric statement for trailing whitespace |
| `Texto.Trim` | app.js:107 | `trim()` gives the stretch of the text left after dropping the leading and trailing whitespace; it sits in the text where the leading whitespace ends, everything after it is whitespace, and unless empty it neither starts nor ends with whitespace |
| `Texto.TrimEmptyIff` | app.js:205-212 | a name trims to empty exactly when it consists only of whitespace, so it is rejected exactly then |
| `Texto.TrimIdempotent` | app.js:205 | trimming twice is trimming once |
| `Gestor.GestorDeTareas.AgregarDesdeUI` | app.js:204-215 | an input that is blank once trimmed is rejected with the error message and the list is unchanged; otherwise exactly one open task with the trimmed name, the chosen priority, the new id and the current time is appended |
| `Gestor.OperationsKeepIdsUnique` | app.js:215-254 | appending a task with a fresh id, toggling, renaming and removing never make two tasks share an id |
| `Gestor.FirstIndex` | app.js:233 | `find` by id gives the first position holding that id, or nothing when no task has it |
| `Gestor.Toggled` | app.js:233-236 | toggling by id keeps every task's id in place, and with an unknown id leaves the list unchanged |
| `Gestor.Renamed` | app.js:242-254 | renaming by id keeps every task's id in place, and with an unknown id leaves the list unchanged |
| `Gestor.Removed` | app.js:227 | removal by id gives a subsequence of the list in which no task has that id |
| `Gestor.GestorDeTareas.Buscar` | app.js:233 | the loop finds exactly the position `FirstIndex` describes |
| `Gestor.SinId` | app.js:227 | the `filter` keeps, in order, the task objects whose id differs: every kept object is one of the input's, their snapshots are `Removed` of the input's, and no object occurs twice |
| `Gestor.GestorDeTareas.EliminarTarea` | app.js:226-227 | the list becomes `Removed` of the old list; the filter and search are untouched |
| `Gestor.RemovedDropsId` | app.js:227 | after removal no task has the id, every task with another id is kept, and the order is kept |
| `Gestor.RemovedTwice` | app.js:227 | removing the same id again changes nothing |
| `Gestor.RemovedUnknown` | app.js:227 | removing an id no task has changes nothing |
| `Gestor.GestorDeTareas.AlternarEstado` | app.js:232-236 | toggles the first task with the id; with an unknown id nothing changes |
| `Gestor.ToggledFlipsFirstMatch` | app.js:232-236 | toggling flips `completa` of exactly the first task with the id and changes no other field and no other task |
| `Gestor.ToggledTwice` | app.js:232-236 | toggling the same id twice restores the list |
| `Gestor.GestorDeTareas.EditarTareaPrompt` | app.js:241-254 | an unknown id or a cancelled prompt changes nothing; a blank answer is reported and changes nothing; otherwise the first task with the id gets the trimmed answer as its name |
| `Gestor.RenamedChangesOnlyName` | app.js:241-254 | renaming sets the name of the first task with the id and keeps its id, state, priority and creation time, and every other task |
| `Gestor.AddToggleEdit` | app.js:204-254 | a task added with a fresh id, then toggled and renamed by that id, is completed, carries the new name and its original id, priority and creation time, and the tasks before it are untouched |
| `Gestor.GestorDeTareas.Limpiar` | app.js:121-127 | on an empty list, or when the user declines, nothing happens; otherwise the list is emptied |
| `Gestor.GestorDeTareas.SetBusqueda` | app.js:106-107 | the search text is stored trimmed and lower-cased; the list and filter are untouched |
| `Gestor.GestorDeTareas.SetFiltro` | app.js:113-114 | the filter is set to the chip's value; the list and search are untouched |
| `Texto.Lower` | app.js:268 | lower-casing keeps the length and maps each character on its own, leaving no upper-case ASCII letter |
| `Texto.Includes` | app.js:268 | `includes` holds exactly when the needle occurs at some position of the text |
| `Secuencias.Filter` | app.js:227 | `filter` gives a subsequence of its input, in order and no longer than it |
| `Secuencias.FilterMembers` | app.js:268-273 | an element is kept exactly when it satisfies the predicate |
| `Vista.ObtenerTareasVisibles` | app.js:263-276 | the visible list is no longer than the list, and every visible task passes the state filter: open under `pendientes`, done under `completadas` |
| `Gestor.GestorDeTareas.Visibles` | app.js:263-276 | the store's own view shows exactly the tasks of its list that match its search text and its filter |
| `Vista.VisibleIsOneFilter` | app.js:263-276 | the chain of search, `pendientes` and `completadas` filters is one filter by the conjunction of search and state |
| `Vista.VisibleExactly` | app.js:263-276 | the visible tasks keep the list's order, and a task is visible exactly when the search is empty or its lower-cased name contains the search text, and it passes the state filter |
| `Vista.VisibleAll` | app.js:263-276 | with filter `todas` and no search, every task is visible |
| `Vista.VisibleExample` | app.js:263-276 | of an open "buy milk" and a done "buy bread", `pendientes` with "buy" shows only the first, and `completadas` with "milk" shows nothing |
| `Vista.Porcentaje` | app.js:285 | the percentage is 0 for an empty list; otherwise it is the integer nearest to 100·completadas/total, with halves rounded up, and at most 100 |
| `Vista.ActualizarResumen` | app.js:279-285 | total is the list length; completed is the number of tasks the `completadas` filter shows, at most the total, and with the pending count adds up to the total; the percentage is `Porcentaje` of completed and total, so at most 100 and 0 for an empty list |
| `Vista.ResumenExamples` | app.js:279-285 | an empty list gives 0/0 and 0 %, one of two gives 50 %, one of three gives 33 % |

## Left out

- Rendering is not modelled: the DOM references, `render`, `actualizarChips`, the event wiring and the list's event delegation. The timer of `mostrarError` is not modelled either; the message an operation would show is returned in its `Efecto`.
- `crearId` is a parameter. Neither `crypto.randomUUID` nor its `Date.now`/`Math.random` fallback is modelled, so new ids are not known to be unique. The source does not ensure this either, which is why toggle and edit act on the first match and removal drops every match.
- `Date.now()` is a parameter. `Loaded` gives every rebuilt task lacking a creation time the same `ahora`.
- `localStorage`, `JSON.stringify`/`JSON.parse` and the Promises around them are not modelled. The slot is an already-parsed value: `Absent`, `Malformed` (any parse or constructor failure) or a list of records.
- The storage key `karlay_tareas_v1` is not modelled: the model has the one slot the store reads and writes.
- A failing `setItem` in `guardar` is not modelled; the save always succeeds.
- Persistencia.Loaded: stored records hold JSON-typed fields (`completa` a boolean, `createdAt` a number). A stored element that is a bare number or string, or a record without `nombre`, is not modelled.
- Vista.Porcentaje: rounds the exact rational 100·completadas/total, not the floating-point product that `Math.round` receives. The two differ where that product lands just below a half in double precision: for 23 of 40 the exact value 57.5 rounds to 58, while the double product is slightly below 57.5 and `Math.round` gives 57.
- Texto.Lower: lower-cases ASCII letters only, not the full Unicode case mapping of `toLowerCase`.
- Strings are sequences of characters, not UTF-16 code units, so `includes` and `trim` are modelled on characters.
- Vista.ObtenerTareasVisibles: returns the visible tasks' snapshots rather than references to the task objects themselves.
- `Tarea.setPrioridad` is modelled, but nothing in `app.js` calls it, so no store operation uses it.
