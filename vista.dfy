/** The read-only side of the store: the visible tasks under the current search
    and filter (`obtenerTareasVisibles`), and the summary counts and percentage
    (`actualizarResumen`). */
module Vista {
  import opened Tareas
  import opened Texto
  import opened Secuencias

  /** The task's lower-cased name contains the search text. */
  function NameHas(busqueda: string): TareaJson -> bool
  {
    (t: TareaJson) => Includes(Lower(t.nombre), busqueda)
  }

  /** `obtenerTareasVisibles`: the search filter when the search text is not
      empty, then the `pendientes` filter, then the `completadas` filter. */
  function ObtenerTareasVisibles(tareas: seq<TareaJson>, filtro: string, busqueda: string): (r: seq<TareaJson>)
    ensures |r| <= |tareas|
    ensures forall i :: 0 <= i < |r| ==> PassesFilter(r[i], filtro)
  {
    var porBusqueda := if busqueda != [] then Filter(tareas, NameHas(busqueda)) else tareas;
    var porPendientes := if filtro == "pendientes" then Filter(porBusqueda, IsPending) else porBusqueda;
    FilterMembers(porBusqueda, IsPending);
    FilterMembers(porPendientes, IsDone);
    if filtro == "completadas" then Filter(porPendientes, IsDone) else porPendientes
  }

  /** The completion filter: `pendientes` keeps open tasks, `completadas` keeps
      finished ones, and any other value (`todas` among them) keeps all. */
  predicate PassesFilter(t: TareaJson, filtro: string)
  {
    (filtro == "pendientes" ==> !t.completa) && (filtro == "completadas" ==> t.completa)
  }

  /** A task is visible when the search is empty or its lower-cased name
      contains it, and it passes the completion filter. */
  predicate Shown(t: TareaJson, filtro: string, busqueda: string)
  {
    (busqueda == [] || Includes(Lower(t.nombre), busqueda)) && PassesFilter(t, filtro)
  }

  function ShownBy(filtro: string, busqueda: string): TareaJson -> bool
  {
    (t: TareaJson) => Shown(t, filtro, busqueda)
  }

  /** The chain of filters is one filter by the conjunction of search and state. */
  lemma VisibleIsOneFilter(tareas: seq<TareaJson>, filtro: string, busqueda: string)
    ensures ObtenerTareasVisibles(tareas, filtro, busqueda) == Filter(tareas, ShownBy(filtro, busqueda))
  {
    var shown := ShownBy(filtro, busqueda);
    if filtro == "pendientes" {
      if busqueda != [] {
        FilterTwice(tareas, NameHas(busqueda), IsPending, shown);
      } else {
        FilterAgrees(tareas, IsPending, shown);
      }
    } else if filtro == "completadas" {
      if busqueda != [] {
        FilterTwice(tareas, NameHas(busqueda), IsDone, shown);
      } else {
        FilterAgrees(tareas, IsDone, shown);
      }
    } else {
      if busqueda != [] {
        FilterAgrees(tareas, NameHas(busqueda), shown);
      } else {
        FilterKeepsAll(tareas, shown);
      }
    }
  }

  /** The visible tasks are a subsequence of the list in the same order, and a
      task of the list is visible exactly when it matches search and filter. */
  lemma VisibleExactly(tareas: seq<TareaJson>, filtro: string, busqueda: string)
    ensures Subsequence(ObtenerTareasVisibles(tareas, filtro, busqueda), tareas)
    ensures forall t :: t in ObtenerTareasVisibles(tareas, filtro, busqueda) <==> t in tareas && Shown(t, filtro, busqueda)
  {
    VisibleIsOneFilter(tareas, filtro, busqueda);
    FilterMembers(tareas, ShownBy(filtro, busqueda));
    var v := ObtenerTareasVisibles(tareas, filtro, busqueda);
    forall t ensures t in v <==> t in tareas && Shown(t, filtro, busqueda) {
      if t in v {
        var i :| 0 <= i < |v| && v[i] == t;
      }
      if t in tareas && Shown(t, filtro, busqueda) {
        var i :| 0 <= i < |tareas| && tareas[i] == t;
      }
    }
  }

  /** With the filter `todas` and no search, every task is visible. */
  lemma VisibleAll(tareas: seq<TareaJson>)
    ensures ObtenerTareasVisibles(tareas, "todas", "") == tareas
  {
    VisibleIsOneFilter(tareas, "todas", "");
    FilterKeepsAll(tareas, ShownBy("todas", ""));
  }

  /** The string facts the example below rests on. */
  lemma ExampleNames()
    ensures Lower("buy milk") == "buy milk" && Lower("buy bread") == "buy bread"
  {
    var milk, bread := "buy milk", "buy bread";
    assert forall k :: 0 <= k < |milk| ==> milk[k] == ' ' || 'a' <= milk[k] <= 'z';
    assert forall k :: 0 <= k < |bread| ==> bread[k] == ' ' || 'a' <= bread[k] <= 'z';
    NoUpperLower(milk);
    NoUpperLower(bread);
  }

  lemma ExampleSearches()
    ensures Includes("buy milk", "buy") && !Includes("buy bread", "milk")
  {
    assert OccursAt("buy milk", "buy", 0);
    FirstCharMissing("buy bread", "milk");
  }

  /** Text without upper-case ASCII letters is its own lower case. */
  lemma NoUpperLower(s: string)
    requires forall k :: 0 <= k < |s| ==> s[k] == ' ' || 'a' <= s[k] <= 'z'
    ensures Lower(s) == s
  {
  }

  /** Search and filter compose by intersection: of "buy milk" (open) and
      "buy bread" (done), `pendientes` with "buy" shows only the first, and
      `completadas` with "milk" shows nothing. */
  lemma VisibleExample(milk: TareaJson, bread: TareaJson)
    requires milk.nombre == "buy milk" && !milk.completa
    requires bread.nombre == "buy bread" && bread.completa
    ensures ObtenerTareasVisibles([milk, bread], "pendientes", "buy") == [milk]
    ensures ObtenerTareasVisibles([milk, bread], "completadas", "milk") == []
  {
    var ts := [milk, bread];
    assert ts[1..] == [bread] && [bread][1..] == [];
    ExampleNames();
    ExampleSearches();
    assert Shown(milk, "pendientes", "buy") && !Shown(bread, "pendientes", "buy");
    assert !Shown(milk, "completadas", "milk") && !Shown(bread, "completadas", "milk");
    VisibleIsOneFilter(ts, "pendientes", "buy");
    VisibleIsOneFilter(ts, "completadas", "milk");
  }

  /** The figures `actualizarResumen` shows: "completadas/total" and the bar's
      percentage. */
  datatype Resumen = Resumen(completadas: nat, total: nat, porcentaje: nat)

  /** `Math.round(completadas / total * 100)`, or 0 for an empty list: the
      integer nearest to 100 * completadas / total, halves rounded up. */
  function Porcentaje(completadas: nat, total: nat): (p: nat)
    ensures total == 0 ==> p == 0
    ensures total > 0 ==> 200 * completadas - total < 2 * total * p <= 200 * completadas + total
    ensures completadas <= total ==> p <= 100
  {
    if total == 0 then 0
    else
      var n, d := 200 * completadas + total, 2 * total;
      DivBounds(n, d);
      RoundedAtMostHundred(completadas, total);
      n / d
  }

  /** Euclidean division by a positive divisor brackets the dividend. */
  lemma DivBounds(n: nat, d: nat)
    requires d > 0
    ensures d * (n / d) <= n < d * (n / d) + d
  {
    assert n == d * (n / d) + n % d;
  }

  /** A positive factor can be cancelled from a strict inequality. */
  lemma MulCancel(d: nat, a: nat, b: nat)
    requires d > 0 && d * a < d * b
    ensures a < b
  {
  }

  /** With no more completed tasks than tasks, the rounded share is at most 100. */
  lemma RoundedAtMostHundred(completadas: nat, total: nat)
    requires total > 0
    ensures completadas <= total ==> (200 * completadas + total) / (2 * total) <= 100
  {
    var n, d := 200 * completadas + total, 2 * total;
    if completadas <= total {
      DivBounds(n, d);
      MulCancel(d, n / d, 101);
    }
  }

  /** `actualizarResumen`: counts the completed tasks and the total, and turns
      them into a percentage. */
  function ActualizarResumen(tareas: seq<TareaJson>): (r: Resumen)
    ensures r.total == |tareas|
    ensures r.completadas <= r.total
    ensures r.completadas == |ObtenerTareasVisibles(tareas, "completadas", "")|
    ensures r.porcentaje == Porcentaje(r.completadas, r.total)
    ensures r.porcentaje <= 100
    ensures r.total == 0 ==> r.porcentaje == 0
    ensures r.completadas + |ObtenerTareasVisibles(tareas, "pendientes", "")| == r.total
  {
    var completadas := |Filter(tareas, IsDone)|;
    FilterSplits(tareas, IsDone, IsPending);
    Resumen(completadas, |tareas|, Porcentaje(completadas, |tareas|))
  }

  /** 0 tasks give 0/0 and 0 %, 1 of 2 gives 50 %, 1 of 3 gives 33 %. */
  lemma ResumenExamples(a: TareaJson, b: TareaJson, c: TareaJson)
    requires a.completa && !b.completa && !c.completa
    ensures ActualizarResumen([]) == Resumen(0, 0, 0)
    ensures ActualizarResumen([a, b]) == Resumen(1, 2, 50)
    ensures ActualizarResumen([a, b, c]) == Resumen(1, 3, 33)
  {
    assert Filter([a, b], IsDone) == [a] by {
      assert [a, b][1..] == [b];
    }
    assert Filter([a, b, c], IsDone) == [a] by {
      assert [a, b, c][1..] == [b, c];
      assert [b, c][1..] == [c];
      assert [c][1..] == [];
      assert Filter([c], IsDone) == [];
      assert Filter([b, c], IsDone) == [];
    }
  }
}
