/**
 * `calcular_resumen`: the three running totals shown on the movements page, computed from
 * the whole `movimientos` table the way the two SQL aggregate queries compute them.
 */
module Resumen {
  import opened Wrappers
  import opened Tablas

  /** `(total_ahorros, total_gastos, saldo)`. */
  datatype Totales = Totales(totalAhorros: real, totalGastos: real, saldo: real)

  /** No movement of `movs` is of kind `tipo`. */
  predicate NingunoDe(movs: seq<Movimiento>, tipo: Tipo) {
    forall m :: m in movs ==> m.tipo != tipo
  }

  /** `WHERE tipo = :tipo`: the rows of kind `tipo`, in table order. */
  function Filtrar(movs: seq<Movimiento>, tipo: Tipo): seq<Movimiento>
  {
    if movs == [] then []
    else (if movs[0].tipo == tipo then [movs[0]] else []) + Filtrar(movs[1..], tipo)
  }

  /** The sum of `monto` over `movs`. */
  function Suma(movs: seq<Movimiento>): real {
    if movs == [] then 0.0 else movs[0].monto + Suma(movs[1..])
  }

  /** The filter keeps exactly the movements of its kind. */
  lemma {:induction false} FiltrarMiembros(movs: seq<Movimiento>, tipo: Tipo)
    ensures forall m :: m in Filtrar(movs, tipo) <==> m in movs && m.tipo == tipo
  {
    if movs != [] {
      FiltrarMiembros(movs[1..], tipo);
      assert forall m :: m in movs <==> m == movs[0] || m in movs[1..];
    }
  }

  /** Every movement is counted by exactly one of the two queries. */
  lemma {:induction false} FiltrarParticion(movs: seq<Movimiento>)
    ensures |Filtrar(movs, Ahorro)| + |Filtrar(movs, Gasto)| == |movs|
  {
    if movs != [] {
      FiltrarParticion(movs[1..]);
    }
  }

  /**
   * `SELECT SUM(monto) FROM movimientos WHERE tipo = :tipo`: SQL's `SUM` over no rows
   * is `NULL`, here `None`.
   */
  function SumaSql(movs: seq<Movimiento>, tipo: Tipo): (r: Option<real>)
    ensures r.None? <==> NingunoDe(movs, tipo)
  {
    var filas := Filtrar(movs, tipo);
    FiltrarMiembros(movs, tipo);
    if filas == [] then None else Some(Suma(filas))
  }

  /** One total of `calcular_resumen()`: the query's sum, or 0.0 when it found no row (`... or 0.0`). */
  function Total(movs: seq<Movimiento>, tipo: Tipo): (r: real)
    ensures NingunoDe(movs, tipo) ==> r == 0.0
  {
    SumaSql(movs, tipo).GetOr(0.0)
  }

  /** `calcular_resumen()`: the savings total, the expenses total, and their difference. */
  function CalcularResumen(movs: seq<Movimiento>): (r: Totales)
    ensures r.saldo == r.totalAhorros - r.totalGastos
    ensures NingunoDe(movs, Ahorro) ==> r.totalAhorros == 0.0
    ensures NingunoDe(movs, Gasto) ==> r.totalGastos == 0.0
  {
    var ahorros := Total(movs, Ahorro);
    var gastos := Total(movs, Gasto);
    Totales(ahorros, gastos, ahorros - gastos)
  }

  /** The totals after one more movement: its amount goes to the total of its kind only. */
  function Registrar(t: Totales, m: Movimiento): Totales {
    match m.tipo
    case Ahorro => Totales(t.totalAhorros + m.monto, t.totalGastos, t.saldo + m.monto)
    case Gasto => Totales(t.totalAhorros, t.totalGastos + m.monto, t.saldo - m.monto)
  }

  lemma {:induction false} FiltrarAgregar(movs: seq<Movimiento>, m: Movimiento, tipo: Tipo)
    ensures Filtrar(movs + [m], tipo) == Filtrar(movs, tipo) + (if m.tipo == tipo then [m] else [])
  {
    var cola := if m.tipo == tipo then [m] else [];
    if movs == [] {
      assert movs + [m] == [m];
      assert Filtrar([m], tipo) == cola + Filtrar([], tipo);
    } else {
      var s, cabeza := movs + [m], if movs[0].tipo == tipo then [movs[0]] else [];
      assert s[0] == movs[0] && s[1..] == movs[1..] + [m];
      FiltrarAgregar(movs[1..], m, tipo);
      calc {
        Filtrar(s, tipo);
        cabeza + Filtrar(movs[1..] + [m], tipo);
        cabeza + (Filtrar(movs[1..], tipo) + cola);
        (cabeza + Filtrar(movs[1..], tipo)) + cola;
        Filtrar(movs, tipo) + cola;
      }
    }
  }

  lemma {:induction false} SumaConcat(a: seq<Movimiento>, b: seq<Movimiento>)
    ensures Suma(a + b) == Suma(a) + Suma(b)
  {
    if a != [] {
      assert (a + b)[1..] == a[1..] + b;
      SumaConcat(a[1..], b);
    } else {
      assert a + b == b;
    }
  }

  /** One more movement adds its amount to the total of its own kind and to no other. */
  lemma TotalAgregar(movs: seq<Movimiento>, m: Movimiento, tipo: Tipo)
    ensures Total(movs + [m], tipo) == Total(movs, tipo) + (if m.tipo == tipo then m.monto else 0.0)
  {
    FiltrarAgregar(movs, m, tipo);
    SumaConcat(Filtrar(movs, tipo), if m.tipo == tipo then [m] else []);
  }

  /** Recording a movement adds its amount to the total of its kind and leaves the other total as it was. */
  lemma ResumenAgregar(movs: seq<Movimiento>, m: Movimiento)
    ensures CalcularResumen(movs + [m]) == Registrar(CalcularResumen(movs), m)
  {
    TotalAgregar(movs, m, Ahorro);
    TotalAgregar(movs, m, Gasto);
  }

  /** Nulling foreign keys changes neither which rows a filter keeps nor what they sum to. */
  lemma {:induction false} FiltrarDesvincular(movs: seq<Movimiento>, id: int, tipo: Tipo)
    ensures |Filtrar(Desvincular(movs, id), tipo)| == |Filtrar(movs, tipo)|
    ensures Suma(Filtrar(Desvincular(movs, id), tipo)) == Suma(Filtrar(movs, tipo))
  {
    if movs != [] {
      var d := Desvincular(movs, id);
      assert d[1..] == Desvincular(movs[1..], id);
      FiltrarDesvincular(movs[1..], id, tipo);
      var resto := Filtrar(d[1..], tipo);
      if d[0].tipo == tipo {
        var a, b := [d[0]] + resto, [movs[0]] + Filtrar(movs[1..], tipo);
        assert Filtrar(d, tipo) == a && Filtrar(movs, tipo) == b;
        assert a[1..] == resto && b[1..] == Filtrar(movs[1..], tipo);
        assert d[0].monto == movs[0].monto;
        assert Suma(a) == d[0].monto + Suma(resto);
        assert Suma(b) == movs[0].monto + Suma(Filtrar(movs[1..], tipo));
      } else {
        assert Filtrar(d, tipo) == [] + resto == resto;
        assert Filtrar(movs, tipo) == [] + Filtrar(movs[1..], tipo) == Filtrar(movs[1..], tipo);
      }
    }
  }

  /** Deleting a category leaves the summary as it was: only foreign keys change. */
  lemma ResumenDesvincular(movs: seq<Movimiento>, id: int)
    ensures CalcularResumen(Desvincular(movs, id)) == CalcularResumen(movs)
  {
    FiltrarDesvincular(movs, id, Ahorro);
    FiltrarDesvincular(movs, id, Gasto);
  }

  lemma {:induction false} SumaPositiva(movs: seq<Movimiento>)
    requires forall m :: m in movs ==> m.monto > 0.0
    ensures Suma(movs) >= 0.0
    ensures Suma(movs) == 0.0 <==> movs == []
  {
    if movs != [] {
      SumaPositiva(movs[1..]);
    }
  }

  /**
   * With every amount positive, as the handlers guarantee, each total is non-negative and is
   * 0.0 exactly when there is no movement of its kind.
   */
  lemma TotalesPositivos(movs: seq<Movimiento>)
    requires forall m :: m in movs ==> m.monto > 0.0
    ensures CalcularResumen(movs).totalAhorros >= 0.0
    ensures CalcularResumen(movs).totalGastos >= 0.0
    ensures CalcularResumen(movs).totalAhorros == 0.0 <==> NingunoDe(movs, Ahorro)
    ensures CalcularResumen(movs).totalGastos == 0.0 <==> NingunoDe(movs, Gasto)
  {
    FiltrarMiembros(movs, Ahorro);
    FiltrarMiembros(movs, Gasto);
    SumaPositiva(Filtrar(movs, Ahorro));
    SumaPositiva(Filtrar(movs, Gasto));
    assert Total(movs, Ahorro) == Suma(Filtrar(movs, Ahorro));
    assert Total(movs, Gasto) == Suma(Filtrar(movs, Gasto));
  }
}
