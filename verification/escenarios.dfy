/**
 * Client code: short request sequences against a fresh store, showing what the handlers'
 * contracts let a caller conclude without looking at their bodies.
 */
module Escenarios {
  import opened Wrappers
  import opened Texto
  import opened Tablas
  import opened Resumen
  import opened Finanzas

  /** Creating "Food" in an empty store adds it under id 1. */
  method CrearFood() returns (f: Finanzas)
    ensures fresh(f) && f.Valid()
    ensures f.categorias == [Categoria(1, "Food")] && f.movimientos == []
  {
    f := new Finanzas();
    StripStripped("Food");
    var v := f.ManejarCategorias(Some("Food"), None);
    assert v == Redirigir(CATEGORIAS);
  }

  /** With "Food" as category 1, an expense of 50 in it gives: spent 50, saved 0, balance -50. */
  method GastoConCategoria() {
    var f := CrearFood();
    assert ShowInt(1) == "1";
    ParseLiteralShowInt(1);
    StripStripped("1");
    var w := f.Index(Some(FormMovimiento(Some("gasto"), Some(50.0), "", Some("1"))), 0);
    assert w == Redirigir(INDEX);
    var m := f.movimientos[0];
    assert f.movimientos == [] + [m];
    assert m.tipo == Gasto && m.monto == 50.0 && m.categoriaId == Some(1);
    ResumenAgregar([], m);
    assert CalcularResumen(f.movimientos) == Totales(0.0, 50.0, -50.0);
  }

  /** A saving of 100, submitted with a category id, is stored without one: saved 100, balance 100. */
  method AhorroSinCategoria() {
    var f := CrearFood();
    var w := f.Index(Some(FormMovimiento(Some("ahorro"), Some(100.0), "", Some("1"))), 0);
    assert w == Redirigir(INDEX);
    var m := f.movimientos[0];
    assert f.movimientos == [] + [m];
    assert m.tipo == Ahorro && m.monto == 100.0 && m.categoriaId == None;
    ResumenAgregar([], m);
    assert CalcularResumen(f.movimientos) == Totales(100.0, 0.0, 100.0);
  }

  /** An unknown kind is stored as an expense. */
  method TipoDesconocido() {
    var f := new Finanzas();
    var w := f.Index(Some(FormMovimiento(Some("prestamo"), Some(7.5), "  nota  ", None)), 3);
    assert w == Redirigir(INDEX);
    assert f.movimientos[0].tipo == Gasto;
  }

  /** An amount of -5 re-renders the page with the error; nothing is stored and the totals stay 0. */
  method MontoNegativo() {
    var f := new Finanzas();
    var w := f.Index(Some(FormMovimiento(Some("gasto"), Some(-5.0), "", None)), 0);
    assert w == PaginaFinanzas(Some(MONTO_INVALIDO), Totales(0.0, 0.0, 0.0));
    assert f.movimientos == [];
  }

  /** After "food", creating "Food" is rejected as a duplicate and only one category exists. */
  method NombreDuplicado() {
    var f := new Finanzas();
    StripStripped("food");
    StripStripped("Food");
    var v := f.ManejarCategorias(Some("food"), None);
    assert f.categorias == [Categoria(1, "food")];
    assert Lower("Food") == Lower("food");
    var w := f.ManejarCategorias(Some("Food"), None);
    assert w == PaginaCategorias(Some(YA_EXISTE));
    assert |f.categorias| == 1;
  }

  /**
   * Deleting a category through `?eliminar=1` removes it; the expense that named it stays, now
   * without a category, and the totals do not change.
   */
  method BorrarCategoria() {
    var f := CrearFood();
    assert ShowInt(1) == "1";
    ParseLiteralShowInt(1);
    StripStripped("1");
    var w := f.Index(Some(FormMovimiento(Some("gasto"), Some(50.0), "", Some("1"))), 0);
    var movs := f.movimientos;
    assert |movs| == 1 && movs[0].categoriaId == Some(1);
    var x := f.ManejarCategorias(None, Some("1"));
    assert x == Redirigir(CATEGORIAS);
    assert f.categorias == [];
    assert f.movimientos == [movs[0].(categoriaId := None)];
    ResumenDesvincular(movs, 1);
    assert CalcularResumen(f.movimientos) == CalcularResumen(movs);
  }
}
