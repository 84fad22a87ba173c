/**
 * The two request handlers that change the ledger, `index` (the movements page) and
 * `manejar_categorias` (the categories page), as methods on the store that holds both tables.
 */
module Finanzas {
  import opened Wrappers
  import opened Texto
  import opened Tablas
  import opened Resumen

  const MONTO_INVALIDO: string := "El monto debe ser un número mayor a 0."
  const NOMBRE_VACIO: string := "El nombre no puede estar vacío."
  const YA_EXISTE: string := "Esa categoría ya existe."

  /** The endpoints the handlers redirect to. */
  const INDEX: string := "index"
  const CATEGORIAS: string := "manejar_categorias"

  /**
   * The fields of a movement form. A field the request does not carry is `None` (`tipo`,
   * `categoria_id`) or the empty string (`nota`, read with a default of ""). `monto` is
   * what `float()` makes of the stripped amount text: `None` when it raises `ValueError`.
   */
  datatype FormMovimiento = FormMovimiento(
    tipo: Option<string>,
    monto: Option<real>,
    nota: string,
    categoriaId: Option<string>)

  /** What a handler answers: a redirect, or a page rendered with an optional error message. */
  datatype Vista =
    | Redirigir(endpoint: string)
    | PaginaFinanzas(error: Option<string>, resumen: Totales)
    | PaginaCategorias(error: Option<string>)

  /** The amount passes validation when it parsed and is strictly positive. */
  predicate MontoValido(monto: Option<real>) {
    monto.Some? && monto.value > 0.0
  }

  /** The kind a movement is stored with: the submitted one if it is "ahorro" or "gasto", else "gasto". */
  function CoercerTipo(tipo: Option<string>): (r: Tipo)
    ensures r == Ahorro <==> tipo == Some(AHORRO)
    ensures tipo == Some(AHORRO) || tipo == Some(GASTO) ==> tipo == Some(r.Texto())
  {
    if tipo == Some(AHORRO) then Ahorro else Gasto
  }

  /**
   * The category a new movement of kind `tipo` refers to: only an expense gets one, and only
   * when `categoriaId` parses as an integer naming an existing category.
   */
  function CategoriaAsignada(cats: seq<Categoria>, tipo: Tipo, categoriaId: Option<string>): (r: Option<int>)
    ensures r.Some? ==>
      && tipo == Gasto
      && categoriaId.Some? && ParseInt(categoriaId.value) == r
      && exists k :: 0 <= k < |cats| && cats[k].id == r.value
    ensures r.None? ==>
      || tipo != Gasto
      || categoriaId.None?
      || ParseInt(categoriaId.value).None?
      || forall k :: 0 <= k < |cats| ==> cats[k].id != ParseInt(categoriaId.value).value
  {
    if tipo == Gasto && categoriaId.Some? && categoriaId.value != "" then
      match ParseInt(categoriaId.value)
      case None => None
      case Some(id) => if IndiceDe(cats, id).Some? then Some(id) else None
    else
      None
  }

  /** The row a valid movement form adds, given the id and the instant the store assigns. */
  function NuevoMovimiento(cats: seq<Categoria>, form: FormMovimiento, id: int, ahora: int): Movimiento
    requires MontoValido(form.monto)
  {
    var tipo := CoercerTipo(form.tipo);
    Movimiento(id, tipo, form.monto.value, Strip(form.nota), ahora, CategoriaAsignada(cats, tipo, form.categoriaId))
  }

  /**
   * The error a category creation with the submitted `nombre` sets, or `None` when it succeeds:
   * it succeeds exactly when the stripped name is non-empty and matches no existing name ignoring case.
   */
  function ErrorNombre(cats: seq<Categoria>, nombre: string): (r: Option<string>)
    ensures r.None? <==>
      Strip(nombre) != [] && forall k :: 0 <= k < |cats| ==> !MismoNombre(cats[k].nombre, Strip(nombre))
    ensures Strip(nombre) == [] ==> r == Some(NOMBRE_VACIO)
    ensures Strip(nombre) != [] && r.Some? ==> r == Some(YA_EXISTE)
  {
    var limpio := Strip(nombre);
    if limpio == [] then Some(NOMBRE_VACIO)
    else if PrimeraConNombre(cats, limpio).Some? then Some(YA_EXISTE)
    else None
  }

  /**
   * The position of the category the `eliminar` query parameter deletes: the parameter must be
   * present and non-empty, and resolve to the primary key of an existing row.
   */
  function CategoriaABorrar(cats: seq<Categoria>, eliminar: Option<string>): (r: Option<nat>)
    ensures r.Some? ==>
      r.value < |cats| && eliminar.Some? && ParseInt(eliminar.value) == Some(cats[r.value].id)
    ensures r.None? ==>
      || eliminar.None?
      || ParseInt(eliminar.value).None?
      || forall k :: 0 <= k < |cats| ==> cats[k].id != ParseInt(eliminar.value).value
  {
    if eliminar.None? || eliminar.value == "" then None
    else match ParseInt(eliminar.value)
      case None => None
      case Some(id) => IndiceDe(cats, id)
  }

  /** The ledger's store: the `categorias` and `movimientos` tables and the next primary key of each. */
  class Finanzas {
    var categorias: seq<Categoria>
    var movimientos: seq<Movimiento>
    var siguienteCategoriaId: int
    var siguienteMovimientoId: int

    ghost predicate Valid()
      reads this
    {
      && CategoriasValidas(categorias, siguienteCategoriaId)
      && MovimientosValidos(movimientos, siguienteMovimientoId)
      && ReferenciasValidas(movimientos, categorias)
    }

    /** `db.create_all()` on a fresh database: both tables exist and are empty, and ids start at 1. */
    constructor ()
      ensures Valid()
      ensures categorias == [] && movimientos == []
      ensures siguienteCategoriaId == 1 && siguienteMovimientoId == 1
    {
      categorias := [];
      movimientos := [];
      siguienteCategoriaId := 1;
      siguienteMovimientoId := 1;
    }

    /**
     * The POST branch of `index`: validate the amount, coerce the kind, resolve the category,
     * and add one movement; on an invalid amount set the error and store nothing.
     */
    method RegistrarMovimiento(form: FormMovimiento, ahora: int) returns (error: Option<string>)
      requires Valid()
      modifies this
      ensures Valid()
      ensures categorias == old(categorias) && siguienteCategoriaId == old(siguienteCategoriaId)
      ensures error.None? <==> MontoValido(form.monto)
      ensures error.Some? ==>
        && error == Some(MONTO_INVALIDO)
        && movimientos == old(movimientos)
        && siguienteMovimientoId == old(siguienteMovimientoId)
      ensures error.None? ==>
        && movimientos == old(movimientos) + [NuevoMovimiento(categorias, form, old(siguienteMovimientoId), ahora)]
        && siguienteMovimientoId == old(siguienteMovimientoId) + 1
    {
      var tipo := form.tipo;
      var nota := Strip(form.nota);
      var categoriaId := form.categoriaId;

      if form.monto.None? || form.monto.value <= 0.0 {
        return Some(MONTO_INVALIDO);
      }
      var monto := form.monto.value;

      if tipo != Some(AHORRO) && tipo != Some(GASTO) {
        tipo := Some(GASTO);
      }

      // The coerced text is one of the two spellings the `tipo` column holds.
      var clase := if tipo == Some(AHORRO) then Ahorro else Gasto;
      assert tipo == Some(clase.Texto());

      var catObj := BuscarCategoriaDe(clase, categoriaId);
      var mov := Movimiento(siguienteMovimientoId, clase, monto, nota, ahora,
                            if catObj.Some? then Some(catObj.value.id) else None);
      assert mov == NuevoMovimiento(categorias, form, siguienteMovimientoId, ahora);
      MovimientosValidosAgregar(movimientos, siguienteMovimientoId, mov);
      ReferenciasAgregarMovimiento(movimientos, categorias, mov);
      movimientos := movimientos + [mov];
      siguienteMovimientoId := siguienteMovimientoId + 1;
      error := None;
    }

    /**
     * Lines 75-80 of `index`: the category object a movement of kind `tipo` is attached to.
     * An id that does not parse, or parses to no row, leaves it `None` without an error.
     */
    method BuscarCategoriaDe(tipo: Tipo, categoriaId: Option<string>) returns (catObj: Option<Categoria>)
      requires Valid()
      ensures catObj.Some? ==> catObj.value in categorias
      ensures (if catObj.Some? then Some(catObj.value.id) else None) == CategoriaAsignada(categorias, tipo, categoriaId)
    {
      catObj := None;
      if tipo == Gasto && categoriaId.Some? && categoriaId.value != "" {
        var id := ParseInt(categoriaId.value);
        if id.Some? {
          var k := IndiceDe(categorias, id.value);
          if k.Some? {
            catObj := Some(categorias[k.value]);
          }
        } else {
          catObj := None;
        }
      }
    }

    /**
     * `index`: a POST with a valid amount adds the movement and redirects; a GET, or a POST whose
     * amount fails validation, renders the page with the current totals and the pending error.
     */
    method Index(post: Option<FormMovimiento>, ahora: int) returns (vista: Vista)
      requires Valid()
      modifies this
      ensures Valid()
      ensures categorias == old(categorias) && siguienteCategoriaId == old(siguienteCategoriaId)
      ensures post.Some? && MontoValido(post.value.monto) ==>
        && vista == Redirigir(INDEX)
        && movimientos == old(movimientos) + [NuevoMovimiento(categorias, post.value, old(siguienteMovimientoId), ahora)]
        && siguienteMovimientoId == old(siguienteMovimientoId) + 1
      ensures !(post.Some? && MontoValido(post.value.monto)) ==>
        && movimientos == old(movimientos)
        && siguienteMovimientoId == old(siguienteMovimientoId)
        && vista == PaginaFinanzas(if post.Some? then Some(MONTO_INVALIDO) else None, CalcularResumen(movimientos))
    {
      var error: Option<string> := None;
      if post.Some? {
        error := RegistrarMovimiento(post.value, ahora);
        if error.None? {
          return Redirigir(INDEX);
        }
      }
      vista := PaginaFinanzas(error, CalcularResumen(movimientos));
    }

    /**
     * The POST branch of `manejar_categorias`: strip the name, reject it when empty or when it
     * matches an existing name ignoring case, otherwise add one category under the stripped name.
     */
    method CrearCategoria(nombre: string) returns (error: Option<string>)
      requires Valid()
      modifies this
      ensures Valid()
      ensures movimientos == old(movimientos) && siguienteMovimientoId == old(siguienteMovimientoId)
      ensures error == ErrorNombre(old(categorias), nombre)
      ensures error.Some? ==> categorias == old(categorias) && siguienteCategoriaId == old(siguienteCategoriaId)
      ensures error.None? ==>
        && categorias == old(categorias) + [Categoria(old(siguienteCategoriaId), Strip(nombre))]
        && siguienteCategoriaId == old(siguienteCategoriaId) + 1
    {
      var limpio := Strip(nombre);
      if limpio == [] {
        return Some(NOMBRE_VACIO);
      }
      var existente := PrimeraConNombre(categorias, limpio);
      if existente.Some? {
        return Some(YA_EXISTE);
      }
      assert ErrorNombre(categorias, nombre) == None;
      var cat := Categoria(siguienteCategoriaId, limpio);
      CategoriasValidasAgregar(categorias, siguienteCategoriaId, cat);
      ReferenciasAgregarCategoria(movimientos, categorias, cat);
      categorias := categorias + [cat];
      siguienteCategoriaId := siguienteCategoriaId + 1;
      error := None;
    }

    /**
     * The `eliminar` branch of `manejar_categorias`: delete the category the parameter resolves
     * to, if any. Its movements are kept, with their `categoria_id` set to NULL.
     */
    method EliminarCategoria(eliminar: Option<string>) returns (borrada: bool)
      requires Valid()
      modifies this
      ensures Valid()
      ensures siguienteCategoriaId == old(siguienteCategoriaId) && siguienteMovimientoId == old(siguienteMovimientoId)
      ensures borrada <==> CategoriaABorrar(old(categorias), eliminar).Some?
      ensures borrada ==> categorias == Quitar(old(categorias), CategoriaABorrar(old(categorias), eliminar).value)
      ensures borrada ==> forall c :: c in categorias <==> c in old(categorias) && Some(c.id) != ParseInt(eliminar.value)
      ensures borrada ==> movimientos == Desvincular(old(movimientos), ParseInt(eliminar.value).value)
      ensures !borrada ==> categorias == old(categorias) && movimientos == old(movimientos)
    {
      borrada := false;
      if eliminar.Some? && eliminar.value != "" {
        var id := ParseInt(eliminar.value);
        if id.Some? {
          var k := IndiceDe(categorias, id.value);
          if k.Some? {
            CategoriasValidasQuitar(categorias, siguienteCategoriaId, k.value);
            QuitarExacto(categorias, k.value);
            MovimientosValidosDesvincular(movimientos, siguienteMovimientoId, id.value);
            ReferenciasQuitar(movimientos, categorias, k.value);
            categorias := Quitar(categorias, k.value);
            movimientos := Desvincular(movimientos, id.value);
            borrada := true;
          }
        }
      }
    }

    /**
     * `manejar_categorias`: a successful creation redirects at once; otherwise (a GET, or a failed
     * creation) the `eliminar` parameter is checked, and a resolved deletion redirects; otherwise
     * the page is rendered with the creation error, if there was one.
     */
    method ManejarCategorias(post: Option<string>, eliminar: Option<string>) returns (vista: Vista)
      requires Valid()
      modifies this
      ensures Valid()
      ensures siguienteMovimientoId == old(siguienteMovimientoId)
      ensures post.Some? && ErrorNombre(old(categorias), post.value).None? ==>
        && vista == Redirigir(CATEGORIAS)
        && movimientos == old(movimientos)
        && categorias == old(categorias) + [Categoria(old(siguienteCategoriaId), Strip(post.value))]
        && siguienteCategoriaId == old(siguienteCategoriaId) + 1
      ensures !(post.Some? && ErrorNombre(old(categorias), post.value).None?) ==>
        && siguienteCategoriaId == old(siguienteCategoriaId)
        && var borrar := CategoriaABorrar(old(categorias), eliminar);
           if borrar.Some? then
             && vista == Redirigir(CATEGORIAS)
             && categorias == Quitar(old(categorias), borrar.value)
             && movimientos == Desvincular(old(movimientos), old(categorias)[borrar.value].id)
           else
             && vista == PaginaCategorias(if post.Some? then ErrorNombre(old(categorias), post.value) else None)
             && categorias == old(categorias)
             && movimientos == old(movimientos)
    {
      var error: Option<string> := None;
      if post.Some? {
        error := CrearCategoria(post.value);
        if error.None? {
          return Redirigir(CATEGORIAS);
        }
      }
      var borrada := EliminarCategoria(eliminar);
      if borrada {
        return Redirigir(CATEGORIAS);
      }
      vista := PaginaCategorias(error);
    }
  }
}
