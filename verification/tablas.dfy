/**
 * The two tables of the ledger, `categorias` and `movimientos`, as sequences of records,
 * with the lookups the handlers perform on them and the invariants the handlers keep.
 */
module Tablas {
  import opened Wrappers
  import opened Texto

  /** The two kinds of movement the ledger stores, spelled as in the `tipo` column. */
  const AHORRO: string := "ahorro"
  const GASTO: string := "gasto"

  /** The kind of a stored movement: the handler only ever writes one of the two spellings. */
  datatype Tipo = Ahorro | Gasto {
    function Texto(): (r: string)
      ensures r == AHORRO || r == GASTO
    {
      match this
      case Ahorro => AHORRO
      case Gasto => GASTO
    }
  }

  /** A row of `categorias`. */
  datatype Categoria = Categoria(id: int, nombre: string)

  /**
   * A row of `movimientos`. `tipo` is the kind column, `fecha` the creation instant as an abstract clock value;
   * `categoriaId` is the nullable foreign key into `categorias`.
   */
  datatype Movimiento = Movimiento(
    id: int,
    tipo: Tipo,
    monto: real,
    nota: string,
    fecha: int,
    categoriaId: Option<int>)

  /** `Categoria.query.get(id)`: the position of the row with primary key `id`, if there is one. */
  function IndiceDe(cats: seq<Categoria>, id: int): (r: Option<nat>)
    ensures r.Some? ==> r.value < |cats| && cats[r.value].id == id
    ensures r.None? ==> forall k :: 0 <= k < |cats| ==> cats[k].id != id
  {
    if cats == [] then None
    else if cats[0].id == id then Some(0)
    else match IndiceDe(cats[1..], id)
      case None => None
      case Some(k) => Some(k + 1)
  }

  /** Two names are the same category name when they agree after case folding. */
  predicate MismoNombre(a: string, b: string) {
    Lower(a) == Lower(b)
  }

  /**
   * `Categoria.query.filter(lower(nombre) == nombre.lower()).first()`:
   * the position of the first category whose name matches `nombre` ignoring case.
   */
  function PrimeraConNombre(cats: seq<Categoria>, nombre: string): (r: Option<nat>)
    ensures r.Some? ==> r.value < |cats| && MismoNombre(cats[r.value].nombre, nombre)
    ensures r.Some? ==> forall k :: 0 <= k < r.value ==> !MismoNombre(cats[k].nombre, nombre)
    ensures r.None? ==> forall k :: 0 <= k < |cats| ==> !MismoNombre(cats[k].nombre, nombre)
  {
    if cats == [] then None
    else if MismoNombre(cats[0].nombre, nombre) then Some(0)
    else match PrimeraConNombre(cats[1..], nombre)
      case None => None
      case Some(k) => Some(k + 1)
  }

  /** The table without the row at position `k` (`db.session.delete` of that row). */
  function Quitar(cats: seq<Categoria>, k: nat): seq<Categoria>
    requires k < |cats|
  {
    cats[..k] + cats[k + 1..]
  }

  ghost predicate IdsUnicos(cats: seq<Categoria>) {
    forall i, j :: 0 <= i < j < |cats| ==> cats[i].id != cats[j].id
  }

  /** The table invariant the category handler keeps: no two names match ignoring case. */
  ghost predicate NombresUnicos(cats: seq<Categoria>) {
    forall i, j :: 0 <= i < j < |cats| ==> !MismoNombre(cats[i].nombre, cats[j].nombre)
  }

  /** Every row of `categorias` the handlers can produce, given the next id the store hands out. */
  ghost predicate CategoriasValidas(cats: seq<Categoria>, siguiente: int) {
    && 1 <= siguiente
    && (forall i :: 0 <= i < |cats| ==> 1 <= cats[i].id < siguiente)
    && (forall i :: 0 <= i < |cats| ==> cats[i].nombre != [] && Stripped(cats[i].nombre))
    && IdsUnicos(cats)
    && NombresUnicos(cats)
  }

  /** Every row of `movimientos` the handlers can produce, given the next id the store hands out. */
  ghost predicate MovimientosValidos(movs: seq<Movimiento>, siguiente: int) {
    && 1 <= siguiente
    && (forall i :: 0 <= i < |movs| ==> 1 <= movs[i].id < siguiente)
    && (forall i, j :: 0 <= i < j < |movs| ==> movs[i].id != movs[j].id)
    && (forall i :: 0 <= i < |movs| ==> movs[i].monto > 0.0)
    && (forall i :: 0 <= i < |movs| ==> movs[i].tipo == Ahorro ==> movs[i].categoriaId.None?)
  }

  /** Some row of `cats` has primary key `id`. */
  ghost predicate HayCategoria(cats: seq<Categoria>, id: int) {
    exists k :: 0 <= k < |cats| && cats[k].id == id
  }

  /** Every movement's foreign key is NULL or names an existing category. */
  ghost predicate ReferenciasValidas(movs: seq<Movimiento>, cats: seq<Categoria>) {
    forall i :: 0 <= i < |movs| && movs[i].categoriaId.Some? ==> HayCategoria(cats, movs[i].categoriaId.value)
  }

  /**
   * One movement once category `id` is deleted: a foreign key that pointed at it becomes NULL,
   * and nothing else about the movement changes.
   */
  function Soltar(m: Movimiento, id: int): (r: Movimiento)
    ensures r.categoriaId != Some(id)
    ensures m.categoriaId != Some(id) ==> r == m
    ensures r == m.(categoriaId := r.categoriaId)
  {
    if m.categoriaId == Some(id) then m.(categoriaId := None) else m
  }

  /**
   * The `movimientos` table once category `id` is deleted. The `movimientos` backref has no
   * delete cascade, so the session loads the category's movements and sets their `categoria_id`
   * to NULL on flush: every row stays, in place, with `Soltar` applied.
   */
  function Desvincular(movs: seq<Movimiento>, id: int): (r: seq<Movimiento>)
    ensures |r| == |movs|
    ensures forall i :: 0 <= i < |r| ==> r[i] == Soltar(movs[i], id)
  {
    seq(|movs|, i requires 0 <= i < |movs| => Soltar(movs[i], id))
  }

  /** Adding a category whose name matches no existing one keeps the names unique. */
  lemma {:induction false} NombresUnicosAgregar(cats: seq<Categoria>, c: Categoria)
    requires NombresUnicos(cats)
    requires forall k :: 0 <= k < |cats| ==> !MismoNombre(cats[k].nombre, c.nombre)
    ensures NombresUnicos(cats + [c])
  {
    var s := cats + [c];
    forall i, j | 0 <= i < j < |s| ensures !MismoNombre(s[i].nombre, s[j].nombre) {
      assert s[i] == cats[i];
      if j < |cats| { assert s[j] == cats[j]; }
    }
  }

  /** A category stored under a fresh id and a new, stripped, non-empty name keeps every table invariant. */
  lemma CategoriasValidasAgregar(cats: seq<Categoria>, siguiente: int, c: Categoria)
    requires CategoriasValidas(cats, siguiente)
    requires c.id == siguiente && c.nombre != [] && Stripped(c.nombre)
    requires forall k :: 0 <= k < |cats| ==> !MismoNombre(cats[k].nombre, c.nombre)
    ensures CategoriasValidas(cats + [c], siguiente + 1)
  {
    NombresUnicosAgregar(cats, c);
    var s := cats + [c];
    assert forall i :: 0 <= i < |cats| ==> s[i] == cats[i];
  }

  /** A movement stored under a fresh id, with a positive amount and a known kind, keeps every table invariant. */
  lemma MovimientosValidosAgregar(movs: seq<Movimiento>, siguiente: int, m: Movimiento)
    requires MovimientosValidos(movs, siguiente)
    requires m.id == siguiente && m.monto > 0.0
    requires m.tipo == Ahorro ==> m.categoriaId.None?
    ensures MovimientosValidos(movs + [m], siguiente + 1)
  {
    var s := movs + [m];
    assert forall i :: 0 <= i < |movs| ==> s[i] == movs[i];
  }

  /** Nulling the foreign keys to a category keeps every movement invariant. */
  lemma MovimientosValidosDesvincular(movs: seq<Movimiento>, siguiente: int, id: int)
    requires MovimientosValidos(movs, siguiente)
    ensures MovimientosValidos(Desvincular(movs, id), siguiente)
  {
  }

  /** A new movement whose category, if any, exists keeps every reference valid. */
  lemma ReferenciasAgregarMovimiento(movs: seq<Movimiento>, cats: seq<Categoria>, m: Movimiento)
    requires ReferenciasValidas(movs, cats)
    requires m.categoriaId.Some? ==> HayCategoria(cats, m.categoriaId.value)
    ensures ReferenciasValidas(movs + [m], cats)
  {
    var s := movs + [m];
    assert forall i :: 0 <= i < |movs| ==> s[i] == movs[i];
  }

  /** A new category takes no reference away. */
  lemma {:induction false} ReferenciasAgregarCategoria(movs: seq<Movimiento>, cats: seq<Categoria>, c: Categoria)
    requires ReferenciasValidas(movs, cats)
    ensures ReferenciasValidas(movs, cats + [c])
  {
    forall i | 0 <= i < |movs| && movs[i].categoriaId.Some?
      ensures HayCategoria(cats + [c], movs[i].categoriaId.value)
    {
      var k :| 0 <= k < |cats| && cats[k].id == movs[i].categoriaId.value;
      assert (cats + [c])[k] == cats[k];
    }
  }

  /**
   * Deleting the category at position `k` while nulling the foreign keys to it leaves no
   * movement naming a missing category.
   */
  lemma {:induction false} ReferenciasQuitar(movs: seq<Movimiento>, cats: seq<Categoria>, k: nat)
    requires k < |cats| && IdsUnicos(cats)
    requires ReferenciasValidas(movs, cats)
    ensures ReferenciasValidas(Desvincular(movs, cats[k].id), Quitar(cats, k))
  {
    var d, r := Desvincular(movs, cats[k].id), Quitar(cats, k);
    forall i | 0 <= i < |d| && d[i].categoriaId.Some?
      ensures HayCategoria(r, d[i].categoriaId.value)
    {
      var id := d[i].categoriaId.value;
      assert d[i].categoriaId == movs[i].categoriaId && id != cats[k].id;
      var j :| 0 <= j < |cats| && cats[j].id == id;
      assert j != k;
      var j' := if j < k then j else j - 1;
      assert r[j'] == cats[j];
    }
  }

  /** Deleting the row at position `k` removes exactly the category with that row's id. */
  lemma QuitarExacto(cats: seq<Categoria>, k: nat)
    requires k < |cats| && IdsUnicos(cats)
    ensures |Quitar(cats, k)| == |cats| - 1
    ensures forall c :: c in Quitar(cats, k) <==> c in cats && c.id != cats[k].id
  {
    var r := Quitar(cats, k);
    forall i | 0 <= i < |r| ensures r[i] == cats[Salto(i, k)] {
    }
    forall c | c in r ensures c in cats && c.id != cats[k].id {
      var j :| 0 <= j < |r| && r[j] == c;
      assert c == cats[Salto(j, k)];
    }
    forall c | c in cats && c.id != cats[k].id ensures c in r {
      var j :| 0 <= j < |cats| && cats[j] == c;
      assert r[if j < k then j else j - 1] == c;
    }
  }

  /** Deletion takes away one row, that one, and keeps all the others. */
  lemma QuitarMultiset(cats: seq<Categoria>, k: nat)
    requires k < |cats|
    ensures multiset(Quitar(cats, k)) + multiset{cats[k]} == multiset(cats)
  {
    assert cats == cats[..k] + [cats[k]] + cats[k + 1..];
  }

  /** Deleting a row keeps every table invariant. */
  lemma CategoriasValidasQuitar(cats: seq<Categoria>, siguiente: int, k: nat)
    requires k < |cats| && CategoriasValidas(cats, siguiente)
    ensures CategoriasValidas(Quitar(cats, k), siguiente)
  {
    var r := Quitar(cats, k);
    forall i | 0 <= i < |r| ensures r[i] == cats[Salto(i, k)] {
    }
    forall i, j | 0 <= i < j < |r|
      ensures r[i].id != r[j].id && !MismoNombre(r[i].nombre, r[j].nombre)
    {
      assert r[i] == cats[Salto(i, k)] && r[j] == cats[Salto(j, k)];
    }
  }

  /** The position in the old table of position `i` of the table without row `k`. */
  function Salto(i: nat, k: nat): (j: nat)
    ensures j == i || j == i + 1
    ensures i < k <==> j == i
  {
    if i < k then i else i + 1
  }
}
