/** The quotation store of db_manager.py: the four tables declared by
    `setup_database`, held in memory, with the constraints the DDL declares
    (AUTOINCREMENT ids, UNIQUE catalogue numbers, the CHECK on the base
    currency, enforced foreign keys, the 'Pendiente' default status), the
    read-only queries as functions of the tables, and the three inserts as
    methods of a connection object that updates the tables in place. */
module DbManager {
  import opened Wrappers

  // ---------------------------------------------------------------------
  // Rows
  // ---------------------------------------------------------------------

  /** A row of Clientes. `nombre` is NOT NULL; `compania` and `email` may be NULL. */
  datatype Cliente = Cliente(id: nat, nombre: string, compania: Option<string>, email: Option<string>)

  /** A row of Productos. `monedaBase` is constrained by a CHECK, enforced on insert. */
  datatype Producto = Producto(id: nat, numeroCatalogo: string, descripcion: Option<string>,
                               precioBase: real, monedaBase: string)

  /** A row of Cotizaciones. `monedaCotizada` carries no CHECK constraint. */
  datatype Cotizacion = Cotizacion(id: nat, clienteId: int, fechaCreacion: string, total: real,
                                   monedaCotizada: string, tipoCambioDia: real, estado: string)

  /** A row of Cotizacion_Detalle. */
  datatype Detalle = Detalle(id: nat, cotizacionId: nat, productoId: int, cantidad: int,
                             precioUnitarioFinal: real)

  /** One line item as the caller builds it; the store reads only
      `productoId`, `qty` and `precio` of it. */
  datatype Item = Item(productoId: int, qty: int, catalogo: string, desc: string,
                       precio: real, subtotal: real)

  /** An exception a db_manager function lets escape: the IntegrityError of a
      constraint of Productos, or the OverflowError of an int parameter that does
      not fit an SQLite INTEGER. */
  datatype ErrorDb = ViolacionCheck | ViolacionUnique | EnteroDesbordado

  /** The whole database: the four tables in rowid order and, per table, the
      largest id AUTOINCREMENT has handed out (the sqlite_sequence row). */
  datatype Db = Db(clientes: seq<Cliente>, productos: seq<Producto>,
                   cotizaciones: seq<Cotizacion>, detalles: seq<Detalle>,
                   seqClientes: nat, seqProductos: nat, seqCotizaciones: nat, seqDetalles: nat)

  /** An SQLite INTEGER is a signed 64-bit integer: binding a Python int outside
      this range as a parameter raises OverflowError before the statement runs. */
  predicate EnteroSqlite(n: int) {
    -0x8000_0000_0000_0000 <= n <= 0x7FFF_FFFF_FFFF_FFFF
  }

  /** The DEFAULT of Cotizaciones.estado. */
  const EstadoPorDefecto: string := "Pendiente"

  /** A freshly created database: four empty tables. */
  function Vacia(): Db {
    Db([], [], [], [], 0, 0, 0, 0)
  }

  // ---------------------------------------------------------------------
  // Constraints
  // ---------------------------------------------------------------------

  /** CHECK(moneda_base IN ('USD', 'MXN')). */
  predicate MonedaPermitida(m: string) {
    m == "USD" || m == "MXN"
  }

  predicate ClienteExiste(clientes: seq<Cliente>, id: int) {
    exists c :: c in clientes && c.id == id
  }

  predicate ProductoExiste(productos: seq<Producto>, id: int) {
    exists p :: p in productos && p.id == id
  }

  predicate CotizacionExiste(cotizaciones: seq<Cotizacion>, id: int) {
    exists q :: q in cotizaciones && q.id == id
  }

  predicate CatalogoUsado(productos: seq<Producto>, catalogo: string) {
    exists p :: p in productos && p.numeroCatalogo == catalogo
  }

  /** UNIQUE numero_catalogo. */
  predicate CatalogosUnicos(productos: seq<Producto>) {
    forall i, j :: 0 <= i < j < |productos| ==> productos[i].numeroCatalogo != productos[j].numeroCatalogo
  }

  /** Ids in rowid order strictly increase (so they are distinct). */
  predicate Crecientes(ids: seq<nat>) {
    forall i, j :: 0 <= i < j < |ids| ==> ids[i] < ids[j]
  }

  /** AUTOINCREMENT: ids are positive, strictly increasing and never above the sequence counter. */
  predicate AutoIncremento(ids: seq<nat>, tope: nat) {
    Crecientes(ids) && forall i :: 0 <= i < |ids| ==> 1 <= ids[i] <= tope
  }

  function IdsClientes(s: seq<Cliente>): seq<nat> {
    seq(|s|, i requires 0 <= i < |s| => s[i].id)
  }

  function IdsProductos(s: seq<Producto>): seq<nat> {
    seq(|s|, i requires 0 <= i < |s| => s[i].id)
  }

  function IdsCotizaciones(s: seq<Cotizacion>): seq<nat> {
    seq(|s|, i requires 0 <= i < |s| => s[i].id)
  }

  function IdsDetalles(s: seq<Detalle>): seq<nat> {
    seq(|s|, i requires 0 <= i < |s| => s[i].id)
  }

  /** Every constraint of the schema, with `PRAGMA foreign_keys = ON`. */
  ghost predicate Consistent(db: Db) {
    && AutoIncremento(IdsClientes(db.clientes), db.seqClientes)
    && AutoIncremento(IdsProductos(db.productos), db.seqProductos)
    && AutoIncremento(IdsCotizaciones(db.cotizaciones), db.seqCotizaciones)
    && AutoIncremento(IdsDetalles(db.detalles), db.seqDetalles)
    && CatalogosUnicos(db.productos)
    && (forall i :: 0 <= i < |db.productos| ==> MonedaPermitida(db.productos[i].monedaBase))
    && (forall i :: 0 <= i < |db.cotizaciones| ==> ClienteExiste(db.clientes, db.cotizaciones[i].clienteId))
    && (forall i :: 0 <= i < |db.detalles| ==>
          CotizacionExiste(db.cotizaciones, db.detalles[i].cotizacionId)
          && ProductoExiste(db.productos, db.detalles[i].productoId))
  }

  lemma VaciaConsistent()
    ensures Consistent(Vacia())
  {
  }

  // ---------------------------------------------------------------------
  // Queries (pure reads of the current tables)
  // ---------------------------------------------------------------------

  /** buscar_cliente_por_id: `SELECT * FROM Clientes WHERE id = ?`, first row or None. */
  function BuscarClientePorId(clientes: seq<Cliente>, id: int): (r: Option<Cliente>)
    ensures r.None? <==> !ClienteExiste(clientes, id)
    ensures r.Some? ==> r.value in clientes && r.value.id == id
  {
    if clientes == [] then None
    else if clientes[0].id == id then Some(clientes[0])
    else BuscarClientePorId(clientes[1..], id)
  }

  /** buscar_producto_por_id: `SELECT * FROM Productos WHERE id = ?`, first row or None. */
  function BuscarProductoPorId(productos: seq<Producto>, id: int): (r: Option<Producto>)
    ensures r.None? <==> !ProductoExiste(productos, id)
    ensures r.Some? ==> r.value in productos && r.value.id == id
  {
    if productos == [] then None
    else if productos[0].id == id then Some(productos[0])
    else BuscarProductoPorId(productos[1..], id)
  }

  /** buscar_producto_por_catalogo: `SELECT * FROM Productos WHERE numero_catalogo = ?`. */
  function BuscarProductoPorCatalogo(productos: seq<Producto>, catalogo: string): (r: Option<Producto>)
    ensures r.None? <==> !CatalogoUsado(productos, catalogo)
    ensures r.Some? ==> r.value in productos && r.value.numeroCatalogo == catalogo
  {
    if productos == [] then None
    else if productos[0].numeroCatalogo == catalogo then Some(productos[0])
    else BuscarProductoPorCatalogo(productos[1..], catalogo)
  }

  /** With distinct ids, looking a row up by its id gives back that row. */
  lemma {:induction false} BuscarClientePorIdFila(clientes: seq<Cliente>, k: nat)
    requires k < |clientes| && Crecientes(IdsClientes(clientes))
    ensures BuscarClientePorId(clientes, clientes[k].id) == Some(clientes[k])
  {
    if k > 0 {
      assert IdsClientes(clientes)[0] < IdsClientes(clientes)[k];
      assert forall i :: 0 <= i < |clientes| - 1 ==> IdsClientes(clientes[1..])[i] == IdsClientes(clientes)[i + 1];
      BuscarClientePorIdFila(clientes[1..], k - 1);
    }
  }

  /** With distinct ids, looking a row up by its id gives back that row. */
  lemma {:induction false} BuscarProductoPorIdFila(productos: seq<Producto>, k: nat)
    requires k < |productos| && Crecientes(IdsProductos(productos))
    ensures BuscarProductoPorId(productos, productos[k].id) == Some(productos[k])
  {
    if k > 0 {
      assert IdsProductos(productos)[0] < IdsProductos(productos)[k];
      assert forall i :: 0 <= i < |productos| - 1 ==> IdsProductos(productos[1..])[i] == IdsProductos(productos)[i + 1];
      BuscarProductoPorIdFila(productos[1..], k - 1);
    }
  }

  /** Under UNIQUE numero_catalogo, the lookup by catalogue number gives the one product carrying it. */
  lemma {:induction false} BuscarProductoPorCatalogoFila(productos: seq<Producto>, k: nat)
    requires k < |productos| && CatalogosUnicos(productos)
    ensures BuscarProductoPorCatalogo(productos, productos[k].numeroCatalogo) == Some(productos[k])
  {
    if k > 0 {
      assert productos[0].numeroCatalogo != productos[k].numeroCatalogo;
      BuscarProductoPorCatalogoFila(productos[1..], k - 1);
    }
  }

  /** check_productos_mxn: `SELECT 1 FROM Productos WHERE moneda_base = 'MXN' LIMIT 1` found a row. */
  function CheckProductosMxn(productos: seq<Producto>): (r: bool)
    ensures r <==> exists p :: p in productos && p.monedaBase == "MXN"
  {
    if productos == [] then false
    else productos[0].monedaBase == "MXN" || CheckProductosMxn(productos[1..])
  }

  // --- buscar_cliente_por_nombre -----------------------------------------

  /** SQLite's LIKE folds only the ASCII letters. */
  function MinusculaAscii(c: char): char {
    if 'A' <= c <= 'Z' then (c as int - 'A' as int + 'a' as int) as char else c
  }

  function MinusculasAscii(s: string): string {
    seq(|s|, i requires 0 <= i < |s| => MinusculaAscii(s[i]))
  }

  /** `t` occurs in `s` as a contiguous piece. */
  predicate Contiene(s: string, t: string) {
    exists i :: 0 <= i <= |s| && t <= s[i..]
  }

  /** `valor LIKE '%termino%'` for a term without wildcards: NULL never matches. */
  predicate ComoSubcadena(valor: Option<string>, termino: string) {
    valor.Some? && Contiene(MinusculasAscii(valor.value), MinusculasAscii(termino))
  }

  /** The WHERE clause `nombre LIKE ? OR compania LIKE ?`. */
  predicate CoincideNombre(c: Cliente, termino: string) {
    ComoSubcadena(Some(c.nombre), termino) || ComoSubcadena(c.compania, termino)
  }

  /** buscar_cliente_por_nombre: the matching clients, in table order. */
  function BuscarClientePorNombre(clientes: seq<Cliente>, termino: string): (r: seq<Cliente>)
    ensures forall c :: c in r <==> c in clientes && CoincideNombre(c, termino)
    ensures |r| <= |clientes|
  {
    if clientes == [] then []
    else (if CoincideNombre(clientes[0], termino) then [clientes[0]] else [])
         + BuscarClientePorNombre(clientes[1..], termino)
  }

  /** When every client matches, the search returns the whole table in order. */
  lemma {:induction false} BuscarClientePorNombreTodos(clientes: seq<Cliente>, termino: string)
    requires forall c :: c in clientes ==> CoincideNombre(c, termino)
    ensures BuscarClientePorNombre(clientes, termino) == clientes
  {
    if clientes != [] {
      BuscarClientePorNombreTodos(clientes[1..], termino);
    }
  }

  /** The empty term (as index() in app.py passes) lists every client, because `nombre` is NOT NULL. */
  lemma BuscarClientePorNombreVacio(clientes: seq<Cliente>)
    ensures BuscarClientePorNombre(clientes, "") == clientes
  {
    forall c | c in clientes ensures CoincideNombre(c, "") {
      var s := MinusculasAscii(c.nombre);
      assert MinusculasAscii("") == [];
      assert MinusculasAscii("") <= s[0..];
    }
    BuscarClientePorNombreTodos(clientes, "");
  }

  // --- get_all_productos -------------------------------------------------

  /** The BINARY collation on text: code-point lexicographic order, a prefix first. */
  predicate LexMenorIgual(a: string, b: string)
    decreases |a|
  {
    if a == [] then true
    else if b == [] then false
    else if a[0] != b[0] then a[0] < b[0]
    else LexMenorIgual(a[1..], b[1..])
  }

  lemma {:induction false} LexTotal(a: string, b: string)
    ensures LexMenorIgual(a, b) || LexMenorIgual(b, a)
    decreases |a|
  {
    if a != [] && b != [] && a[0] == b[0] {
      LexTotal(a[1..], b[1..]);
    }
  }

  lemma {:induction false} LexAntisimetrico(a: string, b: string)
    requires LexMenorIgual(a, b) && LexMenorIgual(b, a)
    ensures a == b
    decreases |a|
  {
    if a != [] && b != [] {
      LexAntisimetrico(a[1..], b[1..]);
      assert a == [a[0]] + a[1..] && b == [b[0]] + b[1..];
    }
  }

  lemma {:induction false} LexTransitivo(a: string, b: string, c: string)
    requires LexMenorIgual(a, b) && LexMenorIgual(b, c)
    ensures LexMenorIgual(a, c)
    decreases |a|
  {
    if a != [] && b != [] && c != [] && a[0] == b[0] && b[0] == c[0] {
      LexTransitivo(a[1..], b[1..], c[1..]);
    }
  }

  predicate Ordenado(s: seq<Producto>) {
    forall i, j :: 0 <= i < j < |s| ==> LexMenorIgual(s[i].numeroCatalogo, s[j].numeroCatalogo)
  }

  /** Ordered with no two equal catalogue numbers. */
  predicate EstrictamenteOrdenado(s: seq<Producto>) {
    Ordenado(s) && CatalogosUnicos(s)
  }

  /** Places `p` into a sequence, after every element whose key is below its own. */
  function InsertarOrdenado(p: Producto, s: seq<Producto>): seq<Producto> {
    if s == [] then [p]
    else if LexMenorIgual(p.numeroCatalogo, s[0].numeroCatalogo) then [p] + s
    else [s[0]] + InsertarOrdenado(p, s[1..])
  }

  /** Every row of the result is `p` or a row of `s`. */
  lemma {:induction false} MiembrosDeInsertado(p: Producto, s: seq<Producto>)
    ensures forall x :: x in InsertarOrdenado(p, s) ==> x == p || x in s
  {
    if s != [] && !LexMenorIgual(p.numeroCatalogo, s[0].numeroCatalogo) {
      MiembrosDeInsertado(p, s[1..]);
      forall x | x in InsertarOrdenado(p, s) ensures x == p || x in s {
        if x != s[0] {
          assert x in InsertarOrdenado(p, s[1..]);
        }
      }
    }
  }

  /** A row whose key is at most every key of an ordered sequence can lead it. */
  lemma OrdenadoCons(x: Producto, r: seq<Producto>)
    requires Ordenado(r)
    requires forall y :: y in r ==> LexMenorIgual(x.numeroCatalogo, y.numeroCatalogo)
    ensures Ordenado([x] + r)
  {
    var t := [x] + r;
    forall i, j | 0 <= i < j < |t| ensures LexMenorIgual(t[i].numeroCatalogo, t[j].numeroCatalogo) {
      assert t[j] == r[j - 1];
      if i > 0 {
        assert t[i] == r[i - 1];
      } else {
        assert r[j - 1] in r;
      }
    }
  }

  /** A row whose key no row of `r` carries keeps the keys of `[x] + r` distinct. */
  lemma UnicosCons(x: Producto, r: seq<Producto>)
    requires CatalogosUnicos(r)
    requires forall y :: y in r ==> y.numeroCatalogo != x.numeroCatalogo
    ensures CatalogosUnicos([x] + r)
  {
    var t := [x] + r;
    forall i, j | 0 <= i < j < |t| ensures t[i].numeroCatalogo != t[j].numeroCatalogo {
      assert t[j] == r[j - 1];
      if i > 0 {
        assert t[i] == r[i - 1];
      } else {
        assert r[j - 1] in r;
      }
    }
  }

  /** Inserting into an ordered sequence keeps it ordered and adds exactly `p`. */
  lemma {:induction false} InsertarOrdenadoCorrecto(p: Producto, s: seq<Producto>)
    requires Ordenado(s)
    ensures Ordenado(InsertarOrdenado(p, s))
    ensures multiset(InsertarOrdenado(p, s)) == multiset(s) + multiset{p}
  {
    if s == [] {
    } else if LexMenorIgual(p.numeroCatalogo, s[0].numeroCatalogo) {
      forall y | y in s ensures LexMenorIgual(p.numeroCatalogo, y.numeroCatalogo) {
        var j :| 0 <= j < |s| && s[j] == y;
        if j > 0 {
          LexTransitivo(p.numeroCatalogo, s[0].numeroCatalogo, s[j].numeroCatalogo);
        }
      }
      OrdenadoCons(p, s);
    } else {
      var resto := InsertarOrdenado(p, s[1..]);
      InsertarOrdenadoCorrecto(p, s[1..]);
      MiembrosDeInsertado(p, s[1..]);
      LexTotal(p.numeroCatalogo, s[0].numeroCatalogo);
      forall y | y in resto ensures LexMenorIgual(s[0].numeroCatalogo, y.numeroCatalogo) {
        if y != p {
          var k :| 0 <= k < |s[1..]| && s[1..][k] == y;
          assert s[k + 1] == y;
        }
      }
      OrdenadoCons(s[0], resto);
      assert s == [s[0]] + s[1..];
    }
  }

  /** get_all_productos: `SELECT * FROM Productos ORDER BY numero_catalogo`. */
  function GetAllProductos(productos: seq<Producto>): (r: seq<Producto>)
    ensures Ordenado(r)
    ensures multiset(r) == multiset(productos)
  {
    if productos == [] then []
    else
      var resto := GetAllProductos(productos[1..]);
      InsertarOrdenadoCorrecto(productos[0], resto);
      assert productos == [productos[0]] + productos[1..];
      InsertarOrdenado(productos[0], resto)
  }

  /** Inserting a key the sequence does not hold keeps the order strict. */
  lemma {:induction false} InsertarOrdenadoEstricto(p: Producto, s: seq<Producto>)
    requires EstrictamenteOrdenado(s)
    requires forall x :: x in s ==> x.numeroCatalogo != p.numeroCatalogo
    ensures EstrictamenteOrdenado(InsertarOrdenado(p, s))
  {
    InsertarOrdenadoCorrecto(p, s);
    if s == [] {
    } else if LexMenorIgual(p.numeroCatalogo, s[0].numeroCatalogo) {
      UnicosCons(p, s);
    } else {
      ColaOrdenada(s);
      InsertarOrdenadoEstricto(p, s[1..]);
      var resto := InsertarOrdenado(p, s[1..]);
      MiembrosDeInsertado(p, s[1..]);
      forall y | y in resto ensures y.numeroCatalogo != s[0].numeroCatalogo {
        if y != p {
          var k :| 0 <= k < |s[1..]| && s[1..][k] == y;
          assert s[k + 1] == y;
        }
      }
      UnicosCons(s[0], resto);
    }
  }

  /** With UNIQUE numero_catalogo, the listing is strictly ordered. */
  lemma {:induction false} GetAllProductosEstricto(productos: seq<Producto>)
    requires CatalogosUnicos(productos)
    ensures EstrictamenteOrdenado(GetAllProductos(productos))
  {
    if productos != [] {
      assert productos == [productos[0]] + productos[1..];
      GetAllProductosEstricto(productos[1..]);
      var resto := GetAllProductos(productos[1..]);
      forall x | x in resto ensures x.numeroCatalogo != productos[0].numeroCatalogo {
        assert x in multiset(productos[1..]);
        var k :| 0 <= k < |productos[1..]| && productos[1..][k] == x;
        assert productos[k + 1] == x;
      }
      InsertarOrdenadoEstricto(productos[0], resto);
    }
  }

  /** In a strictly ordered sequence the first element has the least key, and no other element shares it. */
  lemma MinimoDeOrdenado(s: seq<Producto>, x: Producto)
    requires EstrictamenteOrdenado(s) && x in s
    ensures LexMenorIgual(s[0].numeroCatalogo, x.numeroCatalogo)
    ensures x.numeroCatalogo == s[0].numeroCatalogo ==> x == s[0]
  {
    var k :| 0 <= k < |s| && s[k] == x;
    if k == 0 {
      LexTotal(x.numeroCatalogo, x.numeroCatalogo);
    }
  }

  lemma ColaOrdenada(s: seq<Producto>)
    requires EstrictamenteOrdenado(s) && s != []
    ensures EstrictamenteOrdenado(s[1..])
  {
    assert forall i :: 0 <= i < |s| - 1 ==> s[1..][i] == s[i + 1];
  }

  /** Two strictly ordered arrangements of the same non-empty multiset start alike. */
  lemma MismaCabeza(a: seq<Producto>, b: seq<Producto>)
    requires EstrictamenteOrdenado(a) && EstrictamenteOrdenado(b)
    requires multiset(a) == multiset(b) && a != []
    ensures b != [] && a[0] == b[0]
  {
    assert a[0] in multiset(b);
    assert b[0] in multiset(a);
    MinimoDeOrdenado(b, a[0]);
    MinimoDeOrdenado(a, b[0]);
    LexAntisimetrico(a[0].numeroCatalogo, b[0].numeroCatalogo);
  }

  lemma MismaCola<T>(a: seq<T>, b: seq<T>)
    requires a != [] && b != [] && a[0] == b[0] && multiset(a) == multiset(b)
    ensures multiset(a[1..]) == multiset(b[1..])
  {
    assert a == [a[0]] + a[1..] && b == [b[0]] + b[1..];
    assert multiset(a[1..]) == multiset(a) - multiset{a[0]};
    assert multiset(b[1..]) == multiset(b) - multiset{b[0]};
  }

  /** Two strictly ordered arrangements of the same rows are the same sequence. */
  lemma {:induction false} OrdenEstrictoUnico(a: seq<Producto>, b: seq<Producto>)
    requires EstrictamenteOrdenado(a) && EstrictamenteOrdenado(b)
    requires multiset(a) == multiset(b)
    ensures a == b
  {
    if a == [] {
      assert |b| == |multiset(b)| == 0;
    } else {
      MismaCabeza(a, b);
      MismaCola(a, b);
      ColaOrdenada(a);
      ColaOrdenada(b);
      OrdenEstrictoUnico(a[1..], b[1..]);
      assert a == [a[0]] + a[1..] && b == [b[0]] + b[1..];
    }
  }

  /** The listing is the one strictly ordered arrangement of the table. */
  lemma GetAllProductosDeterminado(productos: seq<Producto>, r: seq<Producto>)
    requires CatalogosUnicos(productos)
    requires EstrictamenteOrdenado(r) && multiset(r) == multiset(productos)
    ensures r == GetAllProductos(productos)
  {
    GetAllProductosEstricto(productos);
    OrdenEstrictoUnico(r, GetAllProductos(productos));
  }

  // ---------------------------------------------------------------------
  // Inserts, as functions of the database state
  // ---------------------------------------------------------------------

  /** crear_cliente: one INSERT under AUTOINCREMENT, committed at once; returns lastrowid. */
  function InsertarCliente(db: Db, nombre: string, compania: Option<string>, email: Option<string>): (Db, nat)
  {
    var id := db.seqClientes + 1;
    (db.(clientes := db.clientes + [Cliente(id, nombre, compania, email)], seqClientes := id), id)
  }

  /** crear_producto: the CHECK on the currency is evaluated before the UNIQUE index;
      a violated constraint leaves the table and its counter as they were. */
  function InsertarProducto(db: Db, catalogo: string, descripcion: Option<string>, precio: real,
                            moneda: string): (Db, Result<nat, ErrorDb>)
  {
    if !MonedaPermitida(moneda) then (db, Err(ViolacionCheck))
    else if CatalogoUsado(db.productos, catalogo) then (db, Err(ViolacionUnique))
    else
      var id := db.seqProductos + 1;
      (db.(productos := db.productos + [Producto(id, catalogo, descripcion, precio, moneda)],
           seqProductos := id), Ok(id))
  }

  /** The detail rows of one quotation, numbered from `primerId` in item order. */
  function DetallesNuevos(primerId: nat, cotizacionId: nat, items: seq<Item>): seq<Detalle> {
    seq(|items|, k requires 0 <= k < |items| =>
      Detalle(primerId + k, cotizacionId, items[k].productoId, items[k].qty, items[k].precio))
  }

  /** Inserting the detail of one more item appends one row numbered after the others. */
  lemma DetallesNuevosUnoMas(primerId: nat, cotizacionId: nat, items: seq<Item>, i: nat)
    requires i < |items|
    ensures DetallesNuevos(primerId, cotizacionId, items[..i + 1])
         == DetallesNuevos(primerId, cotizacionId, items[..i])
            + [Detalle(primerId + i, cotizacionId, items[i].productoId, items[i].qty, items[i].precio)]
  {
  }

  /** Every item names an existing product. */
  predicate ProductosExisten(productos: seq<Producto>, items: seq<Item>) {
    forall k :: 0 <= k < |items| ==> ProductoExiste(productos, items[k].productoId)
  }

  /** Why one INSERT of crear_cotizacion_completa does not run: an int parameter
      SQLite cannot bind (OverflowError, which `except sqlite3.Error` does not catch),
      or a violated FOREIGN KEY (IntegrityError, which it catches). */
  datatype Rechazo = ParametroFueraDeRango | LlaveForanea

  /** The header INSERT binds `cliente_id`, then checks FOREIGN KEY (cliente_id). */
  function RechazoCabecera(clientes: seq<Cliente>, clienteId: int): Option<Rechazo> {
    if !EnteroSqlite(clienteId) then Some(ParametroFueraDeRango)
    else if !ClienteExiste(clientes, clienteId) then Some(LlaveForanea)
    else None
  }

  /** An item whose `producto_id` or `qty` SQLite cannot bind. */
  predicate ItemDesborda(item: Item) {
    !EnteroSqlite(item.productoId) || !EnteroSqlite(item.qty)
  }

  /** The detail INSERT of one item binds its ints, then checks FOREIGN KEY (producto_id). */
  function RechazoItem(productos: seq<Producto>, item: Item): Option<Rechazo> {
    if ItemDesborda(item) then Some(ParametroFueraDeRango)
    else if !ProductoExiste(productos, item.productoId) then Some(LlaveForanea)
    else None
  }

  /** The detail loop stops at the first item, in item order, whose INSERT does not run. */
  function RechazoDetalles(productos: seq<Producto>, items: seq<Item>): Option<Rechazo>
    decreases |items|
  {
    if items == [] then None
    else if RechazoItem(productos, items[0]).Some? then RechazoItem(productos, items[0])
    else RechazoDetalles(productos, items[1..])
  }

  /** Every item's ints can be bound. */
  predicate ItemsEnRango(items: seq<Item>) {
    forall k :: 0 <= k < |items| ==> !ItemDesborda(items[k])
  }

  /** Some item's ints cannot be bound, and every item before it can be inserted. */
  predicate DesbordaAntesDeFallar(productos: seq<Producto>, items: seq<Item>) {
    exists k :: 0 <= k < |items| && ItemDesborda(items[k])
      && forall j :: 0 <= j < k ==> !ItemDesborda(items[j]) && ProductoExiste(productos, items[j].productoId)
  }

  /** The detail loop runs to the end exactly when every item is in range and names
      an existing product; it raises OverflowError exactly when an item out of range
      comes before any item with a missing product. */
  lemma {:induction false} RechazoDetallesCorrecto(productos: seq<Producto>, items: seq<Item>)
    ensures RechazoDetalles(productos, items).None? <==> ItemsEnRango(items) && ProductosExisten(productos, items)
    ensures RechazoDetalles(productos, items) == Some(ParametroFueraDeRango) <==> DesbordaAntesDeFallar(productos, items)
    decreases |items|
  {
    if items != [] {
      var t := items[1..];
      RechazoDetallesCorrecto(productos, t);
      if RechazoItem(productos, items[0]).None? {
        if ItemsEnRango(t) && ProductosExisten(productos, t) {
          forall k | 0 <= k < |items|
            ensures !ItemDesborda(items[k]) && ProductoExiste(productos, items[k].productoId)
          {
            if k > 0 {
              assert items[k] == t[k - 1];
            }
          }
        }
        if ItemsEnRango(items) && ProductosExisten(productos, items) {
          forall k | 0 <= k < |t| ensures !ItemDesborda(t[k]) && ProductoExiste(productos, t[k].productoId) {
            assert t[k] == items[k + 1];
          }
        }
        if DesbordaAntesDeFallar(productos, t) {
          var k :| 0 <= k < |t| && ItemDesborda(t[k])
            && forall j :: 0 <= j < k ==> !ItemDesborda(t[j]) && ProductoExiste(productos, t[j].productoId);
          assert items[k + 1] == t[k];
          forall j | 0 <= j < k + 1
            ensures !ItemDesborda(items[j]) && ProductoExiste(productos, items[j].productoId)
          {
            if j > 0 {
              assert items[j] == t[j - 1];
            }
          }
        }
        if DesbordaAntesDeFallar(productos, items) {
          var k :| 0 <= k < |items| && ItemDesborda(items[k])
            && forall j :: 0 <= j < k ==> !ItemDesborda(items[j]) && ProductoExiste(productos, items[j].productoId);
          assert k > 0;
          assert t[k - 1] == items[k];
          forall j | 0 <= j < k - 1
            ensures !ItemDesborda(t[j]) && ProductoExiste(productos, t[j].productoId)
          {
            assert t[j] == items[j + 1];
          }
        }
      } else if ItemDesborda(items[0]) {
        assert !ItemsEnRango(items);
        assert DesbordaAntesDeFallar(productos, items);
      } else {
        assert !ProductosExisten(productos, items);
        forall k | 0 <= k < |items| && ItemDesborda(items[k])
          ensures !(forall j :: 0 <= j < k ==> !ItemDesborda(items[j]) && ProductoExiste(productos, items[j].productoId))
        {
          assert k > 0;
        }
      }
    }
  }

  /** Why crear_cotizacion_completa stops: the header comes first, then the items. */
  function RechazoCotizacion(db: Db, clienteId: int, items: seq<Item>): Option<Rechazo> {
    var cabecera := RechazoCabecera(db.clientes, clienteId);
    if cabecera.Some? then cabecera else RechazoDetalles(db.productos, items)
  }

  /** Every INSERT runs exactly when the client and all products exist and every int
      is in range; OverflowError comes exactly from an out-of-range client id, or from
      an out-of-range item ahead of any missing product once the client exists. */
  lemma RechazoCotizacionCorrecto(db: Db, clienteId: int, items: seq<Item>)
    ensures RechazoCotizacion(db, clienteId, items).None? <==>
      EnteroSqlite(clienteId) && ClienteExiste(db.clientes, clienteId)
      && ItemsEnRango(items) && ProductosExisten(db.productos, items)
    ensures RechazoCotizacion(db, clienteId, items) == Some(ParametroFueraDeRango) <==>
      !EnteroSqlite(clienteId) || (ClienteExiste(db.clientes, clienteId) && DesbordaAntesDeFallar(db.productos, items))
  {
    RechazoDetallesCorrecto(db.productos, items);
  }

  /** crear_cotizacion_completa: BEGIN; one header row; one detail row per item; COMMIT.
      A foreign-key failure anywhere rolls back to the state before BEGIN and gives
      None. An int parameter out of range raises OverflowError out of the function
      with the transaction still open; it is never committed, so the committed
      tables are as before. */
  function InsertarCotizacion(db: Db, clienteId: int, total: real, moneda: string, tipoCambio: real,
                              fecha: string, items: seq<Item>): (Db, Result<Option<nat>, ErrorDb>)
  {
    match RechazoCotizacion(db, clienteId, items)
    case Some(ParametroFueraDeRango) => (db, Err(EnteroDesbordado))
    case Some(LlaveForanea) => (db, Ok(None))
    case None =>
      (AgregarCotizacion(db, clienteId, total, moneda, tipoCambio, fecha, items), Ok(Some(db.seqCotizaciones + 1)))
  }

  /** The committed state after every INSERT of crear_cotizacion_completa has run. */
  function AgregarCotizacion(db: Db, clienteId: int, total: real, moneda: string, tipoCambio: real,
                             fecha: string, items: seq<Item>): Db
  {
    var id := db.seqCotizaciones + 1;
    db.(cotizaciones := db.cotizaciones
                        + [Cotizacion(id, clienteId, fecha, total, moneda, tipoCambio, EstadoPorDefecto)],
        seqCotizaciones := id,
        detalles := db.detalles + DetallesNuevos(db.seqDetalles + 1, id, items),
        seqDetalles := db.seqDetalles + |items|)
  }

  // ---------------------------------------------------------------------
  // What the inserts promise
  // ---------------------------------------------------------------------

  /** The next AUTOINCREMENT id is carried by no row yet. */
  lemma IdSiguienteCliente(db: Db)
    requires AutoIncremento(IdsClientes(db.clientes), db.seqClientes)
    ensures !ClienteExiste(db.clientes, db.seqClientes + 1)
  {
    forall c | c in db.clientes ensures c.id != db.seqClientes + 1 {
      var i :| 0 <= i < |db.clientes| && db.clientes[i] == c;
      assert IdsClientes(db.clientes)[i] == c.id;
    }
  }

  /** The next AUTOINCREMENT id is carried by no row yet. */
  lemma IdSiguienteProducto(db: Db)
    requires AutoIncremento(IdsProductos(db.productos), db.seqProductos)
    ensures !ProductoExiste(db.productos, db.seqProductos + 1)
  {
    forall p | p in db.productos ensures p.id != db.seqProductos + 1 {
      var i :| 0 <= i < |db.productos| && db.productos[i] == p;
      assert IdsProductos(db.productos)[i] == p.id;
    }
  }

  /** The next AUTOINCREMENT id is carried by no row yet. */
  lemma IdSiguienteCotizacion(db: Db)
    requires AutoIncremento(IdsCotizaciones(db.cotizaciones), db.seqCotizaciones)
    ensures !CotizacionExiste(db.cotizaciones, db.seqCotizaciones + 1)
  {
    forall q | q in db.cotizaciones ensures q.id != db.seqCotizaciones + 1 {
      var i :| 0 <= i < |db.cotizaciones| && db.cotizaciones[i] == q;
      assert IdsCotizaciones(db.cotizaciones)[i] == q.id;
    }
  }

  lemma InsertarClienteConsistent(db: Db, nombre: string, compania: Option<string>, email: Option<string>)
    requires Consistent(db)
    ensures Consistent(InsertarCliente(db, nombre, compania, email).0)
  {
    var db' := InsertarCliente(db, nombre, compania, email).0;
    forall i | 0 <= i < |db.cotizaciones|
      ensures ClienteExiste(db'.clientes, db.cotizaciones[i].clienteId)
    {
      assert ClienteExiste(db.clientes, db.cotizaciones[i].clienteId);
      var c :| c in db.clientes && c.id == db.cotizaciones[i].clienteId;
      assert c in db'.clientes;
    }
    assert IdsClientes(db'.clientes) == IdsClientes(db.clientes) + [db'.seqClientes];
  }

  lemma InsertarProductoConsistent(db: Db, catalogo: string, descripcion: Option<string>, precio: real,
                                   moneda: string)
    requires Consistent(db)
    ensures Consistent(InsertarProducto(db, catalogo, descripcion, precio, moneda).0)
  {
    var (db', r) := InsertarProducto(db, catalogo, descripcion, precio, moneda);
    if r.Ok? {
      forall i | 0 <= i < |db.detalles|
        ensures ProductoExiste(db'.productos, db.detalles[i].productoId)
      {
        assert ProductoExiste(db.productos, db.detalles[i].productoId);
        var q :| q in db.productos && q.id == db.detalles[i].productoId;
        assert q in db'.productos;
      }
      assert IdsProductos(db'.productos) == IdsProductos(db.productos) + [r.value];
      forall i, j | 0 <= i < j < |db'.productos|
        ensures db'.productos[i].numeroCatalogo != db'.productos[j].numeroCatalogo
      {
        if j == |db.productos| {
          assert db'.productos[i] in db.productos;
        }
      }
    }
  }

  lemma InsertarCotizacionConsistent(db: Db, clienteId: int, total: real, moneda: string,
                                     tipoCambio: real, fecha: string, items: seq<Item>)
    requires Consistent(db)
    ensures Consistent(InsertarCotizacion(db, clienteId, total, moneda, tipoCambio, fecha, items).0)
  {
    if RechazoCotizacion(db, clienteId, items).None? {
      RechazoCotizacionCorrecto(db, clienteId, items);
      AgregarCotizacionConsistent(db, clienteId, total, moneda, tipoCambio, fecha, items);
    }
  }

  /** Adding a header whose client exists and details whose products exist keeps
      every constraint. */
  lemma AgregarCotizacionConsistent(db: Db, clienteId: int, total: real, moneda: string,
                                    tipoCambio: real, fecha: string, items: seq<Item>)
    requires Consistent(db)
    requires ClienteExiste(db.clientes, clienteId) && ProductosExisten(db.productos, items)
    ensures Consistent(AgregarCotizacion(db, clienteId, total, moneda, tipoCambio, fecha, items))
  {
    var db' := AgregarCotizacion(db, clienteId, total, moneda, tipoCambio, fecha, items);
    var id := db.seqCotizaciones + 1;
    var nuevos := DetallesNuevos(db.seqDetalles + 1, id, items);
    assert IdsCotizaciones(db'.cotizaciones) == IdsCotizaciones(db.cotizaciones) + [id];
    forall i | 0 <= i < |db'.detalles|
      ensures CotizacionExiste(db'.cotizaciones, db'.detalles[i].cotizacionId)
      ensures ProductoExiste(db'.productos, db'.detalles[i].productoId)
    {
      if i < |db.detalles| {
        assert db'.detalles[i] == db.detalles[i];
        assert CotizacionExiste(db.cotizaciones, db.detalles[i].cotizacionId);
        var q :| q in db.cotizaciones && q.id == db.detalles[i].cotizacionId;
        assert q in db'.cotizaciones;
      } else {
        assert db'.detalles[i] == nuevos[i - |db.detalles|];
        assert db'.cotizaciones[|db.cotizaciones|].id == id;
      }
    }
    forall i | 0 <= i < |db'.detalles|
      ensures 1 <= IdsDetalles(db'.detalles)[i] <= db'.seqDetalles
    {
      if i < |db.detalles| {
        assert IdsDetalles(db'.detalles)[i] == IdsDetalles(db.detalles)[i];
      } else {
        assert db'.detalles[i] == nuevos[i - |db.detalles|];
      }
    }
    forall i, j | 0 <= i < j < |db'.detalles|
      ensures IdsDetalles(db'.detalles)[i] < IdsDetalles(db'.detalles)[j]
    {
      if j < |db.detalles| {
        assert IdsDetalles(db.detalles)[i] < IdsDetalles(db.detalles)[j];
      } else if i < |db.detalles| {
        assert IdsDetalles(db.detalles)[i] <= db.seqDetalles;
        assert db'.detalles[j] == nuevos[j - |db.detalles|];
      } else {
        assert db'.detalles[i] == nuevos[i - |db.detalles|];
        assert db'.detalles[j] == nuevos[j - |db.detalles|];
      }
    }
  }

  /** crear_cliente hands out an id no row had and keeps every constraint; a lookup
      by that id returns exactly the submitted fields, and no other table changes. */
  lemma CrearClienteRoundTrip(db: Db, nombre: string, compania: Option<string>, email: Option<string>)
    requires Consistent(db)
    ensures var (db', id) := InsertarCliente(db, nombre, compania, email);
      && !ClienteExiste(db.clientes, id)
      && Consistent(db')
      && BuscarClientePorId(db'.clientes, id) == Some(Cliente(id, nombre, compania, email))
      && db'.clientes == db.clientes + [Cliente(id, nombre, compania, email)]
      && db' == db.(clientes := db'.clientes, seqClientes := id)
  {
    var (db', id) := InsertarCliente(db, nombre, compania, email);
    IdSiguienteCliente(db);
    InsertarClienteConsistent(db, nombre, compania, email);
    BuscarClientePorIdFila(db'.clientes, |db.clientes|);
  }

  /** crear_producto fails, changing nothing, exactly when the currency is not USD/MXN
      or the catalogue number is taken; otherwise it appends exactly one row with a
      fresh id, and that row is found both by id and by catalogue number. */
  lemma CrearProductoContrato(db: Db, catalogo: string, descripcion: Option<string>, precio: real,
                              moneda: string)
    requires Consistent(db)
    ensures var (db', r) := InsertarProducto(db, catalogo, descripcion, precio, moneda);
      && Consistent(db')
      && (r == Err(ViolacionCheck) <==> !MonedaPermitida(moneda))
      && (r == Err(ViolacionUnique) <==> MonedaPermitida(moneda) && CatalogoUsado(db.productos, catalogo))
      && (r.Err? ==> db' == db)
      && (r.Ok? ==>
            var p := Producto(r.value, catalogo, descripcion, precio, moneda);
            && !ProductoExiste(db.productos, r.value)
            && db'.productos == db.productos + [p]
            && db' == db.(productos := db'.productos, seqProductos := r.value)
            && BuscarProductoPorId(db'.productos, r.value) == Some(p)
            && BuscarProductoPorCatalogo(db'.productos, catalogo) == Some(p))
  {
    var (db', r) := InsertarProducto(db, catalogo, descripcion, precio, moneda);
    InsertarProductoConsistent(db, catalogo, descripcion, precio, moneda);
    if r.Ok? {
      IdSiguienteProducto(db);
      BuscarProductoPorIdFila(db'.productos, |db.productos|);
      BuscarProductoPorCatalogoFila(db'.productos, |db.productos|);
    }
  }

  /** How a detail row records the item it was inserted for. */
  predicate DetalleDe(d: Detalle, cotizacionId: nat, item: Item) {
    && d.cotizacionId == cotizacionId
    && d.productoId == item.productoId
    && d.cantidad == item.qty
    && d.precioUnitarioFinal == item.precio
  }

  /** crear_cotizacion_completa is all-or-nothing. It stores the quotation exactly
      when the client and every item's product exist and every int it binds fits an
      SQLite INTEGER; then it adds one 'Pendiente' header with a fresh id and the
      given total, currency and rate, plus one detail row with a fresh id per item,
      carrying that header id and the item's product, quantity and price; the client
      and product tables stay as they were. It raises OverflowError exactly when the
      client id is out of range, or the client exists and an item out of range comes
      before any item with a missing product; otherwise it returns None. Whenever it
      does not store the quotation, nothing changes at all. */
  lemma CrearCotizacionCompletaAtomica(db: Db, clienteId: int, total: real, moneda: string,
                                       tipoCambio: real, fecha: string, items: seq<Item>)
    requires Consistent(db)
    ensures var (db', r) := InsertarCotizacion(db, clienteId, total, moneda, tipoCambio, fecha, items);
      && Consistent(db')
      && (r.Ok? && r.value.Some? <==>
            && EnteroSqlite(clienteId) && ClienteExiste(db.clientes, clienteId)
            && ItemsEnRango(items) && ProductosExisten(db.productos, items))
      && (r.Err? ==> r.error == EnteroDesbordado)
      && (r.Err? <==>
            || !EnteroSqlite(clienteId)
            || (ClienteExiste(db.clientes, clienteId) && DesbordaAntesDeFallar(db.productos, items)))
      && (!(r.Ok? && r.value.Some?) ==> db' == db)
      && (r.Ok? && r.value.Some? ==>
            var id := r.value.value;
            && !CotizacionExiste(db.cotizaciones, id)
            && db'.cotizaciones == db.cotizaciones
                 + [Cotizacion(id, clienteId, fecha, total, moneda, tipoCambio, "Pendiente")]
            && |db'.detalles| == |db.detalles| + |items|
            && db'.detalles[..|db.detalles|] == db.detalles
            && (forall k :: 0 <= k < |items| ==> DetalleDe(db'.detalles[|db.detalles|..][k], id, items[k]))
            && (forall j, k :: 0 <= j < |db.detalles| && 0 <= k < |items| ==>
                  db.detalles[j].id != db'.detalles[|db.detalles|..][k].id)
            && db'.clientes == db.clientes && db'.productos == db.productos)
  {
    InsertarCotizacionConsistent(db, clienteId, total, moneda, tipoCambio, fecha, items);
    RechazoCotizacionCorrecto(db, clienteId, items);
    if RechazoCotizacion(db, clienteId, items).None? {
      var db' := AgregarCotizacion(db, clienteId, total, moneda, tipoCambio, fecha, items);
      IdSiguienteCotizacion(db);
      assert db'.detalles[..|db.detalles|] == db.detalles;
      assert db'.detalles[|db.detalles|..] == DetallesNuevos(db.seqDetalles + 1, db.seqCotizaciones + 1, items);
      forall j | 0 <= j < |db.detalles| ensures db.detalles[j].id <= db.seqDetalles {
        assert IdsDetalles(db.detalles)[j] == db.detalles[j].id;
      }
    }
  }

  // ---------------------------------------------------------------------
  // The connection: the tables updated in place
  // ---------------------------------------------------------------------

  /** An open connection to the database file; every insert commits before returning. */
  class Conexion {
    var clientes: seq<Cliente>
    var productos: seq<Producto>
    var cotizaciones: seq<Cotizacion>
    var detalles: seq<Detalle>
    var seqClientes: nat
    var seqProductos: nat
    var seqCotizaciones: nat
    var seqDetalles: nat

    /** The committed content of the database. */
    function Tablas(): Db
      reads this
    {
      Db(clientes, productos, cotizaciones, detalles, seqClientes, seqProductos, seqCotizaciones, seqDetalles)
    }

    ghost predicate Valid()
      reads this
    {
      Consistent(Tablas())
    }

    /** A new database file once the four CREATE TABLE statements have run. */
    constructor ()
      ensures Valid() && Tablas() == Vacia()
    {
      clientes, productos, cotizaciones, detalles := [], [], [], [];
      seqClientes, seqProductos, seqCotizaciones, seqDetalles := 0, 0, 0, 0;
    }

    method CrearCliente(nombre: string, compania: Option<string>, email: Option<string>) returns (id: nat)
      requires Valid()
      modifies this
      ensures Valid()
      ensures (Tablas(), id) == InsertarCliente(old(Tablas()), nombre, compania, email)
    {
      InsertarClienteConsistent(Tablas(), nombre, compania, email);
      id := seqClientes + 1;
      clientes := clientes + [Cliente(id, nombre, compania, email)];
      seqClientes := id;
    }

    method CrearProducto(catalogo: string, descripcion: Option<string>, precio: real, moneda: string)
      returns (r: Result<nat, ErrorDb>)
      requires Valid()
      modifies this
      ensures Valid()
      ensures (Tablas(), r) == InsertarProducto(old(Tablas()), catalogo, descripcion, precio, moneda)
    {
      InsertarProductoConsistent(Tablas(), catalogo, descripcion, precio, moneda);
      if !MonedaPermitida(moneda) {
        return Err(ViolacionCheck);
      }
      if BuscarProductoPorCatalogo(productos, catalogo).Some? {
        return Err(ViolacionUnique);
      }
      var id := seqProductos + 1;
      productos := productos + [Producto(id, catalogo, descripcion, precio, moneda)];
      seqProductos := id;
      r := Ok(id);
    }

    /** The detail loop of crear_cotizacion_completa: one INSERT per item, in item
        order, each binding its ints and then checked against FOREIGN KEY
        (producto_id). It stops at the first item whose INSERT does not run, leaving
        the rollback to the caller. */
    method InsertarDetalles(cotizacionId: nat, items: seq<Item>) returns (rechazo: Option<Rechazo>)
      modifies this
      ensures clientes == old(clientes) && productos == old(productos) && cotizaciones == old(cotizaciones)
      ensures seqClientes == old(seqClientes) && seqProductos == old(seqProductos)
      ensures seqCotizaciones == old(seqCotizaciones)
      ensures rechazo == RechazoDetalles(productos, items)
      ensures rechazo.None? ==> detalles == old(detalles) + DetallesNuevos(old(seqDetalles) + 1, cotizacionId, items)
      ensures rechazo.None? ==> seqDetalles == old(seqDetalles) + |items|
    {
      var i := 0;
      while i < |items|
        invariant 0 <= i <= |items|
        invariant clientes == old(clientes) && productos == old(productos) && cotizaciones == old(cotizaciones)
        invariant seqClientes == old(seqClientes) && seqProductos == old(seqProductos)
        invariant seqCotizaciones == old(seqCotizaciones)
        invariant detalles == old(detalles) + DetallesNuevos(old(seqDetalles) + 1, cotizacionId, items[..i])
        invariant seqDetalles == old(seqDetalles) + i
        invariant RechazoDetalles(productos, items) == RechazoDetalles(productos, items[i..])
      {
        assert items[i..][0] == items[i];
        if !EnteroSqlite(items[i].productoId) || !EnteroSqlite(items[i].qty) {
          // binding the parameters raises OverflowError
          return Some(ParametroFueraDeRango);
        }
        if BuscarProductoPorId(productos, items[i].productoId).None? {
          // this INSERT violates FOREIGN KEY (producto_id)
          return Some(LlaveForanea);
        }
        var detalleId := seqDetalles + 1;
        detalles := detalles + [Detalle(detalleId, cotizacionId, items[i].productoId, items[i].qty, items[i].precio)];
        seqDetalles := detalleId;
        DetallesNuevosUnoMas(old(seqDetalles) + 1, cotizacionId, items, i);
        assert items[..i + 1][i] == items[i];
        assert items[i..][1..] == items[i + 1..];
        i := i + 1;
      }
      assert items[..i] == items;
      rechazo := None;
    }

    method CrearCotizacionCompleta(clienteId: int, total: real, moneda: string, tipoCambio: real,
                                   fecha: string, items: seq<Item>) returns (r: Result<Option<nat>, ErrorDb>)
      requires Valid()
      modifies this
      ensures Valid()
      ensures (Tablas(), r) == InsertarCotizacion(old(Tablas()), clienteId, total, moneda, tipoCambio, fecha, items)
    {
      InsertarCotizacionConsistent(Tablas(), clienteId, total, moneda, tipoCambio, fecha, items);
      ghost var db0 := Tablas();
      // BEGIN TRANSACTION: the committed state
      var cotizaciones0, detalles0 := cotizaciones, detalles;
      var seqCotizaciones0, seqDetalles0 := seqCotizaciones, seqDetalles;
      if !EnteroSqlite(clienteId) {
        // binding cliente_id raises OverflowError
        return Err(EnteroDesbordado);
      }
      if BuscarClientePorId(clientes, clienteId).None? {
        // the header INSERT violates FOREIGN KEY (cliente_id)
        return Ok(None);
      }
      var cotizacionId := seqCotizaciones + 1;
      cotizaciones := cotizaciones + [Cotizacion(cotizacionId, clienteId, fecha, total, moneda, tipoCambio, EstadoPorDefecto)];
      seqCotizaciones := cotizacionId;
      var rechazo := InsertarDetalles(cotizacionId, items);
      assert RechazoCotizacion(db0, clienteId, items) == rechazo;
      if rechazo.Some? {
        // ROLLBACK after an IntegrityError; after an OverflowError the transaction is
        // never committed. Either way only the committed state remains.
        cotizaciones, detalles := cotizaciones0, detalles0;
        seqCotizaciones, seqDetalles := seqCotizaciones0, seqDetalles0;
        if rechazo.value == ParametroFueraDeRango {
          return Err(EnteroDesbordado);
        }
        return Ok(None);
      }
      // COMMIT
      assert Tablas() == AgregarCotizacion(db0, clienteId, total, moneda, tipoCambio, fecha, items);
      r := Ok(Some(cotizacionId));
    }
  }
}
