/** The quotation workflow of app.py's `generar_cotizacion_pdf`: resolve or create
    the client, resolve or create the product, price the single line, store the
    quotation through the connection, and derive the folio and the file name of the
    document sent back. Any exception ends the request with an error message; what
    the connection committed before that stays committed. */
module App {
  import opened Wrappers
  import opened DbManager
  import opened Precios

  // ---------------------------------------------------------------------
  // The submitted form
  // ---------------------------------------------------------------------

  /** `cliente_id`: "nuevo" with the three new-client fields, or an id as text
      together with what `int()` makes of it (None when `int()` raises). */
  datatype SeleccionCliente =
    | ClienteNuevo(nombre: string, compania: string, email: string)
    | ClienteExistente(id: Option<int>)

  /** `producto_id`: "nuevo" with the new-product fields (the price as `float()`
      parses it), or an id as `int()` parses it. */
  datatype SeleccionProducto =
    | ProductoNuevo(catalogo: string, descripcion: string, precio: Option<real>, moneda: string)
    | ProductoExistente(id: Option<int>)

  /** The form fields the handler reads; `cantidad` as `int()` parses it. */
  datatype Formulario = Formulario(cliente: SeleccionCliente, producto: SeleccionProducto,
                                   monedaCotizacion: string, tipoCambio: CampoTipoCambio,
                                   cantidad: Option<int>)

  /** `datetime.now()`: its year and its `isoformat()`. */
  datatype Fecha = Fecha(anio: nat, iso: string)

  /** The `producto` dict: built from the form (it has the key 'catalogo'), or
      copied from a Productos row (whose key is 'numero_catalogo'). */
  datatype ProductoRegistro =
    | DelFormulario(id: nat, catalogo: string, descripcion: string, precioBase: real, monedaBase: string)
    | DeFila(fila: Producto)
  {
    function PrecioBase(): real {
      if DelFormulario? then precioBase else fila.precioBase
    }

    function MonedaBase(): string {
      if DelFormulario? then monedaBase else fila.monedaBase
    }
  }

  /** The exception that ends the request. */
  datatype Fallo =
    | ValorInvalido                  // int() or float() of a form field raises ValueError
    | ClienteInexistente             // dict(None): no client with that id
    | ProductoInexistente            // dict(None): no product with that id
    | Integridad(causa: ErrorDb)     // crear_producto raises IntegrityError
    | Desborde                       // an int SQLite cannot bind as INTEGER: OverflowError
    | DivisionEntreCero              // MXN price quoted in USD at rate 0
    | LlaveCatalogo                  // producto['catalogo'] on a row-built dict: KeyError
    | FolioNulo                      // formatting a None folio_base: TypeError
    | DocumentoNoEnviado             // rendering the PDF or send_file raises

  /** The response that sends the document: its folio, the file name sent, the
      stored quotation id, and the client and line item printed on it. */
  datatype Envio = Envio(folio: string, archivo: string, cotizacionId: nat, cliente: Cliente, item: Item)

  // ---------------------------------------------------------------------
  // The workflow as a function of the database state
  // ---------------------------------------------------------------------

  /** Step 2: a new client is inserted and committed at once. */
  function ResolverCliente(db: Db, sel: SeleccionCliente): (Db, Result<Cliente, Fallo>) {
    match sel
    case ClienteNuevo(nombre, compania, email) =>
      var (db1, id) := InsertarCliente(db, nombre, Some(compania), Some(email));
      (db1, Ok(Cliente(id, nombre, Some(compania), Some(email))))
    case ClienteExistente(id) =>
      if id.None? then (db, Err(ValorInvalido))
      else if !EnteroSqlite(id.value) then (db, Err(Desborde))
      else match BuscarClientePorId(db.clientes, id.value)
        case None => (db, Err(ClienteInexistente))
        case Some(c) => (db, Ok(c))
  }

  /** Step 3: the price is parsed before a new product is inserted and committed. */
  function ResolverProducto(db: Db, sel: SeleccionProducto): (Db, Result<ProductoRegistro, Fallo>) {
    match sel
    case ProductoNuevo(catalogo, descripcion, precio, moneda) =>
      if precio.None? then (db, Err(ValorInvalido))
      else
        var (db2, r) := InsertarProducto(db, catalogo, Some(descripcion), precio.value, moneda);
        if r.Err? then (db2, Err(Integridad(r.error)))
        else (db2, Ok(DelFormulario(r.value, catalogo, descripcion, precio.value, moneda)))
    case ProductoExistente(id) =>
      if id.None? then (db, Err(ValorInvalido))
      else if !EnteroSqlite(id.value) then (db, Err(Desborde))
      else match BuscarProductoPorId(db.productos, id.value)
        case None => (db, Err(ProductoInexistente))
        case Some(p) => (db, Ok(DeFila(p)))
  }

  /** Step 5: the line item; reading 'catalogo' of a row-built dict raises KeyError. */
  function ConstruirItem(producto: ProductoRegistro, qty: int, precio: real, subtotal: real): Result<Item, Fallo> {
    match producto
    case DelFormulario(id, catalogo, descripcion, _, _) => Ok(Item(id, qty, catalogo, descripcion, precio, subtotal))
    case DeFila(_) => Err(LlaveCatalogo)
  }

  /** Steps 4 to 7, once client and product are resolved. */
  function Cotizar(db: Db, cliente: Cliente, producto: ProductoRegistro, f: Formulario, fecha: Fecha,
                   documentoEnviado: bool): (Db, Result<Envio, Fallo>)
  {
    var tc := TipoCambioDia(f.tipoCambio);
    if tc.None? || f.cantidad.None? then (db, Err(ValorInvalido))
    else
      var precio := PrecioConvertido(producto.PrecioBase(), producto.MonedaBase(), f.monedaCotizacion, tc.value);
      if precio.None? then (db, Err(DivisionEntreCero))
      else
        var qty := f.cantidad.value;
        var subtotal := Subtotal(precio.value, qty);
        match ConstruirItem(producto, qty, precio.value, subtotal)
        case Err(e) => (db, Err(e))
        case Ok(item) =>
          var (db3, folioBase) := InsertarCotizacion(db, cliente.id, subtotal, f.monedaCotizacion,
                                                     tc.value, fecha.iso, [item]);
          if folioBase.Err? then (db3, Err(Desborde))
          else if folioBase.value.None? then (db3, Err(FolioNulo))
          else
            var folio := Folio(fecha.anio, folioBase.value.value);
            if !documentoEnviado then (db3, Err(DocumentoNoEnviado))
            else (db3, Ok(Envio(folio, NombreArchivo(folio), folioBase.value.value, cliente, item)))
  }

  /** generar_cotizacion_pdf: the committed database after the request, and either
      the document sent or the exception that ended the request. */
  function Flujo(db: Db, f: Formulario, fecha: Fecha, documentoEnviado: bool): (Db, Result<Envio, Fallo>) {
    var (db1, rc) := ResolverCliente(db, f.cliente);
    if rc.Err? then (db1, Err(rc.error))
    else
      var (db2, rp) := ResolverProducto(db1, f.producto);
      if rp.Err? then (db2, Err(rp.error))
      else Cotizar(db2, rc.value, rp.value, f, fecha, documentoEnviado)
  }

  // ---------------------------------------------------------------------
  // The workflow over a connection
  // ---------------------------------------------------------------------

  /** The request handler, calling the connection's inserts in the source's order;
      `documentoEnviado` says whether rendering the PDF and sending it succeed. */
  method GenerarCotizacionPdf(conn: Conexion, f: Formulario, fecha: Fecha, documentoEnviado: bool)
    returns (r: Result<Envio, Fallo>)
    requires conn.Valid()
    modifies conn
    ensures conn.Valid()
    ensures (conn.Tablas(), r) == Flujo(old(conn.Tablas()), f, fecha, documentoEnviado)
  {
    ghost var db0 := conn.Tablas();
    // 2. client
    var cliente: Cliente;
    match f.cliente {
      case ClienteNuevo(nombre, compania, email) =>
        var clienteId := conn.CrearCliente(nombre, Some(compania), Some(email));
        cliente := Cliente(clienteId, nombre, Some(compania), Some(email));
      case ClienteExistente(id) =>
        if id.None? {
          return Err(ValorInvalido);
        }
        if !EnteroSqlite(id.value) {
          // binding the id raises OverflowError
          return Err(Desborde);
        }
        var clienteDb := BuscarClientePorId(conn.clientes, id.value);
        if clienteDb.None? {
          return Err(ClienteInexistente);
        }
        cliente := clienteDb.value;
    }
    ghost var db1 := conn.Tablas();
    assert ResolverCliente(db0, f.cliente) == (db1, Ok(cliente));
    // 3. product
    var producto: ProductoRegistro;
    match f.producto {
      case ProductoNuevo(catalogo, descripcion, precio, moneda) =>
        if precio.None? {
          return Err(ValorInvalido);
        }
        var productoId := conn.CrearProducto(catalogo, Some(descripcion), precio.value, moneda);
        if productoId.Err? {
          return Err(Integridad(productoId.error));
        }
        producto := DelFormulario(productoId.value, catalogo, descripcion, precio.value, moneda);
      case ProductoExistente(id) =>
        if id.None? {
          return Err(ValorInvalido);
        }
        if !EnteroSqlite(id.value) {
          // binding the id raises OverflowError
          return Err(Desborde);
        }
        var productoDb := BuscarProductoPorId(conn.productos, id.value);
        if productoDb.None? {
          return Err(ProductoInexistente);
        }
        producto := DeFila(productoDb.value);
    }
    assert ResolverProducto(db1, f.producto) == (conn.Tablas(), Ok(producto));
    // 4. pricing
    var tcDia := TipoCambioDia(f.tipoCambio);
    if tcDia.None? || f.cantidad.None? {
      return Err(ValorInvalido);
    }
    var qty := f.cantidad.value;
    var precioConvertido := PrecioConvertido(producto.PrecioBase(), producto.MonedaBase(), f.monedaCotizacion, tcDia.value);
    if precioConvertido.None? {
      return Err(DivisionEntreCero);
    }
    var subtotalItem := Subtotal(precioConvertido.value, qty);
    // 5. the line item
    var item := ConstruirItem(producto, qty, precioConvertido.value, subtotalItem);
    if item.Err? {
      return Err(item.error);
    }
    // 6. store the quotation
    var folioBase := conn.CrearCotizacionCompleta(cliente.id, subtotalItem, f.monedaCotizacion, tcDia.value,
                                                  fecha.iso, [item.value]);
    if folioBase.Err? {
      return Err(Desborde);
    }
    if folioBase.value.None? {
      return Err(FolioNulo);
    }
    var folio := Folio(fecha.anio, folioBase.value.value);
    // 7. render and send the document
    if !documentoEnviado {
      return Err(DocumentoNoEnviado);
    }
    r := Ok(Envio(folio, NombreArchivo(folio), folioBase.value.value, cliente, item.value));
  }

  // ---------------------------------------------------------------------
  // What the workflow promises
  // ---------------------------------------------------------------------

  /** Resolving the client touches only the client table: a new client is appended
      with the next id and the submitted fields; an existing one is looked up, and a
      malformed, out-of-range or unknown id fails without changing anything. */
  lemma ResolverClienteContrato(db: Db, sel: SeleccionCliente)
    ensures var (db1, r) := ResolverCliente(db, sel);
      && db1 == db.(clientes := db1.clientes, seqClientes := db1.seqClientes)
      && (r.Ok? <==> ClienteResoluble(db, sel))
      && (r.Ok? ==> ClienteExiste(db1.clientes, r.value.id))
      && (sel.ClienteNuevo? ==>
            && r == Ok(Cliente(db.seqClientes + 1, sel.nombre, Some(sel.compania), Some(sel.email)))
            && db1.clientes == db.clientes + [r.value]
            && db1.seqClientes == db.seqClientes + 1)
      && (sel.ClienteExistente? ==>
            && db1 == db
            && (r == Err(ValorInvalido) <==> sel.id.None?)
            && (r == Err(Desborde) <==> sel.id.Some? && !EnteroSqlite(sel.id.value))
            && (r == Err(ClienteInexistente) <==>
                  sel.id.Some? && EnteroSqlite(sel.id.value) && !ClienteExiste(db.clientes, sel.id.value))
            && (r.Ok? ==> r.value in db.clientes && r.value.id == sel.id.value
                          && BuscarClientePorId(db.clientes, r.value.id) == Some(r.value)))
  {
    var (db1, r) := ResolverCliente(db, sel);
    if sel.ClienteNuevo? {
      assert db1.clientes[|db.clientes|] == r.value;
    }
  }

  /** A new client gets an id no client had and is found by it. */
  lemma ClienteNuevoRegistrado(db: Db, sel: SeleccionCliente)
    requires AutoIncremento(IdsClientes(db.clientes), db.seqClientes) && sel.ClienteNuevo?
    ensures var (db1, r) := ResolverCliente(db, sel);
      && !ClienteExiste(db.clientes, r.value.id)
      && BuscarClientePorId(db1.clientes, r.value.id) == Some(r.value)
  {
    var (db1, r) := ResolverCliente(db, sel);
    IdSiguienteCliente(db);
    assert IdsClientes(db1.clientes) == IdsClientes(db.clientes) + [r.value.id];
    BuscarClientePorIdFila(db1.clientes, |db.clientes|);
  }


  /** Resolving the product touches only the product table: a new product fails on
      an unparsable price before any insert, or on the CHECK or the UNIQUE constraint,
      changing nothing; otherwise it is appended with the next id and the record
      carries that id and the submitted fields. An existing id is looked up, and a
      malformed, out-of-range or unknown id fails without changing anything. */
  lemma ResolverProductoContrato(db: Db, sel: SeleccionProducto)
    ensures var (db2, r) := ResolverProducto(db, sel);
      && db2 == db.(productos := db2.productos, seqProductos := db2.seqProductos)
      && (r.Err? ==> db2 == db)
      && (r.Ok? ==> (r.value.DelFormulario? <==> sel.ProductoNuevo?))
      && (r.Ok? && r.value.DelFormulario? ==> ProductoExiste(db2.productos, r.value.id))
      && (sel.ProductoNuevo? ==>
            && (r == Err(ValorInvalido) <==> sel.precio.None?)
            && (r == Err(Integridad(ViolacionCheck)) <==> sel.precio.Some? && !MonedaPermitida(sel.moneda))
            && (r == Err(Integridad(ViolacionUnique)) <==>
                  sel.precio.Some? && MonedaPermitida(sel.moneda) && CatalogoUsado(db.productos, sel.catalogo))
            && (r.Ok? ==>
                  && r.value == DelFormulario(db.seqProductos + 1, sel.catalogo, sel.descripcion, sel.precio.value, sel.moneda)
                  && db2.productos == db.productos
                       + [Producto(r.value.id, sel.catalogo, Some(sel.descripcion), sel.precio.value, sel.moneda)]
                  && db2.seqProductos == db.seqProductos + 1))
      && (sel.ProductoExistente? ==>
            && db2 == db
            && (r == Err(ValorInvalido) <==> sel.id.None?)
            && (r == Err(Desborde) <==> sel.id.Some? && !EnteroSqlite(sel.id.value))
            && (r == Err(ProductoInexistente) <==>
                  sel.id.Some? && EnteroSqlite(sel.id.value) && !ProductoExiste(db.productos, sel.id.value))
            && (r.Ok? ==> r.value.fila in db.productos && r.value.fila.id == sel.id.value))
  {
    var (db2, r) := ResolverProducto(db, sel);
    if sel.ProductoNuevo? && r.Ok? {
      assert db2.productos[|db.productos|].id == r.value.id;
    }
  }

  /** A new product gets an id no product had and is found by it. */
  lemma ProductoNuevoRegistrado(db: Db, sel: SeleccionProducto)
    requires AutoIncremento(IdsProductos(db.productos), db.seqProductos) && sel.ProductoNuevo?
    ensures var (db2, r) := ResolverProducto(db, sel);
      r.Ok? ==>
        && !ProductoExiste(db.productos, r.value.id)
        && BuscarProductoPorId(db2.productos, r.value.id)
             == Some(Producto(r.value.id, sel.catalogo, Some(sel.descripcion), sel.precio.value, sel.moneda))
  {
    var (db2, r) := ResolverProducto(db, sel);
    if r.Ok? {
      IdSiguienteProducto(db);
      assert IdsProductos(db2.productos) == IdsProductos(db.productos) + [r.value.id];
      BuscarProductoPorIdFila(db2.productos, |db.productos|);
    }
  }

  /** Resolving the client keeps every constraint. */
  lemma ResolverClienteConsistent(db: Db, sel: SeleccionCliente)
    requires Consistent(db)
    ensures Consistent(ResolverCliente(db, sel).0)
  {
    if sel.ClienteNuevo? {
      InsertarClienteConsistent(db, sel.nombre, Some(sel.compania), Some(sel.email));
    }
  }

  /** Resolving the product keeps every constraint. */
  lemma ResolverProductoConsistent(db: Db, sel: SeleccionProducto)
    requires Consistent(db)
    ensures Consistent(ResolverProducto(db, sel).0)
  {
    if sel.ProductoNuevo? && sel.precio.Some? {
      InsertarProductoConsistent(db, sel.catalogo, Some(sel.descripcion), sel.precio.value, sel.moneda);
    }
  }


  /** Pricing and storing change only the quotation tables, and change them only
      when the store accepted the quotation. */
  lemma CotizarContrato(db: Db, cliente: Cliente, producto: ProductoRegistro, f: Formulario, fecha: Fecha,
                        documentoEnviado: bool)
    ensures var (db', r) := Cotizar(db, cliente, producto, f, fecha, documentoEnviado);
      && db'.clientes == db.clientes && db'.seqClientes == db.seqClientes
      && db'.productos == db.productos && db'.seqProductos == db.seqProductos
      && (r.Err? && r.error != DocumentoNoEnviado ==> db' == db)
      && (r.Ok? || r == Err(DocumentoNoEnviado) ==>
            |db'.cotizaciones| == |db.cotizaciones| + 1 && |db'.detalles| == |db.detalles| + 1)
  {
  }

  /** When the client and a form-built product exist, the store never refuses the
      quotation on a foreign key. The document is sent exactly when the product was
      built from the form, rate and quantity parse, the conversion does not raise,
      the client id, product id and quantity fit an SQLite INTEGER, and rendering and
      sending succeed; the request raises OverflowError exactly when it reaches the
      store with one of those three out of range. */
  lemma CotizarExito(db: Db, cliente: Cliente, producto: ProductoRegistro, f: Formulario, fecha: Fecha,
                     documentoEnviado: bool)
    requires ClienteExiste(db.clientes, cliente.id)
    requires producto.DelFormulario? ==> ProductoExiste(db.productos, producto.id)
    ensures var r := Cotizar(db, cliente, producto, f, fecha, documentoEnviado).1;
      && r != Err(FolioNulo)
      && (r.Ok? <==>
            && producto.DelFormulario?
            && TipoCambioDia(f.tipoCambio).Some?
            && f.cantidad.Some?
            && PrecioConvertido(producto.PrecioBase(), producto.MonedaBase(), f.monedaCotizacion,
                                TipoCambioDia(f.tipoCambio).value).Some?
            && EnteroSqlite(cliente.id) && EnteroSqlite(producto.id) && EnteroSqlite(f.cantidad.value)
            && documentoEnviado)
      && (r == Err(Desborde) <==>
            && producto.DelFormulario?
            && TipoCambioDia(f.tipoCambio).Some?
            && f.cantidad.Some?
            && PrecioConvertido(producto.PrecioBase(), producto.MonedaBase(), f.monedaCotizacion,
                                TipoCambioDia(f.tipoCambio).value).Some?
            && !(EnteroSqlite(cliente.id) && EnteroSqlite(producto.id) && EnteroSqlite(f.cantidad.value)))
  {
    var tc := TipoCambioDia(f.tipoCambio);
    if tc.Some? && f.cantidad.Some? && producto.DelFormulario? {
      var precio := PrecioConvertido(producto.PrecioBase(), producto.MonedaBase(), f.monedaCotizacion, tc.value);
      if precio.Some? {
        var subtotal := Subtotal(precio.value, f.cantidad.value);
        var item := ConstruirItem(producto, f.cantidad.value, precio.value, subtotal).value;
        assert ProductosExisten(db.productos, [item]);
        RechazoCotizacionCorrecto(db, cliente.id, [item]);
        assert [item][0] == item;
        assert ItemsEnRango([item]) <==> !ItemDesborda(item);
        assert DesbordaAntesDeFallar(db.productos, [item]) <==> ItemDesborda(item) by {
          if ItemDesborda(item) {
            assert ItemDesborda([item][0]);
          }
        }
      }
    }
  }

  /** A document sent carries the folio and file name of the quotation stored, the
      resolved client, and the line priced from the product at the converted price. */
  lemma CotizarEnvio(db: Db, cliente: Cliente, producto: ProductoRegistro, f: Formulario, fecha: Fecha,
                     documentoEnviado: bool)
    ensures var (db', r) := Cotizar(db, cliente, producto, f, fecha, documentoEnviado);
      r.Ok? ==>
        var envio := r.value;
        var tc := TipoCambioDia(f.tipoCambio).value;
        var precio := PrecioConvertido(producto.PrecioBase(), producto.MonedaBase(), f.monedaCotizacion, tc).value;
        && producto.DelFormulario?
        && envio.cliente == cliente
        && envio.folio == Folio(fecha.anio, envio.cotizacionId)
        && envio.archivo == NombreArchivo(envio.folio)
        && envio.item == Item(producto.id, f.cantidad.value, producto.catalogo, producto.descripcion,
                              precio, Subtotal(precio, f.cantidad.value))
  {
  }

  /** The quotation behind a sent document has a fresh id and status 'Pendiente', its
      total is the line subtotal, and its one detail row records the line's product,
      quantity and converted price. */
  lemma CotizarAlmacenado(db: Db, cliente: Cliente, producto: ProductoRegistro, f: Formulario, fecha: Fecha,
                          documentoEnviado: bool)
    requires AutoIncremento(IdsCotizaciones(db.cotizaciones), db.seqCotizaciones)
    ensures var (db', r) := Cotizar(db, cliente, producto, f, fecha, documentoEnviado);
      r.Ok? ==>
        var envio := r.value;
        && !CotizacionExiste(db.cotizaciones, envio.cotizacionId)
        && db'.cotizaciones == db.cotizaciones
             + [Cotizacion(envio.cotizacionId, envio.cliente.id, fecha.iso, envio.item.subtotal,
                           f.monedaCotizacion, TipoCambioDia(f.tipoCambio).value, "Pendiente")]
        && |db'.detalles| == |db.detalles| + 1
        && db'.detalles[..|db.detalles|] == db.detalles
        && DetalleDe(db'.detalles[|db.detalles|], envio.cotizacionId, envio.item)
  {
    var (db', r) := Cotizar(db, cliente, producto, f, fecha, documentoEnviado);
    if r.Ok? {
      IdSiguienteCotizacion(db);
      var item := r.value.item;
      assert DetallesNuevos(db.seqDetalles + 1, r.value.cotizacionId, [item])[0] == db'.detalles[|db.detalles|];
    }
  }

  /** The client selection can be resolved: "nuevo", or an id that parses, fits an
      SQLite INTEGER and exists. */
  predicate ClienteResoluble(db: Db, sel: SeleccionCliente) {
    sel.ClienteNuevo? || (sel.id.Some? && EnteroSqlite(sel.id.value) && ClienteExiste(db.clientes, sel.id.value))
  }

  /** The exact conditions under which the request sends a document. The ids the
      request hands out and the quantity must fit an SQLite INTEGER to be bound. */
  predicate Aceptable(db: Db, f: Formulario, documentoEnviado: bool) {
    && ClienteResoluble(db, f.cliente)
    && (f.cliente.ClienteNuevo? ==> EnteroSqlite(db.seqClientes + 1))
    && f.producto.ProductoNuevo?
    && f.producto.precio.Some?
    && MonedaPermitida(f.producto.moneda)
    && !CatalogoUsado(db.productos, f.producto.catalogo)
    && EnteroSqlite(db.seqProductos + 1)
    && TipoCambioDia(f.tipoCambio).Some?
    && f.cantidad.Some?
    && EnteroSqlite(f.cantidad.value)
    && !(f.monedaCotizacion == "USD" && f.producto.moneda == "MXN" && TipoCambioDia(f.tipoCambio).value == 0.0)
    && documentoEnviado
  }

  /** Pricing and storing keep every constraint. */
  lemma CotizarConsistent(db: Db, cliente: Cliente, producto: ProductoRegistro, f: Formulario, fecha: Fecha,
                          documentoEnviado: bool)
    requires Consistent(db)
    ensures Consistent(Cotizar(db, cliente, producto, f, fecha, documentoEnviado).0)
  {
    var tc := TipoCambioDia(f.tipoCambio);
    if tc.Some? && f.cantidad.Some? {
      var precio := PrecioConvertido(producto.PrecioBase(), producto.MonedaBase(), f.monedaCotizacion, tc.value);
      if precio.Some? {
        var subtotal := Subtotal(precio.value, f.cantidad.value);
        var ri := ConstruirItem(producto, f.cantidad.value, precio.value, subtotal);
        if ri.Ok? {
          InsertarCotizacionConsistent(db, cliente.id, subtotal, f.monedaCotizacion, tc.value, fecha.iso, [ri.value]);
        }
      }
    }
  }

  /** The workflow keeps every constraint of the database. */
  lemma FlujoConsistent(db: Db, f: Formulario, fecha: Fecha, documentoEnviado: bool)
    requires Consistent(db)
    ensures Consistent(Flujo(db, f, fecha, documentoEnviado).0)
  {
    var (db1, rc) := ResolverCliente(db, f.cliente);
    ResolverClienteConsistent(db, f.cliente);
    if rc.Ok? {
      var (db2, rp) := ResolverProducto(db1, f.producto);
      ResolverProductoConsistent(db1, f.producto);
      if rp.Ok? {
        CotizarConsistent(db2, rc.value, rp.value, f, fecha, documentoEnviado);
      }
    }
  }


  /** The store never refuses the quotation on a foreign key: the client and the
      product it names were resolved against the same committed tables, so
      `folio_base` is never None when the folio is formatted. */
  lemma FlujoNuncaFolioNulo(db: Db, f: Formulario, fecha: Fecha, documentoEnviado: bool)
    ensures Flujo(db, f, fecha, documentoEnviado).1 != Err(FolioNulo)
  {
    var (db1, rc) := ResolverCliente(db, f.cliente);
    ResolverClienteContrato(db, f.cliente);
    if rc.Ok? {
      var (db2, rp) := ResolverProducto(db1, f.producto);
      ResolverProductoContrato(db1, f.producto);
      if rp.Ok? {
        CotizarExito(db2, rc.value, rp.value, f, fecha, documentoEnviado);
      }
    }
  }

  /** A request sends a document exactly when every step before it succeeds. */
  lemma FlujoExitoSiYSoloSi(db: Db, f: Formulario, fecha: Fecha, documentoEnviado: bool)
    ensures Flujo(db, f, fecha, documentoEnviado).1.Ok? <==> Aceptable(db, f, documentoEnviado)
  {
    var (db1, rc) := ResolverCliente(db, f.cliente);
    ResolverClienteContrato(db, f.cliente);
    if rc.Ok? {
      var (db2, rp) := ResolverProducto(db1, f.producto);
      ResolverProductoContrato(db1, f.producto);
      if rp.Ok? {
        CotizarExito(db2, rc.value, rp.value, f, fecha, documentoEnviado);
        var tc := TipoCambioDia(f.tipoCambio);
        if tc.Some? {
          ConversionFallaSoloPorCero(rp.value.PrecioBase(), rp.value.MonedaBase(), f.monedaCotizacion, tc.value);
        }
      }
    }
  }

  /** A document is sent only for a newly created product, and it carries the folio
      of the quotation stored, its file name, and one line priced from that product:
      the product's fresh id, the quantity, the converted price and the subtotal. */
  lemma FlujoExito(db: Db, f: Formulario, fecha: Fecha, documentoEnviado: bool)
    ensures var (db', r) := Flujo(db, f, fecha, documentoEnviado);
      r.Ok? ==>
        var envio := r.value;
        var tc := TipoCambioDia(f.tipoCambio).value;
        var precio := PrecioConvertido(f.producto.precio.value, f.producto.moneda, f.monedaCotizacion, tc).value;
        && documentoEnviado
        && f.producto.ProductoNuevo?
        && envio.folio == Folio(fecha.anio, envio.cotizacionId)
        && envio.archivo == NombreArchivo(envio.folio)
        && envio.item == Item(db.seqProductos + 1, f.cantidad.value, f.producto.catalogo, f.producto.descripcion,
                              precio, Subtotal(precio, f.cantidad.value))
  {
    var (db', r) := Flujo(db, f, fecha, documentoEnviado);
    if r.Ok? {
      var (db1, rc) := ResolverCliente(db, f.cliente);
      var (db2, rp) := ResolverProducto(db1, f.producto);
      assert rc.Ok? && rp.Ok? && (db', r) == Cotizar(db2, rc.value, rp.value, f, fecha, documentoEnviado);
      CotizarEnvio(db2, rc.value, rp.value, f, fecha, documentoEnviado);
      ResolverClienteContrato(db, f.cliente);
      ResolverProductoContrato(db1, f.producto);
    }
  }

  /** The client and the product printed on a sent document are found by their ids
      in the tables the request leaves behind. */
  lemma FlujoExitoRegistros(db: Db, f: Formulario, fecha: Fecha, documentoEnviado: bool)
    requires AutoIncremento(IdsClientes(db.clientes), db.seqClientes)
    requires AutoIncremento(IdsProductos(db.productos), db.seqProductos)
    ensures var (db', r) := Flujo(db, f, fecha, documentoEnviado);
      r.Ok? ==>
        && BuscarClientePorId(db'.clientes, r.value.cliente.id) == Some(r.value.cliente)
        && BuscarProductoPorId(db'.productos, r.value.item.productoId)
             == Some(Producto(db.seqProductos + 1, f.producto.catalogo, Some(f.producto.descripcion),
                              f.producto.precio.value, f.producto.moneda))
  {
    var (db', r) := Flujo(db, f, fecha, documentoEnviado);
    if r.Ok? {
      var (db1, rc) := ResolverCliente(db, f.cliente);
      var (db2, rp) := ResolverProducto(db1, f.producto);
      assert rc.Ok? && rp.Ok? && (db', r) == Cotizar(db2, rc.value, rp.value, f, fecha, documentoEnviado);
      FlujoExito(db, f, fecha, documentoEnviado);
      assert BuscarClientePorId(db2.clientes, rc.value.id) == Some(rc.value) by {
        ResolverClienteContrato(db, f.cliente);
        if f.cliente.ClienteNuevo? {
          ClienteNuevoRegistrado(db, f.cliente);
        }
        ResolverProductoContrato(db1, f.producto);
      }
      assert BuscarProductoPorId(db2.productos, db.seqProductos + 1)
          == Some(Producto(db.seqProductos + 1, f.producto.catalogo, Some(f.producto.descripcion),
                           f.producto.precio.value, f.producto.moneda)) by {
        ResolverClienteContrato(db, f.cliente);
        ProductoNuevoRegistrado(db1, f.producto);
      }
      CotizarContrato(db2, rc.value, rp.value, f, fecha, documentoEnviado);
      CotizarEnvio(db2, rc.value, rp.value, f, fecha, documentoEnviado);
    }
  }

  /** The quotation behind a sent document is a new 'Pendiente' header with a fresh
      id, for the printed client, whose total is the line subtotal, followed by one
      detail row recording the printed line. */
  lemma FlujoExitoAlmacenado(db: Db, f: Formulario, fecha: Fecha, documentoEnviado: bool)
    requires AutoIncremento(IdsCotizaciones(db.cotizaciones), db.seqCotizaciones)
    ensures var (db', r) := Flujo(db, f, fecha, documentoEnviado);
      r.Ok? ==>
        var envio := r.value;
        && !CotizacionExiste(db.cotizaciones, envio.cotizacionId)
        && db'.cotizaciones == db.cotizaciones
             + [Cotizacion(envio.cotizacionId, envio.cliente.id, fecha.iso, envio.item.subtotal,
                           f.monedaCotizacion, TipoCambioDia(f.tipoCambio).value, "Pendiente")]
        && |db'.detalles| == |db.detalles| + 1
        && db'.detalles[..|db.detalles|] == db.detalles
        && DetalleDe(db'.detalles[|db.detalles|], envio.cotizacionId, envio.item)
  {
    var (db', r) := Flujo(db, f, fecha, documentoEnviado);
    if r.Ok? {
      var (db1, rc) := ResolverCliente(db, f.cliente);
      ResolverClienteContrato(db, f.cliente);
      var (db2, rp) := ResolverProducto(db1, f.producto);
      ResolverProductoContrato(db1, f.producto);
      assert (db', r) == Cotizar(db2, rc.value, rp.value, f, fecha, documentoEnviado);
      CotizarAlmacenado(db2, rc.value, rp.value, f, fecha, documentoEnviado);
    }
  }

  /** A client created by the request stays committed whatever happens after it. */
  lemma FlujoClienteNuevoPersiste(db: Db, f: Formulario, fecha: Fecha, documentoEnviado: bool)
    requires f.cliente.ClienteNuevo?
    ensures var db' := Flujo(db, f, fecha, documentoEnviado).0;
      && db'.clientes == db.clientes
           + [Cliente(db.seqClientes + 1, f.cliente.nombre, Some(f.cliente.compania), Some(f.cliente.email))]
      && db'.seqClientes == db.seqClientes + 1
  {
    var (db1, rc) := ResolverCliente(db, f.cliente);
    ResolverClienteContrato(db, f.cliente);
    var (db2, rp) := ResolverProducto(db1, f.producto);
    ResolverProductoContrato(db1, f.producto);
    if rp.Ok? {
      CotizarContrato(db2, rc.value, rp.value, f, fecha, documentoEnviado);
    }
  }

  /** A request that fails before the document is rendered stores no quotation;
      one that fails while rendering or sending keeps the quotation it stored. */
  lemma FlujoFalloSinCotizacion(db: Db, f: Formulario, fecha: Fecha, documentoEnviado: bool)
    ensures var (db', r) := Flujo(db, f, fecha, documentoEnviado);
      && (r.Err? && r.error != DocumentoNoEnviado ==>
            && db'.cotizaciones == db.cotizaciones && db'.seqCotizaciones == db.seqCotizaciones
            && db'.detalles == db.detalles && db'.seqDetalles == db.seqDetalles)
      && (r == Err(DocumentoNoEnviado) ==>
            && |db'.cotizaciones| == |db.cotizaciones| + 1
            && |db'.detalles| == |db.detalles| + 1)
  {
    var (db1, rc) := ResolverCliente(db, f.cliente);
    ResolverClienteContrato(db, f.cliente);
    if rc.Ok? {
      var (db2, rp) := ResolverProducto(db1, f.producto);
      ResolverProductoContrato(db1, f.producto);
      if rp.Ok? {
        CotizarContrato(db2, rc.value, rp.value, f, fecha, documentoEnviado);
      }
    }
  }

  /** Rendering and sending come after the last commit: a request whose document
      cannot be sent leaves exactly the tables the same request leaves when the
      document is sent, and it fails in that step exactly when the request would
      otherwise have sent it. */
  lemma FlujoEnvioNoAltera(db: Db, f: Formulario, fecha: Fecha)
    ensures Flujo(db, f, fecha, false).0 == Flujo(db, f, fecha, true).0
    ensures Flujo(db, f, fecha, false).1 == Err(DocumentoNoEnviado) <==> Flujo(db, f, fecha, true).1.Ok?
    ensures Flujo(db, f, fecha, true).1.Err? ==> Flujo(db, f, fecha, false).1 == Flujo(db, f, fecha, true).1
    ensures Flujo(db, f, fecha, false).1.Err?
  {
  }

  /** Choosing an existing product never sends a document and stores no quotation
      and no product; when everything before the line item succeeds, the request
      fails on the missing 'catalogo' key. */
  lemma FlujoProductoExistenteFalla(db: Db, f: Formulario, fecha: Fecha, documentoEnviado: bool)
    requires f.producto.ProductoExistente?
    ensures var (db', r) := Flujo(db, f, fecha, documentoEnviado);
      && r.Err?
      && db'.productos == db.productos && db'.cotizaciones == db.cotizaciones && db'.detalles == db.detalles
      && (r.error == LlaveCatalogo <==>
            && ClienteResoluble(db, f.cliente)
            && f.producto.id.Some?
            && EnteroSqlite(f.producto.id.value)
            && ProductoExiste(db.productos, f.producto.id.value)
            && TipoCambioDia(f.tipoCambio).Some?
            && f.cantidad.Some?
            && var fila := BuscarProductoPorId(db.productos, f.producto.id.value).value;
               PrecioConvertido(fila.precioBase, fila.monedaBase, f.monedaCotizacion,
                                TipoCambioDia(f.tipoCambio).value).Some?)
  {
    var (db1, rc) := ResolverCliente(db, f.cliente);
    ResolverClienteContrato(db, f.cliente);
    if rc.Ok? {
      ResolverProductoContrato(db1, f.producto);
    }
  }

  /** A rate sent as "0" is not defaulted: quoting an MXN product in USD then raises,
      after the new client and the new product have both been committed. */
  lemma FlujoTipoCambioCero(db: Db, nombre: string, compania: string, email: string,
                            catalogo: string, descripcion: string, precio: real, cantidad: int,
                            fecha: Fecha, documentoEnviado: bool)
    requires !CatalogoUsado(db.productos, catalogo)
    ensures var f := Formulario(ClienteNuevo(nombre, compania, email),
                                ProductoNuevo(catalogo, descripcion, Some(precio), "MXN"),
                                "USD", Texto(Some(0.0)), Some(cantidad));
      var (db', r) := Flujo(db, f, fecha, documentoEnviado);
      && r == Err(DivisionEntreCero)
      && db'.clientes == db.clientes + [Cliente(db.seqClientes + 1, nombre, Some(compania), Some(email))]
      && db'.productos == db.productos + [Producto(db.seqProductos + 1, catalogo, Some(descripcion), precio, "MXN")]
      && db'.cotizaciones == db.cotizaciones
  {
    var f := Formulario(ClienteNuevo(nombre, compania, email),
                        ProductoNuevo(catalogo, descripcion, Some(precio), "MXN"),
                        "USD", Texto(Some(0.0)), Some(cantidad));
    ResolverClienteContrato(db, f.cliente);
    var db1 := ResolverCliente(db, f.cliente).0;
    ResolverProductoContrato(db1, f.producto);
    MxnCotizadoEnUsd(precio, 0.0);
  }

  /** On a new database, the client "Ana" and the 50 USD product "VAL-100" both get id 1. */
  lemma EscenarioAltas()
    ensures ResolverCliente(Vacia(), ClienteNuevo("Ana", "Acme", "ana@acme.mx"))
         == (Vacia().(clientes := [Cliente(1, "Ana", Some("Acme"), Some("ana@acme.mx"))], seqClientes := 1),
             Ok(Cliente(1, "Ana", Some("Acme"), Some("ana@acme.mx"))))
    ensures var db1 := Vacia().(clientes := [Cliente(1, "Ana", Some("Acme"), Some("ana@acme.mx"))], seqClientes := 1);
      ResolverProducto(db1, ProductoNuevo("VAL-100", "Valvula", Some(50.0), "USD"))
         == (db1.(productos := [Producto(1, "VAL-100", Some("Valvula"), 50.0, "USD")], seqProductos := 1),
             Ok(DelFormulario(1, "VAL-100", "Valvula", 50.0, "USD")))
  {
    var sel := ClienteNuevo("Ana", "Acme", "ana@acme.mx");
    var cliente := Cliente(1, "Ana", Some("Acme"), Some("ana@acme.mx"));
    var db1 := Vacia().(clientes := [cliente], seqClientes := 1);
    assert ResolverCliente(Vacia(), sel) == (db1, Ok(cliente)) by {
      assert InsertarCliente(Vacia(), "Ana", Some("Acme"), Some("ana@acme.mx")).0.clientes == [cliente];
      assert ResolverCliente(Vacia(), sel).0 == db1;
      assert ResolverCliente(Vacia(), sel).1 == Ok(cliente);
    }
    var selP := ProductoNuevo("VAL-100", "Valvula", Some(50.0), "USD");
    var fila := Producto(1, "VAL-100", Some("Valvula"), 50.0, "USD");
    var db2 := db1.(productos := [fila], seqProductos := 1);
    var producto := DelFormulario(1, "VAL-100", "Valvula", 50.0, "USD");
    assert !CatalogoUsado(db1.productos, "VAL-100");
    assert InsertarProducto(db1, "VAL-100", Some("Valvula"), 50.0, "USD").0.productos == [fila];
    assert InsertarProducto(db1, "VAL-100", Some("Valvula"), 50.0, "USD").0 == db2;
    assert ResolverProducto(db1, selP).0 == db2;
    assert ResolverProducto(db1, selP).1 == Ok(producto);
  }

  /** With that client and product stored, the quotation for one line of three units
      at 925.0 gets id 1 and its detail row id 1. */
  lemma EscenarioInsercion()
    ensures var db2 := Vacia().(clientes := [Cliente(1, "Ana", Some("Acme"), Some("ana@acme.mx"))], seqClientes := 1,
                                productos := [Producto(1, "VAL-100", Some("Valvula"), 50.0, "USD")], seqProductos := 1);
      InsertarCotizacion(db2, 1, 2775.0, "MXN", 18.5, "2025-03-01T10:00:00", [Item(1, 3, "VAL-100", "Valvula", 925.0, 2775.0)])
        == (db2.(cotizaciones := [Cotizacion(1, 1, "2025-03-01T10:00:00", 2775.0, "MXN", 18.5, "Pendiente")],
                 seqCotizaciones := 1, detalles := [Detalle(1, 1, 1, 3, 925.0)], seqDetalles := 1),
            Ok(Some(1)))
  {
    var db2 := Vacia().(clientes := [Cliente(1, "Ana", Some("Acme"), Some("ana@acme.mx"))], seqClientes := 1,
                        productos := [Producto(1, "VAL-100", Some("Valvula"), 50.0, "USD")], seqProductos := 1);
    var item := Item(1, 3, "VAL-100", "Valvula", 925.0, 2775.0);
    var db3 := db2.(cotizaciones := [Cotizacion(1, 1, "2025-03-01T10:00:00", 2775.0, "MXN", 18.5, "Pendiente")],
                    seqCotizaciones := 1, detalles := [Detalle(1, 1, 1, 3, 925.0)], seqDetalles := 1);
    assert BuscarClientePorId(db2.clientes, 1).Some?;
    assert BuscarProductoPorId(db2.productos, 1).Some?;
    assert ProductosExisten(db2.productos, [item]);
    assert RechazoCabecera(db2.clientes, 1) == None;
    assert RechazoItem(db2.productos, [item][0]) == None;
    assert [item][1..] == [];
    assert RechazoDetalles(db2.productos, [item]) == None;
    assert DetallesNuevos(1, 1, [item]) == [Detalle(1, 1, 1, 3, 925.0)];
    assert InsertarCotizacion(db2, 1, 2775.0, "MXN", 18.5, "2025-03-01T10:00:00", [item]).0 == db3;
    assert InsertarCotizacion(db2, 1, 2775.0, "MXN", 18.5, "2025-03-01T10:00:00", [item]).1 == Ok(Some(1));
  }

  /** With that client and product stored, quoting three units in MXN at 18.5 stores
      quotation 1 with its one detail row and sends folio "C-20250001". */
  lemma EscenarioCotizacion()
    ensures var db2 := Vacia().(clientes := [Cliente(1, "Ana", Some("Acme"), Some("ana@acme.mx"))], seqClientes := 1,
                                productos := [Producto(1, "VAL-100", Some("Valvula"), 50.0, "USD")], seqProductos := 1);
      Cotizar(db2, Cliente(1, "Ana", Some("Acme"), Some("ana@acme.mx")),
              DelFormulario(1, "VAL-100", "Valvula", 50.0, "USD"),
              Formulario(ClienteNuevo("Ana", "Acme", "ana@acme.mx"),
                         ProductoNuevo("VAL-100", "Valvula", Some(50.0), "USD"),
                         "MXN", Texto(Some(18.5)), Some(3)),
              Fecha(2025, "2025-03-01T10:00:00"), true)
        == (db2.(cotizaciones := [Cotizacion(1, 1, "2025-03-01T10:00:00", 2775.0, "MXN", 18.5, "Pendiente")],
                 seqCotizaciones := 1, detalles := [Detalle(1, 1, 1, 3, 925.0)], seqDetalles := 1),
            Ok(Envio("C-20250001", "COTIZACION-C-20250001.pdf", 1,
                     Cliente(1, "Ana", Some("Acme"), Some("ana@acme.mx")),
                     Item(1, 3, "VAL-100", "Valvula", 925.0, 2775.0))))
  {
    var f := Formulario(ClienteNuevo("Ana", "Acme", "ana@acme.mx"),
                        ProductoNuevo("VAL-100", "Valvula", Some(50.0), "USD"),
                        "MXN", Texto(Some(18.5)), Some(3));
    var fecha := Fecha(2025, "2025-03-01T10:00:00");
    var cliente := Cliente(1, "Ana", Some("Acme"), Some("ana@acme.mx"));
    var db2 := Vacia().(clientes := [cliente], seqClientes := 1,
                        productos := [Producto(1, "VAL-100", Some("Valvula"), 50.0, "USD")], seqProductos := 1);
    var producto := DelFormulario(1, "VAL-100", "Valvula", 50.0, "USD");
    var item := Item(1, 3, "VAL-100", "Valvula", 925.0, 2775.0);
    var db3 := db2.(cotizaciones := [Cotizacion(1, 1, fecha.iso, 2775.0, "MXN", 18.5, "Pendiente")],
                    seqCotizaciones := 1, detalles := [Detalle(1, 1, 1, 3, 925.0)], seqDetalles := 1);
    var envio := Envio("C-20250001", "COTIZACION-C-20250001.pdf", 1, cliente, item);
    EscenarioInsercion();
    assert InsertarCotizacion(db2, 1, 2775.0, "MXN", 18.5, fecha.iso, [item]) == (db3, Ok(Some(1)));
    assert PrecioConvertido(50.0, "USD", "MXN", 18.5) == Some(925.0) by {
      UsdCotizadoEnMxn(50.0, 18.5);
    }
    assert Subtotal(925.0, 3) == 2775.0;
    assert ConstruirItem(producto, 3, 925.0, 2775.0) == Ok(item);
    assert Folio(2025, 1) == "C-20250001" by {
      EjemplosDeFolio();
    }
    assert producto.PrecioBase() == 50.0 && producto.MonedaBase() == "USD";
    assert TipoCambioDia(f.tipoCambio) == Some(18.5);
    assert NombreArchivo("C-20250001") == "COTIZACION-C-20250001.pdf";
    assert Cotizar(db2, cliente, producto, f, fecha, true).0 == db3;
    assert Cotizar(db2, cliente, producto, f, fecha, true).1 == Ok(envio);
  }

  /** With that client and product stored, a quantity of 2^63 cannot be bound: the
      request raises OverflowError and stores nothing. */
  lemma EscenarioCantidadDesbordada()
    ensures var db2 := Vacia().(clientes := [Cliente(1, "Ana", Some("Acme"), Some("ana@acme.mx"))], seqClientes := 1,
                                productos := [Producto(1, "VAL-100", Some("Valvula"), 50.0, "USD")], seqProductos := 1);
      Cotizar(db2, Cliente(1, "Ana", Some("Acme"), Some("ana@acme.mx")),
              DelFormulario(1, "VAL-100", "Valvula", 50.0, "USD"),
              Formulario(ClienteNuevo("Ana", "Acme", "ana@acme.mx"),
                         ProductoNuevo("VAL-100", "Valvula", Some(50.0), "USD"),
                         "MXN", Texto(Some(18.5)), Some(0x8000_0000_0000_0000)),
              Fecha(2025, "2025-03-01T10:00:00"), true)
        == (db2, Err(Desborde))
  {
    var f := Formulario(ClienteNuevo("Ana", "Acme", "ana@acme.mx"),
                        ProductoNuevo("VAL-100", "Valvula", Some(50.0), "USD"),
                        "MXN", Texto(Some(18.5)), Some(0x8000_0000_0000_0000));
    var fecha := Fecha(2025, "2025-03-01T10:00:00");
    var cliente := Cliente(1, "Ana", Some("Acme"), Some("ana@acme.mx"));
    var db2 := Vacia().(clientes := [cliente], seqClientes := 1,
                        productos := [Producto(1, "VAL-100", Some("Valvula"), 50.0, "USD")], seqProductos := 1);
    var producto := DelFormulario(1, "VAL-100", "Valvula", 50.0, "USD");
    assert ClienteExiste(db2.clientes, 1) && ProductoExiste(db2.productos, 1);
    assert TipoCambioDia(f.tipoCambio) == Some(18.5);
    UsdCotizadoEnMxn(50.0, 18.5);
    CotizarExito(db2, cliente, producto, f, fecha, true);
    CotizarContrato(db2, cliente, producto, f, fecha, true);
  }

  /** A first quotation on a new database: a new client, a new 50 USD product quoted
      in MXN at 18.5, three units. */
  lemma EscenarioPrimeraCotizacion()
    ensures var f := Formulario(ClienteNuevo("Ana", "Acme", "ana@acme.mx"),
                                ProductoNuevo("VAL-100", "Valvula", Some(50.0), "USD"),
                                "MXN", Texto(Some(18.5)), Some(3));
      var (db', r) := Flujo(Vacia(), f, Fecha(2025, "2025-03-01T10:00:00"), true);
      && r == Ok(Envio("C-20250001", "COTIZACION-C-20250001.pdf", 1,
                       Cliente(1, "Ana", Some("Acme"), Some("ana@acme.mx")),
                       Item(1, 3, "VAL-100", "Valvula", 925.0, 2775.0)))
      && db'.cotizaciones == [Cotizacion(1, 1, "2025-03-01T10:00:00", 2775.0, "MXN", 18.5, "Pendiente")]
      && db'.detalles == [Detalle(1, 1, 1, 3, 925.0)]
  {
    var f := Formulario(ClienteNuevo("Ana", "Acme", "ana@acme.mx"),
                        ProductoNuevo("VAL-100", "Valvula", Some(50.0), "USD"),
                        "MXN", Texto(Some(18.5)), Some(3));
    var cliente := Cliente(1, "Ana", Some("Acme"), Some("ana@acme.mx"));
    var db1 := Vacia().(clientes := [cliente], seqClientes := 1);
    var db2 := db1.(productos := [Producto(1, "VAL-100", Some("Valvula"), 50.0, "USD")], seqProductos := 1);
    var producto := DelFormulario(1, "VAL-100", "Valvula", 50.0, "USD");
    EscenarioAltas();
    EscenarioCotizacion();
    assert ResolverCliente(Vacia(), f.cliente) == (db1, Ok(cliente));
    assert ResolverProducto(db1, f.producto) == (db2, Ok(producto));
    assert Flujo(Vacia(), f, Fecha(2025, "2025-03-01T10:00:00"), true)
        == Cotizar(db2, cliente, producto, f, Fecha(2025, "2025-03-01T10:00:00"), true);
  }


}
