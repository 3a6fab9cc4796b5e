# Cotizador: a verified model of the quotation store and the quotation workflow

Cotizador is a small web application for writing price quotations. A user picks or
creates a client, picks or creates one product, chooses the quoted currency (USD or
MXN), an exchange rate and a quantity. The server stores the quotation in SQLite and
returns a PDF named after the quotation's folio.

This project models two parts in Dafny:

- the store of `db_manager.py`: its four tables and their constraints, the read
  queries, and the three inserts, including the all-or-nothing quotation insert;
- the request handler `generar_cotizacion_pdf` of `app.py`: client and product
  resolution, the currency conversion, the line subtotal, the folio and the file name.

Files:

- `wrappers.dfy`: `Option` and `Result`.
- `db_manager.dfy`, module `DbManager`:
  - one datatype per row;
  - the database as a value `Db`, with one `sqlite_sequence` counter per table, and
    `Consistent`, every declared constraint;
  - the queries as functions;
  - each insert twice: as a function of the `Db` value (`InsertarCliente`,
    `InsertarProducto`, `InsertarCotizacion`), and as a method of the class
    `Conexion`, whose table fields the method updates in place. Each method's
    contract is that its new state and result are what the function gives.
- `precios.dfy`, module `Precios`: the exchange-rate default, the conversion, the
  subtotal, `str()` and `:04d` formatting of naturals, the folio and the file name.
- `app.dfy`, module `App`:
  - the form as a datatype;
  - the handler as a function `Flujo` of the committed database that returns the
    database afterwards and the response;
  - the method `GenerarCotizacionPdf`, which calls the connection's methods in the
    handler's order and is proved to do what `Flujo` says.

SQLite behaviour that the model makes explicit:

- An AUTOINCREMENT id is the table's counter plus one.
- A failed statement or a ROLLBACK leaves the counters as they were.
- On insert into Productos, the CHECK on `moneda_base` is evaluated before the UNIQUE
  index on `numero_catalogo`.
- Foreign keys are enforced immediately, because `PRAGMA foreign_keys = ON` is set.
- LIKE folds only ASCII letters, and NULL never matches.
- `ORDER BY` on text uses code-point order.

Python behaviour that the model makes explicit:

- `int()` and `float()` of a form field are inputs of type `Option`. `None` means
  the call raises ValueError.
- `dict(None)` raises TypeError.
- A `:04d` format of `None` raises TypeError.
- Reading a missing dict key raises KeyError.
- Division by a zero float raises ZeroDivisionError.
- Binding an int outside the signed 64-bit range as an SQL parameter raises
  OverflowError. That is not an `sqlite3.Error`, so `crear_cotizacion_completa`
  neither rolls back nor returns None. The exception leaves the handler, and closing
  the connection discards the uncommitted transaction (`EnteroSqlite`, `EscenarioCantidadDesbordada`).

Where the code's behaviour looks unintended, the model follows the code:

- **Exchange rate.** Only a missing or empty `tipo_cambio` field becomes 1.0. The
  text "0" becomes 0.0. An MXN product quoted in USD at rate 0 then raises
  ZeroDivisionError (`FlujoTipoCambioCero`). A USD product quoted in MXN at rate 0
  is priced at 0.
- **Quoted currency.** It is not validated. Any value other than "USD" takes the MXN
  branch (`CotizadaNoUsdEsMxn`) and is stored as given.
- **Product currency.** An unsupported currency fails only through the CHECK
  constraint.
- **Quantity and price.** Neither is checked for sign.
- **Commits before a failure.** A new client, and a new product, are committed
  before the later steps run. A failure after that point leaves them stored
  (`FlujoClienteNuevoPersiste`, `FlujoTipoCambioCero`).
- **Quotation after a rendering failure.** A quotation whose PDF cannot be rendered
  or sent stays stored (`FlujoFalloSinCotizacion`).
- **Existing product.** Choosing an existing product always fails. The dict built
  from a Productos row has no key `'catalogo'`, so building the line item raises
  KeyError. No document is ever sent on that path (`FlujoProductoExistenteFalla`).
  Only quotations of newly created products succeed (`FlujoExitoSiYSoloSi`).

## Model

| member | source | states |
|---|---|---|
| DbManager.VaciaConsistent | db_manager.py:18-58 | a freshly created database satisfies every declared constraint |
| DbManager.Conexion.constructor | db_manager.py:18-58 | a new connection holds four empty tables with all counters at zero, and the constraints hold |
| DbManager.BuscarClientePorId | db_manager.py:86-92 | returns None exactly when no client has the id; otherwise a row of the table carrying that id |
| DbManager.BuscarClientePorIdFila | db_manager.py:86-92 | with increasing ids, looking up a row's id returns that very row |
| DbManager.BuscarProductoPorId | db_manager.py:110-116 | returns None exactly when no product has the id; otherwise a row of the table carrying that id |
| DbManager.BuscarProductoPorIdFila | db_manager.py:110-116 | with increasing ids, looking up a row's id returns that very row |
| DbManager.BuscarProductoPorCatalogo | db_manager.py:103-108 | returns None exactly when the catalogue number is unused; otherwise a row with that catalogue number |
| DbManager.BuscarProductoPorCatalogoFila | db_manager.py:103-108 | with unique catalogue numbers, the lookup returns the one row that carries it |
| DbManager.CheckProductosMxn | db_manager.py:126-131 | true exactly when some product's base currency is MXN |
| DbManager.BuscarClientePorNombre | db_manager.py:79-84 | a client is in the result exactly when it is in the table and its name or company contains the term, ASCII case folded; NULL company never matches |
| DbManager.BuscarClientePorNombreTodos | db_manager.py:79-84 | when every client matches, the whole table is returned in table order |
| DbManager.BuscarClientePorNombreVacio | db_manager.py:79-84 | the empty term returns every client, because the name is never NULL |
| DbManager.LexTotal | db_manager.py:118-124 | the text order used by ORDER BY is total |
| DbManager.LexAntisimetrico | db_manager.py:118-124 | the text order is antisymmetric |
| DbManager.LexTransitivo | db_manager.py:118-124 | the text order is transitive |
| DbManager.InsertarOrdenadoCorrecto | db_manager.py:118-124 | inserting into an ordered listing keeps it ordered and adds exactly that row |
| DbManager.MiembrosDeInsertado | db_manager.py:118-124 | every row of a listing after an insert is the inserted row or a row of the listing before |
| DbManager.OrdenadoCons | db_manager.py:118-124 | a row whose catalogue number is at most every number of an ordered listing can be put in front, keeping it ordered |
| DbManager.UnicosCons | db_manager.py:118-124 | a row whose catalogue number no row of the listing carries can be put in front, keeping the numbers unique |
| DbManager.InsertarOrdenadoEstricto | db_manager.py:118-124 | inserting a row with a new catalogue number keeps the listing strictly ordered |
| DbManager.GetAllProductos | db_manager.py:118-124 | the listing is ordered by catalogue number and is a permutation of the table |
| DbManager.GetAllProductosEstricto | db_manager.py:118-124 | with unique catalogue numbers, the listing is strictly ordered |
| DbManager.MinimoDeOrdenado | db_manager.py:118-124 | the first row of a strictly ordered listing has the least catalogue number, and no other row shares it |
| DbManager.ColaOrdenada | db_manager.py:118-124 | the tail of a strictly ordered listing is strictly ordered |
| DbManager.MismaCabeza | db_manager.py:118-124 | two strictly ordered arrangements of the same rows start with the same row |
| DbManager.MismaCola | db_manager.py:118-124 | removing an equal first element from two equal multisets leaves equal multisets |
| DbManager.OrdenEstrictoUnico | db_manager.py:118-124 | two strictly ordered arrangements of the same rows are equal |
| DbManager.GetAllProductosDeterminado | db_manager.py:118-124 | any strictly ordered permutation of the table is the listing: the result is fully determined |
| DbManager.IdSiguienteCliente | db_manager.py:72-77 | the next AUTOINCREMENT id of Clientes is carried by no existing row |
| DbManager.IdSiguienteProducto | db_manager.py:96-101 | the next AUTOINCREMENT id of Productos is carried by no existing row |
| DbManager.IdSiguienteCotizacion | db_manager.py:148-150 | the next AUTOINCREMENT id of Cotizaciones is carried by no existing row |
| DbManager.InsertarClienteConsistent | db_manager.py:72-77 | inserting a client keeps every constraint |
| DbManager.InsertarProductoConsistent | db_manager.py:96-101 | inserting a product, or failing to, keeps every constraint |
| DbManager.InsertarCotizacionConsistent | db_manager.py:135-166 | the quotation insert, committed or rolled back, keeps every constraint |
| DbManager.AgregarCotizacionConsistent | db_manager.py:143-161 | adding a header for an existing client and details for existing products keeps every constraint |
| DbManager.RechazoDetallesCorrecto | db_manager.py:157-158 | the detail loop runs to the end exactly when every item fits an SQLite INTEGER and names an existing product. It raises OverflowError exactly when an out-of-range item comes before any item with a missing product |
| DbManager.RechazoCotizacionCorrecto | db_manager.py:148-158 | every INSERT of the transaction runs exactly when the client id is in range and exists and every item is in range with an existing product. OverflowError comes exactly from an out-of-range client id, or, once the client exists, from an out-of-range item ahead of any missing product |
| DbManager.DetallesNuevosUnoMas | db_manager.py:157-158 | each pass of the detail loop appends exactly one detail row, numbered after the previous ones |
| DbManager.CrearClienteRoundTrip | db_manager.py:72-77 | the returned id was unused; the stored row carries exactly the submitted fields and is found by that id; no other table changes |
| DbManager.CrearProductoContrato | db_manager.py:96-101 | fails exactly on a currency other than USD/MXN (CHECK) or a used catalogue number (UNIQUE), and then changes nothing; otherwise appends one row with a fresh id, found both by id and by catalogue number |
| DbManager.CrearCotizacionCompletaAtomica | db_manager.py:135-166 | stores the quotation exactly when the client and every item's product exist and the client id, product ids and quantities fit an SQLite INTEGER. It then adds one 'Pendiente' header with a fresh id and the given total, currency and rate, and one detail row per item with fresh ids. It raises OverflowError exactly when the client id is out of range, or the client exists and an out-of-range item comes before any missing product. In every other case it returns None. Whenever nothing is stored, nothing changes |
| DbManager.Conexion.InsertarDetalles | db_manager.py:152-158 | the detail loop stops at the first item that cannot be bound (OverflowError) or names a missing product (IntegrityError), as `RechazoDetalles` says. When it runs to the end it appends one detail row per item, in item order, numbered after the previous ones. Only the detail table and its counter change |
| DbManager.Conexion.CrearCliente | db_manager.py:72-77 | the tables after the insert and the returned id are those of `InsertarCliente`; the constraints still hold |
| DbManager.Conexion.CrearProducto | db_manager.py:96-101 | the tables after the insert and the result are those of `InsertarProducto`; the constraints still hold |
| DbManager.Conexion.CrearCotizacionCompleta | db_manager.py:135-166 | one header insert, then one detail insert per item in a loop. After a foreign-key failure it rolls back; after an OverflowError the transaction is never committed. The end state and result are those of `InsertarCotizacion` |
| Precios.TipoCambioPorDefecto | app.py:62 | only a missing or empty rate field defaults to 1.0; any text, "0" included, is taken as parsed. The rate is 1.0 exactly when the field is missing, empty or text parsing as 1.0, and fails exactly on text that does not parse |
| Precios.MismaMonedaSinConversion | app.py:65-69 | a price already in the quoted currency is unchanged, whatever the rate |
| Precios.MxnCotizadoEnUsd | app.py:66-67 | an MXN price quoted in USD is divided by the rate; at rate 0 it raises |
| Precios.UsdCotizadoEnMxn | app.py:68-69 | a USD price quoted in MXN is multiplied by the rate |
| Precios.CotizadaNoUsdEsMxn | app.py:66-69 | every quoted currency other than "USD" is priced as "MXN" is |
| Precios.ConversionFallaSoloPorCero | app.py:65-69 | the conversion raises exactly for an MXN price quoted in USD at rate 0 |
| Precios.ConversionIdaYVuelta | app.py:65-69 | at a non-zero rate, converting to the other currency and back gives the original price |
| Precios.EjemplosDeConversion | app.py:65-71 | 100 MXN in USD at 20 is 5; 100 USD in MXN at 20 is 2000; 50 USD in MXN at 18.5 is 925, and 3 units give 2775 |
| Precios.Decimal | app.py:95 | `str()` of a natural is a non-empty string of decimal digits with no leading zero unless the number is 0 |
| Precios.ValorDeDecimal | app.py:95 | the decimal string of a natural reads back as that natural |
| Precios.ValorDeCeros | app.py:95 | a string of zeros denotes 0 |
| Precios.ValorConCeros | app.py:95 | leading zeros do not change the number denoted |
| Precios.Relleno4Correcto | app.py:95 | the padded id is max(4, digits) wide, ends with all the id's digits (no truncation), is zeros before them, and reads back as the id |
| Precios.EjemplosDecimales | app.py:95 | 2025 prints as "2025"; 1, 7 and 12345 pad to "0001", "0007" and "12345" |
| Precios.FolioInyectivo | app.py:95 | within one year, the folio determines the quotation id |
| Precios.NombreArchivoInyectivo | app.py:111 | the file name determines the folio |
| Precios.EjemplosDeFolio | app.py:95-111 | folio of (2025, 1) is "C-20250001"; of (2025, 7) is "C-20250007"; of (2025, 12345) is "C-202512345"; the file of the second is "COTIZACION-C-20250007.pdf" |
| App.ResolverClienteContrato | app.py:43-49 | a new client is committed with the next id, the submitted fields and the counter advanced by one. An existing id is either found, or fails with nothing changed: ValueError if it does not parse, OverflowError if it does not fit an SQLite INTEGER, TypeError if it is unknown. Only the client table may change |
| App.ClienteNuevoRegistrado | app.py:43-45 | with ids below the counter, a new client's id was carried by no client, and looking it up afterwards returns the row the request printed |
| App.ResolverClienteConsistent | app.py:43-49 | resolving the client keeps every database constraint |
| App.ResolverProductoContrato | app.py:52-58 | a new product fails on an unparsable price before any insert, or on the CHECK or the UNIQUE constraint, changing nothing. Otherwise it is committed with the next id, the counter advances by one, and the record carries that id and the submitted fields. An existing id changes nothing and is found, or fails as for clients. Only the product table may change |
| App.ProductoNuevoRegistrado | app.py:52-54 | with ids below the counter, a new product's id was carried by no product, and looking it up afterwards returns the row with the submitted fields |
| App.ResolverProductoConsistent | app.py:52-58 | resolving the product keeps every database constraint |
| App.CotizarContrato | app.py:60-114 | pricing and storing change only the quotation tables; any failure other than rendering leaves the database unchanged; a stored quotation adds one header and one detail |
| App.CotizarExito | app.py:60-95 | once the client exists, and the product does when it came from the form, the store never returns None. The document is sent exactly when the product came from the form, rate and quantity parse, the conversion does not divide by zero, the client id, product id and quantity fit an SQLite INTEGER, and rendering and sending succeed. The request raises OverflowError exactly when it reaches the store with one of those three out of range |
| App.CotizarEnvio | app.py:74-114 | a sent document is for a product from the form and carries the resolved client, the folio of the stored quotation, its file name, and the line with the product's id, catalogue number and description, the quantity, the converted price and the subtotal |
| App.CotizarAlmacenado | app.py:83-93 | the quotation behind a sent document has a fresh id, is 'Pendiente', totals the line subtotal with the quoted currency and rate, and has one detail row recording the line |
| App.CotizarConsistent | app.py:60-93 | pricing and storing keep every database constraint |
| App.FlujoConsistent | app.py:34-121 | a request, whatever its outcome, keeps every database constraint |
| App.FlujoNuncaFolioNulo | app.py:85-95 | the quotation insert never returns None inside the request, so formatting the folio never raises TypeError (with exact reals; see "Left out") |
| App.FlujoExitoSiYSoloSi | app.py:38-118 | a document is sent exactly when all of these hold: the client resolves (an existing id must fit an SQLite INTEGER); the product is new with a valid price, currency and unused catalogue number; the ids handed out and the quantity fit an SQLite INTEGER; rate and quantity parse; the conversion does not divide by zero; rendering and sending succeed |
| App.FlujoExito | app.py:52-114 | a sent document is for a newly created product. It carries the folio of the stored quotation, its file name, and the line for that product: its fresh id, the quantity, the converted price and the subtotal |
| App.FlujoExitoRegistros | app.py:43-58 | with ids below the counters, the client and the product on a sent document are found by their ids in the tables the request leaves |
| App.FlujoExitoAlmacenado | app.py:83-93 | the quotation behind a sent document is a new 'Pendiente' header with a fresh id for the printed client, totalling the line subtotal, followed by one detail row recording the printed line |
| App.FlujoClienteNuevoPersiste | app.py:43-45 | a client created by the request stays committed whatever happens afterwards |
| App.FlujoFalloSinCotizacion | app.py:83-118 | a failure before rendering stores no quotation; a failure while rendering or sending keeps the stored quotation |
| App.FlujoEnvioNoAltera | app.py:95-121 | rendering and sending come after the last commit. A request whose document cannot be sent leaves exactly the tables the same request leaves when it is sent, and fails in that step exactly when it would otherwise have sent the document. Failures before that step are the same either way |
| App.FlujoProductoExistenteFalla | app.py:56-81 | an existing product never yields a document, and no product or quotation is stored. The failure is the KeyError on 'catalogo' exactly when every earlier step succeeds, the product id included (with exact reals; see "Left out") |
| App.FlujoTipoCambioCero | app.py:62-67 | a rate sent as "0" for an MXN product quoted in USD raises ZeroDivisionError after the new client and the new product were committed |
| App.EscenarioAltas | app.py:43-54 | on an empty database, the new client "Ana" and the new 50 USD product "VAL-100" both get id 1 and are stored as submitted |
| App.EscenarioInsercion | db_manager.py:135-161 | with that client and product stored, the quotation for three units at 925 gets id 1 and one detail row with id 1 |
| App.EscenarioCotizacion | app.py:60-114 | quoting that product in MXN at 18.5 for three units prices it at 925, totals 2775 and sends folio "C-20250001" as "COTIZACION-C-20250001.pdf" |
| App.EscenarioCantidadDesbordada | db_manager.py:157-158 | with that client and product stored, a quantity of 2^63 cannot be bound: the request ends with OverflowError and the database is unchanged |
| App.EscenarioPrimeraCotizacion | app.py:34-114 | on an empty database, a new client and a new 50 USD product quoted in MXN at 18.5 for 3 units gives folio "C-20250001", unit price 925 and total 2775, with one header and one detail stored |
| App.GenerarCotizacionPdf | app.py:34-121 | the handler over a connection: the committed tables afterwards and the response are those of `Flujo`, and the constraints still hold |
| DbManager.EnteroSqlite | db_manager.py:90 | definition: the signed 64-bit range an int parameter must fit to be bound; used in `RechazoCotizacionCorrecto` and `App.ResolverClienteContrato` |
| DbManager.InsertarCliente | db_manager.py:72-77 | definition; properties in `CrearClienteRoundTrip` and `InsertarClienteConsistent` |
| DbManager.InsertarProducto | db_manager.py:96-101 | definition; properties in `CrearProductoContrato` and `InsertarProductoConsistent` |
| DbManager.CoincideNombre | db_manager.py:80-82 | definition of the LIKE match; properties in `BuscarClientePorNombre` |
| DbManager.LexMenorIgual | db_manager.py:120 | definition of the ORDER BY text order; properties in `LexTotal`, `LexAntisimetrico` and `LexTransitivo` |
| DbManager.RechazoDetalles | db_manager.py:157-158 | definition; properties in `RechazoDetallesCorrecto` |
| DbManager.InsertarCotizacion | db_manager.py:135-166 | definition; properties in `CrearCotizacionCompletaAtomica` and `InsertarCotizacionConsistent` |
| Precios.TipoCambioDia | app.py:62 | definition; properties in `TipoCambioPorDefecto` |
| Precios.PrecioConvertido | app.py:65-69 | definition; properties in `MismaMonedaSinConversion`, `MxnCotizadoEnUsd`, `UsdCotizadoEnMxn`, `ConversionFallaSoloPorCero` and `ConversionIdaYVuelta` |
| Precios.Subtotal | app.py:71 | definition; properties in `EjemplosDeConversion` and `App.CotizarAlmacenado` |
| Precios.Relleno4 | app.py:95 | definition; properties in `Relleno4Correcto` |
| Precios.Folio | app.py:95 | definition; properties in `FolioInyectivo` and `EjemplosDeFolio` |
| Precios.NombreArchivo | app.py:111 | definition; properties in `NombreArchivoInyectivo` and `EjemplosDeFolio` |
| App.ResolverCliente | app.py:43-49 | definition; properties in `ResolverClienteContrato`, `ClienteNuevoRegistrado` and `ResolverClienteConsistent` |
| App.ResolverProducto | app.py:52-58 | definition; properties in `ResolverProductoContrato`, `ProductoNuevoRegistrado` and `ResolverProductoConsistent` |
| App.ConstruirItem | app.py:74-81 | definition; properties in `CotizarEnvio` and `FlujoProductoExistenteFalla` |
| App.Cotizar | app.py:60-114 | definition; properties in `CotizarContrato`, `CotizarExito`, `CotizarEnvio`, `CotizarAlmacenado` and `CotizarConsistent` |
| App.Flujo | app.py:34-121 | definition; properties in `FlujoExitoSiYSoloSi`, `FlujoExito`, `FlujoExitoRegistros`, `FlujoExitoAlmacenado`, `FlujoFalloSinCotizacion`, `FlujoEnvioNoAltera` and `FlujoConsistent` |

## Left out

- PDF rendering (`pdf_generator.py`) and `send_file` are not part of this model. Whether they succeed is a boolean input of the handler.
- Flask plumbing is left out: routing, `flash`, `redirect` and the `index` page. The queries `index` issues are modelled.
- `get_db()` opens the existing database file, and `setup_database` creates only the tables that are missing. This file I/O and closing the connection are not modelled. The constructor of `Conexion` models a freshly created database; `GenerarCotizacionPdf` accepts any connection whose tables satisfy every constraint, which stands for the reopened file.
- A form missing one of the keys the handler indexes would raise KeyError. The form is modelled as a complete record.
- Prices and rates are exact reals, not IEEE doubles. Rounding, `nan` and `inf` are not modelled. `float()` accepts "nan" and "inf", and sqlite3 binds a `nan` double as NULL: a `nan` price fails NOT NULL on `Productos.precio_base`, and a `nan` subtotal (price "inf", quantity 0) fails NOT NULL on `Cotizaciones.total`, so `crear_cotizacion_completa` rolls back and returns None. Multiplying the price by a quantity of magnitude at least 2^1024 raises OverflowError when the int is converted to a float.
- App.FlujoNuncaFolioNulo: holds of exact reals only. With IEEE doubles a `nan` total makes the quotation insert return None, and formatting the folio then raises TypeError.
- App.FlujoProductoExistenteFalla: holds of exact reals only. For a quantity of magnitude at least 2^1024 the OverflowError of the subtotal comes before the KeyError on 'catalogo'.
- `datetime.now()` is an input (its year and ISO text). The localized date printed on the PDF is not modelled.
- LIKE wildcards (`%`, `_`) inside the search term are not modelled. The term is matched as plain text.
- The name search returns rows in table order. SQL promises no order there.
- AUTOINCREMENT exhaustion at 2^63-1 is not modelled. Ids are unbounded naturals, so the model hands out an id where SQLite would fail the insert with SQLITE_FULL. A request given such an id fails later in the model, with OverflowError when the id is bound (`Aceptable` asks for the ids to be in range).
- SQLite type affinity is not modelled. The text fields taken from the form are never NULL; a `nan` price or total would be bound as NULL, and `nan` is not modelled.
- `crear_cotizacion_completa` catches every `sqlite3.Error`. Of those, only the foreign-key failures exact reals can cause are modelled; the NOT NULL failure of a `nan` total, and disk, lock and other I/O errors, are left out. The OverflowError it does not catch is modelled.
- DbManager.Conexion.CrearCotizacionCompleta: after an OverflowError the source leaves its transaction open until `conn.close()` discards it, while the model restores the committed tables at once. Nothing runs on the connection in between, so the committed state is the same.
- DbManager.BuscarClientePorId, DbManager.BuscarProductoPorId: they take any int. The OverflowError their SELECT raises for an id out of range is modelled in their callers, `ResolverCliente` and `ResolverProducto`.
- `ON DELETE CASCADE` is not modelled because nothing in the application deletes rows.
- Concurrent requests and other writers to the database file are not modelled.
- The `print` of errors in `setup_database` and `crear_cotizacion_completa` is not modelled.
