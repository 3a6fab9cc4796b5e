/** The pure rules of app.py's submission handler: the exchange-rate default,
    the currency conversion of the base price, the line subtotal, and the folio
    and file name that identify the generated document. Prices are exact reals. */
module Precios {
  import opened Wrappers

  // ---------------------------------------------------------------------
  // Exchange rate, conversion, subtotal
  // ---------------------------------------------------------------------

  /** The form's `tipo_cambio` field: not sent, sent empty, or sent as text
      together with what `float()` makes of it (None when `float()` raises). */
  datatype CampoTipoCambio = Ausente | Vacio | Texto(valor: Option<real>)

  /** `float(datos.get('tipo_cambio', 1.0) or 1.0)`; None stands for the ValueError. */
  function TipoCambioDia(campo: CampoTipoCambio): Option<real> {
    match campo
    case Ausente => Some(1.0)
    case Vacio => Some(1.0)
    case Texto(valor) => valor
  }

  /** The converted unit price; None stands for the ZeroDivisionError of the
      USD branch. Every quoted currency other than "USD" takes the MXN branch. */
  function PrecioConvertido(precioBase: real, monedaBase: string, monedaCotizada: string,
                            tipoCambio: real): Option<real>
  {
    if monedaCotizada == "USD" then
      if monedaBase == "MXN" then
        if tipoCambio == 0.0 then None else Some(precioBase / tipoCambio)
      else Some(precioBase)
    else
      if monedaBase == "USD" then Some(precioBase * tipoCambio) else Some(precioBase)
  }

  /** `precio_convertido * qty`. */
  function Subtotal(precio: real, qty: int): real {
    precio * qty as real
  }

  /** Only a missing or empty field defaults to 1.0; any text, "0" included, is
      taken as `float()` parses it. The rate is 1.0 exactly for the default and for
      text that parses as 1.0, and it fails exactly for text that does not parse. */
  lemma TipoCambioPorDefecto(campo: CampoTipoCambio)
    ensures campo == Ausente || campo == Vacio ==> TipoCambioDia(campo) == Some(1.0)
    ensures campo.Texto? ==> TipoCambioDia(campo) == campo.valor
    ensures TipoCambioDia(campo) == Some(1.0) <==> campo == Ausente || campo == Vacio || campo == Texto(Some(1.0))
    ensures TipoCambioDia(campo).None? <==> campo == Texto(None)
  {
  }

  /** A price already in the quoted currency is left unchanged, whatever the rate. */
  lemma MismaMonedaSinConversion(precioBase: real, moneda: string, tipoCambio: real)
    ensures PrecioConvertido(precioBase, moneda, moneda, tipoCambio) == Some(precioBase)
  {
  }

  /** An MXN price quoted in USD is divided by the rate; a zero rate raises. */
  lemma MxnCotizadoEnUsd(precioBase: real, tipoCambio: real)
    ensures tipoCambio != 0.0 ==> PrecioConvertido(precioBase, "MXN", "USD", tipoCambio) == Some(precioBase / tipoCambio)
    ensures tipoCambio == 0.0 ==> PrecioConvertido(precioBase, "MXN", "USD", tipoCambio) == None
  {
  }

  /** A USD price quoted in MXN is multiplied by the rate, a zero rate included. */
  lemma UsdCotizadoEnMxn(precioBase: real, tipoCambio: real)
    ensures PrecioConvertido(precioBase, "USD", "MXN", tipoCambio) == Some(precioBase * tipoCambio)
  {
  }

  /** Any quoted currency other than "USD" is priced exactly as "MXN" is. */
  lemma CotizadaNoUsdEsMxn(precioBase: real, monedaBase: string, monedaCotizada: string, tipoCambio: real)
    requires monedaCotizada != "USD"
    ensures PrecioConvertido(precioBase, monedaBase, monedaCotizada, tipoCambio)
         == PrecioConvertido(precioBase, monedaBase, "MXN", tipoCambio)
  {
  }

  /** The conversion raises exactly for an MXN price quoted in USD at rate zero. */
  lemma ConversionFallaSoloPorCero(precioBase: real, monedaBase: string, monedaCotizada: string, tipoCambio: real)
    ensures PrecioConvertido(precioBase, monedaBase, monedaCotizada, tipoCambio).None?
        <==> monedaCotizada == "USD" && monedaBase == "MXN" && tipoCambio == 0.0
  {
  }

  /** The two directions of conversion undo each other at any non-zero rate. */
  lemma ConversionIdaYVuelta(precioBase: real, tipoCambio: real)
    requires tipoCambio != 0.0
    ensures PrecioConvertido(precioBase, "USD", "MXN", tipoCambio).Some?
    ensures PrecioConvertido(PrecioConvertido(precioBase, "USD", "MXN", tipoCambio).value, "MXN", "USD", tipoCambio)
         == Some(precioBase)
    ensures PrecioConvertido(PrecioConvertido(precioBase, "MXN", "USD", tipoCambio).value, "USD", "MXN", tipoCambio)
         == Some(precioBase)
  {
    var q := precioBase / tipoCambio;
    var m := precioBase * tipoCambio;
    assert q * tipoCambio == precioBase;
    assert m / tipoCambio == precioBase;
    UsdCotizadoEnMxn(precioBase, tipoCambio);
    UsdCotizadoEnMxn(q, tipoCambio);
    MxnCotizadoEnUsd(precioBase, tipoCambio);
    MxnCotizadoEnUsd(m, tipoCambio);
  }

  lemma EjemplosDeConversion()
    ensures PrecioConvertido(100.0, "MXN", "USD", 20.0) == Some(5.0)
    ensures PrecioConvertido(100.0, "USD", "MXN", 20.0) == Some(2000.0)
    ensures PrecioConvertido(50.0, "USD", "MXN", 18.5) == Some(925.0)
    ensures Subtotal(925.0, 3) == 2775.0
  {
  }

  // ---------------------------------------------------------------------
  // Folio and file name
  // ---------------------------------------------------------------------

  predicate SoloDigitos(s: string) {
    forall i :: 0 <= i < |s| ==> '0' <= s[i] <= '9'
  }

  function Digito(d: nat): char
    requires d < 10
  {
    ('0' as int + d) as char
  }

  /** `str(n)` for a non-negative int: its decimal digits, most significant first. */
  function Decimal(n: nat): (s: string)
    ensures |s| >= 1 && SoloDigitos(s)
    ensures s[0] == '0' ==> n == 0
    decreases n
  {
    if n < 10 then [Digito(n)] else Decimal(n / 10) + [Digito(n % 10)]
  }

  /** The number a string of decimal digits denotes. */
  function ValorDecimal(s: string): nat
    requires SoloDigitos(s)
    decreases |s|
  {
    if s == [] then 0 else 10 * ValorDecimal(s[..|s| - 1]) + (s[|s| - 1] as int - '0' as int)
  }

  /** Reading back the decimal digits of `n` gives `n`. */
  lemma {:induction false} ValorDeDecimal(n: nat)
    ensures ValorDecimal(Decimal(n)) == n
    decreases n
  {
    if n >= 10 {
      ValorDeDecimal(n / 10);
      var s := Decimal(n);
      assert s[..|s| - 1] == Decimal(n / 10);
    }
  }

  function Ceros(k: nat): (s: string)
    ensures SoloDigitos(s)
  {
    seq(k, _ => '0')
  }

  lemma {:induction false} ValorDeCeros(k: nat)
    ensures ValorDecimal(Ceros(k)) == 0
  {
    if k > 0 {
      assert Ceros(k)[..k - 1] == Ceros(k - 1);
      ValorDeCeros(k - 1);
    }
  }

  /** Leading zeros do not change the number a digit string denotes. */
  lemma {:induction false} ValorConCeros(k: nat, s: string)
    requires SoloDigitos(s)
    ensures SoloDigitos(Ceros(k) + s)
    ensures ValorDecimal(Ceros(k) + s) == ValorDecimal(s)
    decreases |s|
  {
    if s == [] {
      assert Ceros(k) + s == Ceros(k);
      ValorDeCeros(k);
    } else {
      var t := Ceros(k) + s;
      assert t[..|t| - 1] == Ceros(k) + s[..|s| - 1];
      ValorConCeros(k, s[..|s| - 1]);
    }
  }

  /** `f"{n:04d}"` for a non-negative int: the digits, left-padded with zeros to width 4. */
  function Relleno4(n: nat): string {
    var d := Decimal(n);
    if |d| < 4 then Ceros(4 - |d|) + d else d
  }

  /** The padded id is at least 4 wide, ends with all the digits of the id (no
      truncation when it is wider), starts with zeros only, and reads back as the id. */
  lemma Relleno4Correcto(n: nat)
    ensures var r := Relleno4(n); var d := Decimal(n);
      && |r| == (if |d| < 4 then 4 else |d|)
      && r[|r| - |d|..] == d
      && (forall i :: 0 <= i < |r| - |d| ==> r[i] == '0')
      && SoloDigitos(r)
      && ValorDecimal(r) == n
  {
    var d := Decimal(n);
    ValorDeDecimal(n);
    if |d| < 4 {
      ValorConCeros(4 - |d|, d);
      assert (Ceros(4 - |d|) + d)[4 - |d|..] == d;
    }
  }

  lemma EjemplosDecimales()
    ensures Decimal(2025) == "2025"
    ensures Relleno4(1) == "0001"
    ensures Relleno4(7) == "0007"
    ensures Relleno4(12345) == "12345"
  {
    assert Decimal(2) == "2";
    assert Decimal(20) == "20";
    assert Decimal(202) == "202";
    assert Decimal(12) == "12";
    assert Decimal(123) == "123";
    assert Decimal(1234) == "1234";
    assert Ceros(3) == "000";
  }

  /** `f"C-{fecha_hoy.year}{folio_base:04d}"`. */
  function Folio(anio: nat, id: nat): string {
    "C-" + Decimal(anio) + Relleno4(id)
  }

  /** `f"COTIZACION-{folio_str}.pdf"`. */
  function NombreArchivo(folio: string): string {
    "COTIZACION-" + folio + ".pdf"
  }

  /** Within one year, distinct quotation ids give distinct folios: the id can be
      read back from the folio. */
  lemma FolioInyectivo(anio: nat, a: nat, b: nat)
    requires Folio(anio, a) == Folio(anio, b)
    ensures a == b
  {
    var prefijo := "C-" + Decimal(anio);
    assert Folio(anio, a) == prefijo + Relleno4(a);
    assert Folio(anio, b) == prefijo + Relleno4(b);
    assert Relleno4(a) == Folio(anio, a)[|prefijo|..];
    assert Relleno4(b) == Folio(anio, b)[|prefijo|..];
    Relleno4Correcto(a);
    Relleno4Correcto(b);
  }

  /** Distinct folios give distinct file names. */
  lemma NombreArchivoInyectivo(f1: string, f2: string)
    requires NombreArchivo(f1) == NombreArchivo(f2)
    ensures f1 == f2
  {
    assert f1 == NombreArchivo(f1)[11..|NombreArchivo(f1)| - 4];
    assert f2 == NombreArchivo(f2)[11..|NombreArchivo(f2)| - 4];
  }

  lemma EjemplosDeFolio()
    ensures Folio(2025, 1) == "C-20250001"
    ensures Folio(2025, 7) == "C-20250007"
    ensures Folio(2025, 12345) == "C-202512345"
    ensures NombreArchivo(Folio(2025, 7)) == "COTIZACION-C-20250007.pdf"
  {
    EjemplosDecimales();
    assert Folio(2025, 1) == "C-" + "2025" + "0001";
    assert Folio(2025, 7) == "C-" + "2025" + "0007";
    assert Folio(2025, 12345) == "C-" + "2025" + "12345";
  }
}
