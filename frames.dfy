/** The data shared by the three copies of the drought-indicator computation:
    one daily record, the frame that holds the records, and the column-wise
    operations of the data-frame library that the indicator code relies on
    (boolean masks, counting, minimum and maximum, rounding for display). */
module Frames {

  datatype Option<T> = None | Some(value: T)

  /** The Python exceptions that the indicator code can raise on its own. */
  datatype Error =
    | KeyError(column: string)  // indexing a column the frame does not have
    | ZeroDivisionError         // dividing a Python int by zero
    | ValueError                // formatting a missing date (NaT) as text

  datatype Result<T> = Ok(value: T) | Err(error: Error)

  /** A calendar date as parsed from the `fecha` column. Only its order and its
      year matter to the indicators. */
  datatype Date = Date(year: int, month: int, day: int)

  /** Chronological order: year, then month, then day. */
  predicate DateLe(a: Date, b: Date) {
    a.year < b.year
    || (a.year == b.year && (a.month < b.month || (a.month == b.month && a.day <= b.day)))
  }

  /** One row of the daily series. A reliability cell that is empty in the file
      is None (a NaN in the frame). */
  datatype Row = Row(fecha: Date, valor: real, completoMediciones: Option<int>, completoUmbral: Option<int>)

  /** A loaded frame: its rows in file order and whether the two optional
      reliability columns are present at all. */
  datatype Frame = Frame(rows: seq<Row>, tieneMediciones: bool, tieneUmbral: bool)

  /** The four summary figures every copy of the computation produces. */
  datatype Indicadores = Indicadores(totalDias: nat, diasSinAgua: nat, porcentajeSinAgua: real, fiabilidad: real)

  /** The mask `df["valor"] == 0`: a day without water. */
  predicate EsCero(r: Row) {
    r.valor == 0.0
  }

  /** The mask `df["completo_mediciones"] >= df["completo_umbral"]`; a comparison
      with a missing cell (NaN) is false. */
  predicate Cumple(r: Row) {
    r.completoMediciones.Some? && r.completoUmbral.Some?
    && r.completoMediciones.value >= r.completoUmbral.value
  }

  /** The mask `df["año"] == y`, the year taken from the date. */
  function EnAnio(y: int): Row -> bool {
    (r: Row) => r.fecha.year == y
  }

  /** `df[mask]`: the rows for which `p` holds, each as often as in the frame. */
  function Filter(s: seq<Row>, p: Row -> bool): (r: seq<Row>)
    ensures |r| <= |s|
    ensures forall x :: x in r ==> p(x)
    ensures forall x :: multiset(r)[x] == if p(x) then multiset(s)[x] else 0
  {
    if s == [] then []
    else
      assert s == [s[0]] + s[1..];
      (if p(s[0]) then [s[0]] else []) + Filter(s[1..], p)
  }

  /** Counting the occurrences of a year in the year column counts the rows of
      that year. */
  lemma {:induction false} CountYear(s: seq<Row>, y: int)
    ensures multiset(Anios(s))[y] == |Filter(s, EnAnio(y))|
  {
    if s != [] {
      CountYear(s[1..], y);
      assert Anios(s) == [s[0].fecha.year] + Anios(s[1..]);
    }
  }

  /** `count / total * 100` computed exactly: the share of `total` that `parte`
      represents, in percent. */
  function Porcentaje(parte: nat, total: nat): (r: real)
    requires 0 < total && parte <= total
    ensures 0.0 <= r <= 100.0
    ensures r * (total as real) == (parte as real) * 100.0
  {
    (parte as real / total as real) * 100.0
  }

  /** Python's `round(x, 2)` on exact reals: the nearest multiple of 0.01, and
      on a tie the one whose hundredths count is even. */
  function Round2(x: real): (r: real)
    ensures (r * 100.0).Floor as real == r * 100.0
    ensures -0.005 <= r - x <= 0.005
    ensures x * 100.0 - (x * 100.0).Floor as real == 0.5 ==> (r * 100.0).Floor % 2 == 0
    ensures 0.0 <= x <= 100.0 ==> 0.0 <= r <= 100.0
  {
    var y := x * 100.0;
    var f := y.Floor;
    var frac := y - f as real;
    var n := if frac > 0.5 then f + 1 else if frac < 0.5 then f else if f % 2 == 0 then f else f + 1;
    assert n as real / 100.0 * 100.0 == n as real;
    n as real / 100.0
  }

  /** The column `df["valor"]` as a series. */
  function Valores(s: seq<Row>): (v: seq<real>)
    ensures |v| == |s|
    ensures forall i :: 0 <= i < |s| ==> v[i] == s[i].valor
  {
    seq(|s|, i requires 0 <= i < |s| => s[i].valor)
  }

  /** The column `df["fecha"].dt.year` as a series. */
  function Anios(s: seq<Row>): (y: seq<int>)
    ensures |y| == |s|
    ensures forall i :: 0 <= i < |s| ==> y[i] == s[i].fecha.year
  {
    seq(|s|, i requires 0 <= i < |s| => s[i].fecha.year)
  }

  /** `series.min()` of a non-empty series. */
  function MinValor(s: seq<real>): (m: real)
    requires |s| > 0
    ensures m in s
    ensures forall i :: 0 <= i < |s| ==> m <= s[i]
  {
    if |s| == 1 then s[0]
    else
      var rest := MinValor(s[1..]);
      if s[0] <= rest then s[0] else rest
  }

  /** `series.max()` of a non-empty series. */
  function MaxValor(s: seq<real>): (m: real)
    requires |s| > 0
    ensures m in s
    ensures forall i :: 0 <= i < |s| ==> s[i] <= m
  {
    if |s| == 1 then s[0]
    else
      var rest := MaxValor(s[1..]);
      if s[0] >= rest then s[0] else rest
  }

  /** `df["fecha"].min()` of a non-empty frame. */
  function PrimeraFecha(s: seq<Row>): (d: Date)
    requires |s| > 0
    ensures exists i :: 0 <= i < |s| && s[i].fecha == d
    ensures forall i :: 0 <= i < |s| ==> DateLe(d, s[i].fecha)
  {
    if |s| == 1 then s[0].fecha
    else
      var rest := PrimeraFecha(s[1..]);
      if DateLe(s[0].fecha, rest) then s[0].fecha else rest
  }

  /** `df["fecha"].max()` of a non-empty frame. */
  function UltimaFecha(s: seq<Row>): (d: Date)
    requires |s| > 0
    ensures exists i :: 0 <= i < |s| && s[i].fecha == d
    ensures forall i :: 0 <= i < |s| ==> DateLe(s[i].fecha, d)
  {
    if |s| == 1 then s[0].fecha
    else
      var rest := UltimaFecha(s[1..]);
      if DateLe(rest, s[0].fecha) then s[0].fecha else rest
  }
}
