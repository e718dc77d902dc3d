/** The figures of the drought report: the indicator block, the period the
    data covers and the number of days without water per year. */
module Reporte {
  import opened Frames
  import opened Grouping

  /** The report's summary. Its reliability is a NaN, written None, when the
      division it needs is by zero. */
  datatype ResumenInforme = ResumenInforme(totalDias: nat, diasSinAgua: nat, porcentajeSinAgua: real, fiabilidad: Option<real>)

  /** The indicator block of the report. The percentage without water is
      guarded against an empty frame; the reliability stays 0 unless both
      reliability columns exist, and with both columns and no rows the library
      divides its integer count by zero, which gives NaN rather than an
      exception. */
  function IndicadoresReporte(df: Frame): (r: ResumenInforme)
    ensures r.totalDias == |df.rows|
    ensures r.diasSinAgua == |Filter(df.rows, EsCero)| && r.diasSinAgua <= r.totalDias
    ensures |df.rows| == 0 ==> r.porcentajeSinAgua == 0.0
    ensures |df.rows| > 0 ==> r.porcentajeSinAgua == Round2(Porcentaje(r.diasSinAgua, |df.rows|))
    ensures 0.0 <= r.porcentajeSinAgua <= 100.0
    ensures !(df.tieneMediciones && df.tieneUmbral) ==> r.fiabilidad == Some(0.0)
    ensures df.tieneMediciones && df.tieneUmbral && |df.rows| == 0 ==> r.fiabilidad == None
    ensures df.tieneMediciones && df.tieneUmbral && |df.rows| > 0 ==>
      r.fiabilidad == Some(Round2(Porcentaje(|Filter(df.rows, Cumple)|, |df.rows|)))
    ensures r.fiabilidad.Some? ==> 0.0 <= r.fiabilidad.value <= 100.0
  {
    var totalDias := |df.rows|;
    var diasSinAgua := |Filter(df.rows, EsCero)|;
    var porcentaje := if totalDias > 0 then Round2(Porcentaje(diasSinAgua, totalDias)) else 0.0;
    var fiabilidad :=
      if !(df.tieneMediciones && df.tieneUmbral) then Some(0.0)
      else if totalDias == 0 then None
      else Some(Round2(Porcentaje(|Filter(df.rows, Cumple)|, totalDias)));
    ResumenInforme(totalDias, diasSinAgua, porcentaje, fiabilidad)
  }

  /** The period of the report: the earliest and the latest date. Formatting
      the minimum of an empty date column (NaT) raises a ValueError. */
  function Periodo(rows: seq<Row>): (r: Result<(Date, Date)>)
    ensures r.Err? <==> |rows| == 0
    ensures r.Err? ==> r.error == ValueError
    ensures r.Ok? ==>
      var (inicio, fin) := r.value;
      && DateLe(inicio, fin)
      && (exists i :: 0 <= i < |rows| && rows[i].fecha == inicio)
      && (exists i :: 0 <= i < |rows| && rows[i].fecha == fin)
      && (forall i :: 0 <= i < |rows| ==> DateLe(inicio, rows[i].fecha) && DateLe(rows[i].fecha, fin))
  {
    if |rows| == 0 then Err(ValueError)
    else
      var inicio, fin := PrimeraFecha(rows), UltimaFecha(rows);
      assert DateLe(inicio, rows[0].fecha) && DateLe(rows[0].fecha, fin);
      Ok((inicio, fin))
  }

  /** Days without water grouped by year: only the zero-valued rows are
      grouped, so every year listed has at least one such day. */
  function DiasSinAguaPorAnio(rows: seq<Row>): (g: seq<Group>)
    ensures KeysIncreasing(g) && SizesPositive(g)
  {
    GroupSize(Anios(Filter(rows, EsCero)))
  }

  /** The yearly counts add up to the days without water of the summary. */
  lemma DiasSinAguaPorAnioSuma(df: Frame)
    ensures TotalSize(DiasSinAguaPorAnio(df.rows)) == IndicadoresReporte(df).diasSinAgua
  {
  }

  /** Each year's count is the number of zero-valued rows dated in that year. */
  lemma DiasSinAguaDeUnAnio(rows: seq<Row>, y: int)
    ensures SizeOf(DiasSinAguaPorAnio(rows), y) == |Filter(Filter(rows, EsCero), EnAnio(y))|
  {
    CountYear(Filter(rows, EsCero), y);
  }

  /** Every year of the report's chart is a year in which some day had no
      water, and every such year is in the chart. */
  lemma DiasSinAguaPorAnioClaves(rows: seq<Row>)
    ensures forall y :: y in KeySet(DiasSinAguaPorAnio(rows)) <==>
      exists i :: 0 <= i < |rows| && rows[i].valor == 0.0 && rows[i].fecha.year == y
  {
    var ceros := Filter(rows, EsCero);
    forall y ensures y in KeySet(DiasSinAguaPorAnio(rows)) <==>
      exists i :: 0 <= i < |rows| && rows[i].valor == 0.0 && rows[i].fecha.year == y
    {
      if y in KeySet(DiasSinAguaPorAnio(rows)) {
        assert y in Anios(ceros);
        var j :| 0 <= j < |ceros| && Anios(ceros)[j] == y;
        var x := ceros[j];
        assert x in multiset(ceros);
        assert x in multiset(rows);
        var i :| 0 <= i < |rows| && rows[i] == x;
      }
      if exists i :: 0 <= i < |rows| && rows[i].valor == 0.0 && rows[i].fecha.year == y {
        var i :| 0 <= i < |rows| && rows[i].valor == 0.0 && rows[i].fecha.year == y;
        assert rows[i] in multiset(rows);
        assert rows[i] in multiset(ceros);
        var j :| 0 <= j < |ceros| && ceros[j] == rows[i];
        assert Anios(ceros)[j] == y;
      }
    }
  }

  /** What the report shows: its period, the summary exactly as computed by the
      indicator block, and the days without water per year. */
  datatype Informe = Informe(inicio: Date, fin: Date, resumen: ResumenInforme, sinAguaPorAnio: seq<Group>)

  /** The figures of the report. The indicator block cannot fail, but an empty
      frame makes the period fail before the charts and the document are made. */
  function GenerarReporte(df: Frame): (r: Result<Informe>)
    ensures r.Err? <==> |df.rows| == 0
    ensures r.Err? ==> r.error == ValueError
    ensures r.Ok? ==> r.value.resumen == IndicadoresReporte(df)
    ensures r.Ok? ==> Periodo(df.rows) == Ok((r.value.inicio, r.value.fin))
    ensures r.Ok? ==> r.value.sinAguaPorAnio == DiasSinAguaPorAnio(df.rows)
    ensures r.Ok? ==> TotalSize(r.value.sinAguaPorAnio) == r.value.resumen.diasSinAgua
  {
    var resumen := IndicadoresReporte(df);
    match Periodo(df.rows)
    case Err(e) => Err(e)
    case Ok((inicio, fin)) =>
      DiasSinAguaPorAnioSuma(df);
      Ok(Informe(inicio, fin, resumen, DiasSinAguaPorAnio(df.rows)))
  }
}
