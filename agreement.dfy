/** How the three copies of the indicator computation relate on the same
    frame: they agree on the counts, and their percentages differ only by
    where the rounding is applied, as long as both reliability columns exist;
    when one is missing, two copies fail and the report shows 0. */
module Agreement {
  import opened Frames
  import Analysis
  import Reporte
  import Dashboard

  lemma CopiasCoinciden(df: Frame)
    requires df.tieneMediciones && df.tieneUmbral && |df.rows| > 0
    ensures Analysis.CalcularIndicadores(df).Ok? && Dashboard.Resumen(df).Ok?
    ensures
      var a, d, r := Analysis.CalcularIndicadores(df).value, Dashboard.Resumen(df).value, Reporte.IndicadoresReporte(df);
      && a.totalDias == d.totalDias == r.totalDias
      && a.diasSinAgua == d.diasSinAgua == r.diasSinAgua
      && a.porcentajeSinAgua == d.porcentajeSinAgua
      && r.porcentajeSinAgua == Round2(a.porcentajeSinAgua)
      && a.fiabilidad == Round2(d.fiabilidad)
      && r.fiabilidad == Some(a.fiabilidad)
  {
  }

  lemma CopiasDifieren(df: Frame)
    requires !(df.tieneMediciones && df.tieneUmbral) && |df.rows| > 0
    ensures Analysis.CalcularIndicadores(df).Err? && Dashboard.Resumen(df).Err?
    ensures Analysis.CalcularIndicadores(df).error == Dashboard.Resumen(df).error
    ensures Reporte.IndicadoresReporte(df).fiabilidad == Some(0.0)
  {
  }

  /** An empty frame yields no indicators from the report or the analysis
      module: the report fails when it formats the period, and the analysis
      module raises before it returns. */
  lemma MarcoVacio(df: Frame)
    requires |df.rows| == 0
    ensures Reporte.GenerarReporte(df) == Err(ValueError)
    ensures Analysis.CalcularIndicadores(df).Err?
    ensures df.tieneMediciones && df.tieneUmbral ==> Analysis.CalcularIndicadores(df) == Err(ZeroDivisionError)
  {
  }
}
