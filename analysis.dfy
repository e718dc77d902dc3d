/** The analysis module of the backend: loading the daily series in date
    order, and the indicator summary computed from it without any guard. */
module Analysis {
  import opened Frames
  import opened Sorting

  /** Loads the rows already parsed from the file into a fresh frame and sorts
      that frame by date in place. */
  method CargarDatos(filas: seq<Row>) returns (df: array<Row>)
    ensures fresh(df)
    ensures SortedByFecha(df[..])
    ensures multiset(df[..]) == multiset(filas)
  {
    df := new Row[|filas|](i requires 0 <= i < |filas| => filas[i]);
    assert df[..] == filas;
    SortByFecha(df);
  }

  /** The indicator summary. The code indexes both reliability columns before
      it divides, so a missing column is reported first (a KeyError); with
      both columns present an empty frame fails on the division of Python
      integers that gives the percentage without water. */
  function CalcularIndicadores(df: Frame): (r: Result<Indicadores>)
    ensures r.Ok? <==> df.tieneMediciones && df.tieneUmbral && |df.rows| > 0
    ensures !df.tieneMediciones ==> r == Err(KeyError("completo_mediciones"))
    ensures df.tieneMediciones && !df.tieneUmbral ==> r == Err(KeyError("completo_umbral"))
    ensures df.tieneMediciones && df.tieneUmbral && |df.rows| == 0 ==> r == Err(ZeroDivisionError)
    ensures r.Ok? ==>
      var n, ind := |df.rows|, r.value;
      && ind.totalDias == n
      && ind.diasSinAgua == |Filter(df.rows, EsCero)|
      && ind.diasSinAgua <= ind.totalDias
      && ind.porcentajeSinAgua == Porcentaje(ind.diasSinAgua, n)
      && 0.0 <= ind.porcentajeSinAgua <= 100.0
      && ind.fiabilidad == Round2(Porcentaje(|Filter(df.rows, Cumple)|, n))
      && 0.0 <= ind.fiabilidad <= 100.0
      && -0.005 <= ind.fiabilidad - Porcentaje(|Filter(df.rows, Cumple)|, n) <= 0.005
  {
    var totalDias := |df.rows|;
    var diasSinAgua := |Filter(df.rows, EsCero)|;
    if !df.tieneMediciones then Err(KeyError("completo_mediciones"))
    else if !df.tieneUmbral then Err(KeyError("completo_umbral"))
    else if totalDias == 0 then Err(ZeroDivisionError)
    else
      var cumplen := |Filter(df.rows, Cumple)|;
      Ok(Indicadores(totalDias, diasSinAgua, Porcentaje(diasSinAgua, totalDias), Round2(Porcentaje(cumplen, totalDias))))
  }
}
