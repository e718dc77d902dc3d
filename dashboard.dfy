/** The data-analysis tab of the dashboard: records per year, the indicator
    summary, and the automatic analysis text with its threshold flags, the
    extreme values and the rolling-mean trend. */
module Dashboard {
  import opened Frames
  import opened Grouping
  import opened Sorting
  import opened Rolling

  /** The scarcity flag is raised above this percentage of days without water. */
  const UmbralEscasez: real := 30.0
  /** The reliability flag is raised below this percentage of reliable days. */
  const UmbralFiabilidad: real := 70.0
  /** The number of rows the rolling mean of the trend check averages. */
  const Ventana: nat := 30

  /** Records per year: every year of the frame with its number of rows. */
  function RegistrosPorAnio(rows: seq<Row>): (g: seq<Group>)
    ensures KeysIncreasing(g) && SizesPositive(g)
    ensures TotalSize(g) == |rows|
    ensures forall y :: y in KeySet(g) <==> exists i :: 0 <= i < |rows| && rows[i].fecha.year == y
  {
    var anios := Anios(rows);
    assert forall y :: y in anios <==> exists i :: 0 <= i < |rows| && rows[i].fecha.year == y by {
      forall y | y in anios ensures exists i :: 0 <= i < |rows| && rows[i].fecha.year == y {
        var i :| 0 <= i < |anios| && anios[i] == y;
      }
    }
    GroupSize(anios)
  }

  /** The records-per-year count of one year is the number of rows dated in
      that year. */
  lemma RegistrosDeUnAnio(rows: seq<Row>, y: int)
    ensures SizeOf(RegistrosPorAnio(rows), y) == |Filter(rows, EnAnio(y))|
  {
    CountYear(rows, y);
  }

  /** The unrounded summary. An empty frame gives 0 for both percentages
      without touching the reliability columns (the guard is evaluated
      first); otherwise indexing a missing reliability column is a KeyError. */
  function Resumen(df: Frame): (r: Result<Indicadores>)
    ensures r.Err? <==> |df.rows| > 0 && !(df.tieneMediciones && df.tieneUmbral)
    ensures r.Err? ==> r.error == KeyError(if df.tieneMediciones then "completo_umbral" else "completo_mediciones")
    ensures r.Ok? ==>
      var n, ind := |df.rows|, r.value;
      && ind.totalDias == n
      && ind.diasSinAgua == |Filter(df.rows, EsCero)| <= n
      && (n == 0 ==> ind.porcentajeSinAgua == 0.0 && ind.fiabilidad == 0.0)
      && (n > 0 ==>
            ind.porcentajeSinAgua == Porcentaje(ind.diasSinAgua, n)
            && ind.fiabilidad == Porcentaje(|Filter(df.rows, Cumple)|, n))
      && 0.0 <= ind.porcentajeSinAgua <= 100.0
      && 0.0 <= ind.fiabilidad <= 100.0
  {
    var totalDias := |df.rows|;
    var diasSinAgua := |Filter(df.rows, EsCero)|;
    var porcentaje := if totalDias > 0 then Porcentaje(diasSinAgua, totalDias) else 0.0;
    if totalDias == 0 then Ok(Indicadores(totalDias, diasSinAgua, porcentaje, 0.0))
    else if !df.tieneMediciones then Err(KeyError("completo_mediciones"))
    else if !df.tieneUmbral then Err(KeyError("completo_umbral"))
    else Ok(Indicadores(totalDias, diasSinAgua, porcentaje, Porcentaje(|Filter(df.rows, Cumple)|, totalDias)))
  }

  /** The summary as displayed: both percentages rounded to two decimals, the
      counts unchanged. */
  function ResumenMostrado(ind: Indicadores): (r: Indicadores)
    ensures r.totalDias == ind.totalDias && r.diasSinAgua == ind.diasSinAgua
    ensures -0.005 <= r.porcentajeSinAgua - ind.porcentajeSinAgua <= 0.005
    ensures -0.005 <= r.fiabilidad - ind.fiabilidad <= 0.005
    ensures r.porcentajeSinAgua == Round2(ind.porcentajeSinAgua) && r.fiabilidad == Round2(ind.fiabilidad)
  {
    ind.(porcentajeSinAgua := Round2(ind.porcentajeSinAgua), fiabilidad := Round2(ind.fiabilidad))
  }

  /** The pieces of the automatic analysis text, in the order they are added. */
  datatype Mensaje =
    | AltaEscasez(porcentaje: real)
    | BajaFiabilidad(fiabilidad: real)
    | Extremos(minimo: real, maximo: real)
    | TendenciaDecreciente
    | TendenciaCrecienteOEstable

  /** The rolling-mean trend check: the rows sorted by date, the 30-row rolling
      mean of their values, and whether its last entry is below its first. The
      first entry is always NaN, so the comparison is always false. */
  method Tendencia(rows: seq<Row>) returns (ordenadas: seq<Row>, tendencia: seq<Option<real>>, decreciente: bool)
    requires |rows| > 0
    ensures SortedByFecha(ordenadas) && multiset(ordenadas) == multiset(rows)
    ensures |ordenadas| == |rows| && |tendencia| == |rows|
    ensures forall i :: 0 <= i < |rows| ==> (tendencia[i].Some? <==> i >= Ventana - 1)
    ensures forall i :: Ventana - 1 <= i < |rows| ==>
      tendencia[i] == Some(Sum(Valores(ordenadas)[i + 1 - Ventana..i + 1]) / Ventana as real)
    ensures decreciente == Menor(tendencia[|rows| - 1], tendencia[0])
    ensures !decreciente
  {
    var a := new Row[|rows|](i requires 0 <= i < |rows| => rows[i]);
    assert a[..] == rows;
    SortByFecha(a);
    ordenadas := a[..];
    assert |ordenadas| == |rows| by {
      assert |multiset(ordenadas)| == |multiset(rows)|;
    }
    tendencia := RollingMean(Valores(ordenadas), Ventana);
    decreciente := Menor(tendencia[|tendencia| - 1], tendencia[0]);
  }

  /** The threshold flags of the analysis text: each compares the unrounded
      percentage and shows it rounded. */
  function Avisos(porcentaje: real, fiabilidad: real): (m: seq<Mensaje>)
    ensures AltaEscasez(Round2(porcentaje)) in m <==> porcentaje > UmbralEscasez
    ensures BajaFiabilidad(Round2(fiabilidad)) in m <==> fiabilidad < UmbralFiabilidad
    ensures forall x :: x in m ==> x == AltaEscasez(Round2(porcentaje)) || x == BajaFiabilidad(Round2(fiabilidad))
    ensures |m| == (if porcentaje > UmbralEscasez then 1 else 0) + (if fiabilidad < UmbralFiabilidad then 1 else 0)
    ensures |m| == 2 ==> m[0].AltaEscasez? && m[1].BajaFiabilidad?
  {
    (if porcentaje > UmbralEscasez then [AltaEscasez(Round2(porcentaje))] else [])
    + (if fiabilidad < UmbralFiabilidad then [BajaFiabilidad(Round2(fiabilidad))] else [])
  }

  /** The automatic analysis text, built piece by piece: the threshold flags,
      then the extreme values, then the trend. */
  method AnalisisAutomatico(rows: seq<Row>, porcentaje: real, fiabilidad: real) returns (mensajes: seq<Mensaje>)
    requires |rows| > 0
    ensures mensajes == Avisos(porcentaje, fiabilidad)
                        + [Extremos(MinValor(Valores(rows)), MaxValor(Valores(rows))), TendenciaCrecienteOEstable]
  {
    mensajes := [];
    var maxValor := MaxValor(Valores(rows));
    var minValor := MinValor(Valores(rows));
    if porcentaje > UmbralEscasez {
      mensajes := mensajes + [AltaEscasez(Round2(porcentaje))];
    }
    if fiabilidad < UmbralFiabilidad {
      mensajes := mensajes + [BajaFiabilidad(Round2(fiabilidad))];
    }
    assert mensajes == Avisos(porcentaje, fiabilidad);
    mensajes := mensajes + [Extremos(minValor, maxValor)];
    var _, _, decreciente := Tendencia(rows);
    if decreciente {
      mensajes := mensajes + [TendenciaDecreciente];
    } else {
      mensajes := mensajes + [TendenciaCrecienteOEstable];
    }
  }

  /** The extreme values reported by the analysis occur in the series and are
      ordered. */
  lemma ExtremosOrdenados(rows: seq<Row>)
    requires |rows| > 0
    ensures MinValor(Valores(rows)) <= MaxValor(Valores(rows))
    ensures exists i :: 0 <= i < |rows| && rows[i].valor == MinValor(Valores(rows))
    ensures exists j :: 0 <= j < |rows| && rows[j].valor == MaxValor(Valores(rows))
  {
    var v := Valores(rows);
    assert MinValor(v) <= v[0] <= MaxValor(v);
    var i :| 0 <= i < |v| && v[i] == MinValor(v);
    var j :| 0 <= j < |v| && v[j] == MaxValor(v);
    assert rows[i].valor == v[i] && rows[j].valor == v[j];
  }

  /** What the data-analysis tab shows. */
  datatype Pantalla =
    | Detenida                // an empty frame stops the script
    | Fallida(error: Error)   // an exception outside the analysis block
    | Panel(registrosPorAnio: seq<Group>, resumen: Indicadores, analisis: seq<Mensaje>)

  /** The data-analysis tab from top to bottom. */
  method Tablero(df: Frame) returns (p: Pantalla)
    ensures |df.rows| == 0 <==> p == Detenida
    ensures p.Fallida? <==> Resumen(df).Err? && |df.rows| > 0
    ensures p.Fallida? ==> p.error == Resumen(df).error
    ensures p.Panel? ==>
      && Resumen(df).Ok?
      && p.registrosPorAnio == RegistrosPorAnio(df.rows)
      && p.resumen == ResumenMostrado(Resumen(df).value)
      && p.analisis == Avisos(Resumen(df).value.porcentajeSinAgua, Resumen(df).value.fiabilidad)
                       + [Extremos(MinValor(Valores(df.rows)), MaxValor(Valores(df.rows))), TendenciaCrecienteOEstable]
  {
    if |df.rows| == 0 {
      return Detenida;
    }
    var registros := RegistrosPorAnio(df.rows);
    var resumen := Resumen(df);
    if resumen.Err? {
      return Fallida(resumen.error);
    }
    var ind := resumen.value;
    var analisis := AnalisisAutomatico(df.rows, ind.porcentajeSinAgua, ind.fiabilidad);
    p := Panel(registros, ResumenMostrado(ind), analisis);
  }
}
