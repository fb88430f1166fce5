/** The prediction page: the colour and badge ladders that present a
    prediction, the windows of data its two charts show, and `handlePredict`,
    which guards the call to the engine and stores what it returns. */
module Analysis {
  import opened Js
  import opened Prediction

  // ===========================================================================
  // Presentation ladders

  /** The CSS-module classes of the prediction card (`styles.predictionCard*`). */
  datatype ClaseTarjeta = TarjetaRoja | TarjetaVerde | TarjetaNaranja

  /** `getColorClass`: 'red', 'green' and 'orange' have their own card; any
      other value, or none, gets the green one. */
  function GetColorClass(color: Option<string>): (r: ClaseTarjeta)
    ensures r == TarjetaRoja <==> color == Some("red")
    ensures r == TarjetaNaranja <==> color == Some("orange")
    ensures r == TarjetaVerde <==> color != Some("red") && color != Some("orange")
  {
    if color == Some("red") then TarjetaRoja
    else if color == Some("green") then TarjetaVerde
    else if color == Some("orange") then TarjetaNaranja
    else TarjetaVerde
  }

  /** The card of an interpretation has the interpretation's own colour. */
  lemma TarjetaDeInterpretacion(c: Color)
    ensures GetColorClass(Some(ColorTexto(c))) ==
              match c
              case Rojo => TarjetaRoja
              case Naranja => TarjetaNaranja
              case Verde => TarjetaVerde
  {
    match c
    case Rojo =>
    case Naranja => assert ColorTexto(c) != "red";
    case Verde => assert ColorTexto(c) != "red" && ColorTexto(c) != "orange";
  }

  const TextoVerde: string := "text-green-600"
  const TextoAmarillo: string := "text-yellow-600"
  const TextoRojo: string := "text-red-600"
  const TextoNaranja: string := "text-orange-600"

  /** `getConfidenceColor`: green from 80, yellow from 60, red below. */
  function GetConfidenceColor(confianza: real): (r: string)
    ensures r == TextoVerde <==> confianza >= 80.0
    ensures r == TextoAmarillo <==> 60.0 <= confianza < 80.0
    ensures r == TextoRojo <==> confianza < 60.0
  {
    if confianza >= 80.0 then TextoVerde
    else if confianza >= 60.0 then TextoAmarillo
    else TextoRojo
  }

  /** The CSS-module classes of the confidence bar (`styles.confidenceFill*`). */
  datatype BarraConfianza = BarraVerde | BarraAmarilla | BarraRoja

  /** `getConfidenceBarClass`: the same thresholds as the confidence text. */
  function GetConfidenceBarClass(confianza: real): (r: BarraConfianza)
    ensures r == BarraVerde <==> confianza >= 80.0
    ensures r == BarraAmarilla <==> 60.0 <= confianza < 80.0
    ensures r == BarraRoja <==> confianza < 60.0
  {
    if confianza >= 80.0 then BarraVerde
    else if confianza >= 60.0 then BarraAmarilla
    else BarraRoja
  }

  /** The confidence text, the confidence bar and the engine's data-quality
      label move together: green text, green bar and 'Alta'; yellow, yellow
      and 'Media'; red, red and 'Baja'. */
  lemma ConfianzaConcuerda(confianza: real)
    ensures GetConfidenceColor(confianza) == TextoVerde <==> GetConfidenceBarClass(confianza) == BarraVerde
    ensures GetConfidenceColor(confianza) == TextoAmarillo <==> GetConfidenceBarClass(confianza) == BarraAmarilla
    ensures GetConfidenceColor(confianza) == TextoRojo <==> GetConfidenceBarClass(confianza) == BarraRoja
    ensures GetConfidenceColor(confianza) == TextoVerde <==> CalidadDatos(confianza) == "Alta"
    ensures GetConfidenceColor(confianza) == TextoAmarillo <==> CalidadDatos(confianza) == "Media"
    ensures GetConfidenceColor(confianza) == TextoRojo <==> CalidadDatos(confianza) == "Baja"
  {
  }

  /** `getDeltaColor`: red from 0.2 kg, green from 0.05 kg, orange below. */
  function GetDeltaColor(delta: real): (r: string)
    ensures r == TextoRojo <==> delta >= 0.2
    ensures r == TextoVerde <==> 0.05 <= delta < 0.2
    ensures r == TextoNaranja <==> delta < 0.05
  {
    if delta >= 0.2 then TextoRojo
    else if delta >= 0.05 then TextoVerde
    else TextoNaranja
  }

  /** Below the 90 % level, where the interpretation is decided by the delta,
      the delta text has the interpretation's colour. */
  lemma DeltaSigueInterpretacion(delta: real, nivelActual: real)
    requires nivelActual < 90.0
    ensures GetDeltaColor(delta) == "text-" + ColorTexto(InterpretarPrediccion(delta, nivelActual).color) + "-600"
  {
  }

  const InsigniaGris: string := "bg-gray-100 text-gray-800 border-gray-300"

  /** The badge of each known priority text. */
  function Insignia(p: Prioridad): string
  {
    match p
    case Urgente => "bg-red-100 text-red-800 border-red-300"
    case Alta => "bg-orange-100 text-orange-800 border-orange-300"
    case MediaAlta => "bg-yellow-100 text-yellow-800 border-yellow-300"
    case Normal => "bg-green-100 text-green-800 border-green-300"
    case Baja => "bg-blue-100 text-blue-800 border-blue-300"
  }

  /** The priority whose text is `s`, if any. */
  function PrioridadDe(s: string): (r: Option<Prioridad>)
    ensures r.Some? ==> PrioridadTexto(r.value) == s
    ensures r.None? ==> forall p: Prioridad :: PrioridadTexto(p) != s
  {
    if s == "URGENTE" then Some(Urgente)
    else if s == "ALTA" then Some(Alta)
    else if s == "MEDIA-ALTA" then Some(MediaAlta)
    else if s == "NORMAL" then Some(Normal)
    else if s == "BAJA" then Some(Baja)
    else None
  }

  /** Each priority's own text is recognised as that priority. */
  lemma PrioridadDeTexto(p: Prioridad)
    ensures PrioridadDe(PrioridadTexto(p)) == Some(p)
  {
    match p
    case Urgente =>
    case Alta => assert "ALTA" != "URGENTE" by { assert |"ALTA"| != |"URGENTE"|; }
    case MediaAlta =>
      assert "MEDIA-ALTA" != "URGENTE" && "MEDIA-ALTA" != "ALTA" by { assert |"MEDIA-ALTA"| == 10; }
    case Normal =>
      assert "NORMAL" != "URGENTE" && "NORMAL" != "ALTA" && "NORMAL" != "MEDIA-ALTA" by { assert |"NORMAL"| == 6; }
    case Baja =>
      assert "BAJA"[0] != "ALTA"[0];
      assert "BAJA" != "URGENTE" && "BAJA" != "MEDIA-ALTA" && "BAJA" != "NORMAL" by { assert |"BAJA"| == 4; }
  }

  /** `getPrioridadBadgeClass`: the five priorities have their own badge;
      anything else, or none, gets the gray one. */
  function GetPrioridadBadgeClass(prioridad: Option<string>): (r: string)
    ensures forall p: Prioridad :: prioridad == Some(PrioridadTexto(p)) ==> r == Insignia(p)
    ensures (forall p: Prioridad :: prioridad != Some(PrioridadTexto(p))) ==> r == InsigniaGris
  {
    if prioridad.None? then InsigniaGris
    else
      assert forall p: Prioridad :: PrioridadDe(PrioridadTexto(p)) == Some(p) by {
        forall p: Prioridad { PrioridadDeTexto(p); }
      }
      match PrioridadDe(prioridad.value)
      case Some(p) => Insignia(p)
      case None => InsigniaGris
  }

  /** Every priority an interpretation can carry gets its own badge, never
      the gray default. */
  lemma InsigniaConocida(p: Prioridad)
    ensures GetPrioridadBadgeClass(Some(PrioridadTexto(p))) == Insignia(p) != InsigniaGris
  {
  }

  /** A heuristic prediction's confidence is at most 65, so the page never
      shows it in green, neither as text nor as the bar. */
  lemma ConfianzaHeuristicaNuncaVerde(rs: seq<Reading>, containerId: int, escalador: Option<Scaler>, red: Red, now: int)
    requires |rs| > 0
    requires escalador.Some? ==> WellFormed(escalador.value)
    ensures var p := Prediccion(rs, containerId, escalador, red, now);
            p.metadatos.metodoUsado == HeuristicaRegresion ==>
              GetConfidenceColor(p.confianza) != TextoVerde && GetConfidenceBarClass(p.confianza) != BarraVerde
  {
    PrediccionConfianza(rs, containerId, escalador, red, now);
  }

  // ===========================================================================
  // The charts

  /** A point of the readings chart. `timestamp` is the reading's time as the
      browser's `toLocaleTimeString` renders it, given here by `hora`. */
  datatype PuntoLectura = PuntoLectura(index: nat, peso: real, nivel: real, timestamp: string)

  /** `historicalData.slice(-20).map(...)`: the last 20 readings, numbered from 1. */
  function ChartData(historicalData: seq<Reading>, hora: real -> string): (r: seq<PuntoLectura>)
    ensures |r| == MinNat(20, |historicalData|)
    ensures forall i :: 0 <= i < |r| ==>
              var x := historicalData[|historicalData| - |r| + i];
              r[i] == PuntoLectura(i + 1, x.peso, x.nivel, hora(x.timestamp))
  {
    var u := Ultimos(historicalData, 20);
    seq(|u|, i requires 0 <= i < |u| => PuntoLectura(i + 1, u[i].peso, u[i].nivel, hora(u[i].timestamp)))
  }

  /** A stored prediction of the history list. */
  datatype PrediccionGuardada = PrediccionGuardada(prediccionPeso: real, confianza: Option<real>,
                                                   timestampRegistro: real)

  /** A bar of the history chart; `fecha` is `toLocaleDateString` of the
      registration time, given here by `fecha`. */
  datatype PuntoHistorial = PuntoHistorial(index: nat, prediccion: real, confianza: real, fecha: string)

  /** `item.confianza || 0` on a value that may be null. */
  function ConfianzaO0(c: Option<real>): (r: real)
    ensures c.Some? ==> r == c.value
    ensures c.None? ==> r == 0.0
  {
    if c.Some? && c.value != 0.0 then c.value else 0.0
  }

  /** `history.slice(-10).map(...)`: the last 10 stored predictions, numbered
      from 1, a missing confidence shown as 0. */
  function HistoryChartData(history: seq<PrediccionGuardada>, fecha: real -> string): (r: seq<PuntoHistorial>)
    ensures |r| == MinNat(10, |history|)
    ensures forall i :: 0 <= i < |r| ==>
              var x := history[|history| - |r| + i];
              r[i] == PuntoHistorial(i + 1, x.prediccionPeso, ConfianzaO0(x.confianza), fecha(x.timestampRegistro))
  {
    var u := Ultimos(history, 10);
    seq(|u|, i requires 0 <= i < |u| =>
      PuntoHistorial(i + 1, u[i].prediccionPeso, ConfianzaO0(u[i].confianza), fecha(u[i].timestampRegistro)))
  }

  /** Readings older than the last 20 do not change the readings chart. */
  lemma ChartDataSoloUltimos(anteriores: seq<Reading>, recientes: seq<Reading>, hora: real -> string)
    requires |recientes| >= 20
    ensures ChartData(anteriores + recientes, hora) == ChartData(recientes, hora)
  {
    var a, b := ChartData(anteriores + recientes, hora), ChartData(recientes, hora);
    assert |a| == |b| == 20;
    forall i | 0 <= i < 20
      ensures a[i] == b[i]
    {
      assert (anteriores + recientes)[|anteriores + recientes| - 20 + i] == recientes[|recientes| - 20 + i];
    }
  }

  /** Predictions older than the last 10 do not change the history chart. */
  lemma HistoryChartDataSoloUltimos(anteriores: seq<PrediccionGuardada>, recientes: seq<PrediccionGuardada>,
                                    fecha: real -> string)
    requires |recientes| >= 10
    ensures HistoryChartData(anteriores + recientes, fecha) == HistoryChartData(recientes, fecha)
  {
    var a, b := HistoryChartData(anteriores + recientes, fecha), HistoryChartData(recientes, fecha);
    assert |a| == |b| == 10;
    forall i | 0 <= i < 10
      ensures a[i] == b[i]
    {
      assert (anteriores + recientes)[|anteriores + recientes| - 10 + i] == recientes[|recientes| - 10 + i];
    }
  }

  // ===========================================================================
  // handlePredict

  /** A failed HTTP request: the server's `error` field, if it sent one, and
      the error's own message. */
  datatype FalloHttp = FalloHttp(errorServidor: Option<string>, mensaje: string)

  const MensajePorDefecto: string := "Error al realizar predicción"
  const MensajeNoCargado: string := "El modelo aún no está cargado. Por favor espera unos segundos."
  const PrefijoInsuficientes: string := "Datos insuficientes. Se requieren al menos 12 lecturas. Recibidos: "

  /** The message the handler shows for a failure:
      `err.response?.data?.error || err.message || 'Error al realizar predicción'`. */
  function MensajeFallo(f: FalloHttp): (s: string)
    ensures s != ""
    ensures f.errorServidor.Some? && f.errorServidor.value != "" ==> s == f.errorServidor.value
    ensures (f.errorServidor.None? || f.errorServidor.value == "") ==>
              s == (if f.mensaje != "" then f.mensaje else MensajePorDefecto)
  {
    StrOr(f.errorServidor, StrOr(Some(f.mensaje), MensajePorDefecto))
  }

  /** The guard's message for too few readings: the fixed text followed by the
      count received, written so that `Number` reads the count back. */
  function MensajeInsuficientes(recibidos: nat): (s: string)
    ensures |s| > |PrefijoInsuficientes| && s[..|PrefijoInsuficientes|] == PrefijoInsuficientes
    ensures ParseNumber(s[|PrefijoInsuficientes|..]) == Num(recibidos as real)
  {
    var s := PrefijoInsuficientes + NatToString(recibidos);
    assert s[|PrefijoInsuficientes|..] == NatToString(recibidos);
    NumberOfNatToString(recibidos);
    s
  }

  /** The two guards before `predict`, with the request between them: the
      readings to predict from, or the message the page shows. `respuesta` is
      the request for the last 20 readings: its `data` field (None when null),
      or the failure. */
  function Guarda(isReady: bool, respuesta: Result<Option<seq<Reading>>, FalloHttp>): (r: Result<seq<Reading>, string>)
    ensures r.Ok? <==> isReady && respuesta.Ok? && respuesta.value.Some? && |respuesta.value.value| >= 12
    ensures r.Ok? ==> r.value == respuesta.value.value
    ensures !isReady ==> r == Err(MensajeNoCargado)
    ensures isReady && respuesta.Err? ==> r == Err(MensajeFallo(respuesta.error))
    ensures isReady && respuesta.Ok? && respuesta.value.None? ==> r == Err(MensajeInsuficientes(0))
    ensures isReady && respuesta.Ok? && respuesta.value.Some? && |respuesta.value.value| < 12 ==>
              r == Err(MensajeInsuficientes(|respuesta.value.value|))
  {
    if !isReady then Err(MensajeNoCargado)
    else if respuesta.Err? then Err(MensajeFallo(respuesta.error))
    else if respuesta.value.None? || |respuesta.value.value| < 12 then
      Err(MensajeInsuficientes(if respuesta.value.Some? then |respuesta.value.value| else 0))
    else Ok(respuesta.value.value)
  }

  /** The page's threshold is the engine's window length: readings that pass
      the guard always fill the network's window, and a count that fails it is
      exactly one the engine would also refuse. */
  lemma GuardaIgualVentana(isReady: bool, rs: seq<Reading>, containerId: int)
    requires isReady
    ensures Guarda(isReady, Ok(Some(rs))).Ok? <==> PrepareSequence(rs, containerId).Ok?
  {
  }

  /** Different counts of readings give different messages: the count shown is
      the count received. */
  lemma MensajeInsuficientesInyectivo(m: nat, n: nat)
    requires MensajeInsuficientes(m) == MensajeInsuficientes(n)
    ensures m == n
  {
    var a, b := MensajeInsuficientes(m), MensajeInsuficientes(n);
    assert a[|PrefijoInsuficientes|..] == NatToString(m);
    assert b[|PrefijoInsuficientes|..] == NatToString(n);
    NatToStringInjective(m, n);
  }

  /** The body of the request that stores a prediction. */
  datatype RegistroPrediccion = RegistroPrediccion(
    idContenedor: int,
    prediccionPeso: real,
    deltaPeso: real,
    pesoActual: real,
    confianza: real,
    modelo: string,
    estado: string,
    decisionAuditable: string)

  /** `predictionsService.create`'s body: the result's weights and confidence,
      the estimator's name with " (Híbrido)" appended, and the state and
      decision of the interpretation. */
  function RegistroDe(containerId: int, p: PredictionResult): (g: RegistroPrediccion)
    ensures g.idContenedor == containerId && g.prediccionPeso == p.pesoPredicho && g.deltaPeso == p.deltaPeso
    ensures g.pesoActual == p.pesoActual && g.confianza == p.confianza
    ensures g.modelo == (if p.metadatos.metodoUsado == LSTM then "LSTM (Híbrido)"
                         else "Heurística (Regresión Lineal) (Híbrido)")
    ensures g.estado == p.interpretacion.estado && g.decisionAuditable == p.interpretacion.decision
  {
    RegistroPrediccion(containerId, p.pesoPredicho, p.deltaPeso, p.pesoActual, p.confianza,
                       MetodoTexto(p.metadatos.metodoUsado) + " (Híbrido)",
                       p.interpretacion.estado, p.interpretacion.decision)
  }

  /** The stored record of a result that has the engine's guarantees. */
  lemma RegistroDeResultado(containerId: int, p: PredictionResult, pesoActual: real, nivelActual: real, aceptado: bool)
    requires p.pesoPredicho >= p.pesoActual == pesoActual && p.deltaPeso >= 0.0 && p.nivelActual == nivelActual
    requires 0.0 <= p.confianza <= 100.0
    requires p.metadatos.metodoUsado == LSTM <==> aceptado
    requires p.interpretacion == InterpretarPrediccion(p.deltaPeso, p.nivelActual)
    ensures var g := RegistroDe(containerId, p);
            g.idContenedor == containerId &&
            g.prediccionPeso >= g.pesoActual == pesoActual && g.deltaPeso >= 0.0 &&
            0.0 <= g.confianza <= 100.0 &&
            g.modelo == (if aceptado then "LSTM (Híbrido)" else "Heurística (Regresión Lineal) (Híbrido)") &&
            g.estado == InterpretarPrediccion(g.deltaPeso, nivelActual).estado &&
            g.decisionAuditable == InterpretarPrediccion(g.deltaPeso, nivelActual).decision
  {
  }

  /** What the page stores for a prediction: never a weight below the current
      one nor a negative delta, a confidence in [0, 100], the model named after
      the estimator actually used, and the state and decision of the
      interpretation of the stored delta. */
  lemma RegistroDePrediccion(rs: seq<Reading>, containerId: int, escalador: Option<Scaler>, red: Red, now: int)
    requires |rs| > 0
    requires escalador.Some? ==> WellFormed(escalador.value)
    ensures var g := RegistroDe(containerId, Prediccion(rs, containerId, escalador, red, now));
            g.idContenedor == containerId &&
            g.prediccionPeso >= g.pesoActual == PesoActual(rs) && g.deltaPeso >= 0.0 &&
            0.0 <= g.confianza <= 100.0 &&
            g.modelo == (if IntentarModelo(rs, containerId, escalador, red).Aceptado? then "LSTM (Híbrido)"
                         else "Heurística (Regresión Lineal) (Híbrido)") &&
            g.estado == InterpretarPrediccion(g.deltaPeso, NivelActual(rs)).estado &&
            g.decisionAuditable == InterpretarPrediccion(g.deltaPeso, NivelActual(rs)).decision
  {
    var p := Prediccion(rs, containerId, escalador, red, now);
    var aceptado := IntentarModelo(rs, containerId, escalador, red).Aceptado?;
    PrediccionAcotada(rs, containerId, escalador, red, now);
    PrediccionConfianza(rs, containerId, escalador, red, now);
    RegistroDeResultado(containerId, p, PesoActual(rs), NivelActual(rs), aceptado);
  }

  /** The response of a list endpoint: its `success` flag and `data`. */
  datatype Respuesta<T> = Respuesta(success: bool, data: seq<T>)

  const PrefijoErrorModelo: string := "Error al cargar el modelo LSTM: "

  /** The page state that the handlers change. */
  class AnalysisView {
    var modelLoading: bool
    var loading: bool
    var error: Option<string>
    var prediction: Option<PredictionResult>
    var history: seq<PrediccionGuardada>
    var historicalData: seq<Reading>

    constructor ()
      ensures modelLoading && !loading && error == None && prediction == None
      ensures history == [] && historicalData == []
    {
      modelLoading := true;
      loading := false;
      error := None;
      prediction := None;
      history := [];
      historicalData := [];
    }

    /** The mount effect: initialises the engine; a failure is shown with its
        message. Either way the model is no longer loading. */
    method InitModel(servicio: PredictionService, publicUrl: string, cargaModelo: string -> bool,
                     descarga: string -> Descarga) returns (r: Result<(), string>)
      requires servicio.Valid()
      requires forall p :: descarga(p).Obtenido? ==> WellFormed(descarga(p).escalador)
      modifies this, servicio
      ensures servicio.Valid() && !modelLoading
      ensures var paths := PossiblePaths(publicUrl);
              var k := PrimerExito(paths, cargaModelo, descarga, 0);
              (k.Some? ==> servicio.scalerParams == Some(descarga(ScalerPath(paths[k.value])).escalador) &&
                           servicio.isReady && r.Ok?) &&
              (k.None? ==> servicio.scalerParams == old(servicio.scalerParams) &&
                           servicio.isReady == (old(servicio.isReady) || AlgunModelo(paths, cargaModelo)) &&
                           (r.Ok? <==> AlgunModelo(paths, cargaModelo) && old(servicio.scalerParams).Some?))
      ensures r.Ok? ==> servicio.isReady && servicio.scalerParams.Some? && error == old(error)
      ensures r.Err? ==> error == Some(PrefijoErrorModelo + MensajeErrorCarga)
      ensures loading == old(loading) && prediction == old(prediction)
      ensures history == old(history) && historicalData == old(historicalData)
    {
      r := servicio.Initialize(publicUrl, cargaModelo, descarga);
      if r.Err? {
        error := Some(PrefijoErrorModelo + r.error);
      }
      modelLoading := false;
    }

    /** `fetchHistory`: keeps the list only when the response reports success;
        a failed request (`None`) changes nothing. */
    method FetchHistory(respuesta: Option<Respuesta<PrediccionGuardada>>)
      modifies this
      ensures history == (if respuesta.Some? && respuesta.value.success then respuesta.value.data else old(history))
      ensures modelLoading == old(modelLoading) && loading == old(loading) && error == old(error)
      ensures prediction == old(prediction) && historicalData == old(historicalData)
    {
      if respuesta.Some? && respuesta.value.success {
        history := respuesta.value.data;
      }
    }

    /** `fetchHistoricalData`: the same for the readings of the chart. */
    method FetchHistoricalData(respuesta: Option<Respuesta<Reading>>)
      modifies this
      ensures historicalData == (if respuesta.Some? && respuesta.value.success then respuesta.value.data
                                 else old(historicalData))
      ensures modelLoading == old(modelLoading) && loading == old(loading) && error == old(error)
      ensures prediction == old(prediction) && history == old(history)
    {
      if respuesta.Some? && respuesta.value.success {
        historicalData := respuesta.value.data;
      }
    }

    /** The end of `handlePredict` once `predict` returned: the prediction is
        shown and stored; a failed store shows its error, a successful one
        refreshes the history. */
    method MostrarPrediccion(resultado: PredictionResult, containerId: int, guardado: Option<FalloHttp>)
      returns (registro: Option<RegistroPrediccion>, recargaHistorial: bool)
      modifies this
      ensures prediction == Some(resultado) && registro == Some(RegistroDe(containerId, resultado))
      ensures error == (if guardado.Some? then Some(MensajeFallo(guardado.value)) else old(error))
      ensures recargaHistorial == guardado.None?
      ensures modelLoading == old(modelLoading) && loading == old(loading)
      ensures history == old(history) && historicalData == old(historicalData)
    {
      prediction := Some(resultado);
      registro := Some(RegistroDe(containerId, resultado));
      recargaHistorial := guardado.None?;
      if guardado.Some? {
        error := Some(MensajeFallo(guardado.value));
      }
    }

    /** `handlePredict`. `respuesta` is the request for the recent readings,
        `guardado` the outcome of storing the prediction (None for success).
        `predijo` tells whether `predict` was called: only when the engine is
        ready and at least 12 readings came back. A failed store still shows
        the prediction, with the error beside it, and only a successful one
        refreshes the history (`recargaHistorial`). */
    method HandlePredict(servicio: PredictionService, respuesta: Result<Option<seq<Reading>>, FalloHttp>,
                         containerId: int, red: Red, now: int, guardado: Option<FalloHttp>)
      returns (predijo: bool, registro: Option<RegistroPrediccion>, recargaHistorial: bool)
      requires servicio.Valid()
      modifies this
      ensures !loading
      ensures predijo <==> Guarda(servicio.isReady, respuesta).Ok?
      ensures var g := Guarda(servicio.isReady, respuesta);
              (g.Err? ==> error == Some(g.error) && prediction == old(prediction) &&
                          registro == None && !recargaHistorial) &&
              (g.Ok? ==> var p := Prediccion(g.value, containerId, servicio.scalerParams, red, now);
                         prediction == Some(p) && registro == Some(RegistroDe(containerId, p)) &&
                         error == (if guardado.Some? then Some(MensajeFallo(guardado.value)) else None) &&
                         recargaHistorial == guardado.None?)
      ensures modelLoading == old(modelLoading) && history == old(history) && historicalData == old(historicalData)
    {
      loading := true;
      error := None;
      predijo, registro, recargaHistorial := false, None, false;
      var g := Guarda(servicio.isReady, respuesta);
      if g.Err? {
        error := Some(g.error);
        loading := false;
        return;
      }
      predijo := true;
      var resultado := servicio.Predict(g.value, containerId, red, now);
      assert resultado.Ok?;
      registro, recargaHistorial := MostrarPrediccion(resultado.value, containerId, guardado);
      loading := false;
    }
  }
}
