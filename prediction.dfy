/** The hybrid prediction engine (src/services/predictionService.js): feature
    preparation, min/scale normalisation, the least-squares growth rate and the
    heuristic estimator built on it, the data-quality confidence score, the
    plausibility gate that accepts or rejects the network's output, the safety
    clamps and the priority ladder. The network itself is a parameter: a function
    from the normalised 12 x 5 window to its scaled output, or None when inference
    fails. */
module Prediction {
  import opened Js

  // ===========================================================================
  // Readings and feature preparation

  /** One sensor reading. `timestamp` is what `getTime()` gives (milliseconds, a
      JavaScript number); `hora` and `diaSemana` are what `getHours()` and
      `getDay()` give for it in the browser's time zone. */
  datatype Reading = Reading(
    timestamp: real,
    peso: real,
    nivel: real,
    pesoSuave: Option<real>,
    nivelSuave: Option<real>,
    hora: int,
    diaSemana: int)

  /** `suave || raw`: the smoothed value when present and non-zero, else the raw one. */
  function Preferido(suave: Option<real>, raw: real): (r: real)
    ensures (suave.Some? && suave.value != 0.0) ==> r == suave.value
    ensures (suave.None? || suave.value == 0.0) ==> r == raw
  {
    if suave.Some? && suave.value != 0.0 then suave.value else raw
  }

  function PesoDe(r: Reading): real { Preferido(r.pesoSuave, r.peso) }

  function NivelDe(r: Reading): real { Preferido(r.nivelSuave, r.nivel) }

  function Pesos(rs: seq<Reading>): seq<real>
  {
    seq(|rs|, i requires 0 <= i < |rs| => PesoDe(rs[i]))
  }

  function Niveles(rs: seq<Reading>): seq<real>
  {
    seq(|rs|, i requires 0 <= i < |rs| => NivelDe(rs[i]))
  }

  function Instantes(rs: seq<Reading>): seq<real>
  {
    seq(|rs|, i requires 0 <= i < |rs| => rs[i].timestamp)
  }

  /** The weight and level of the most recent reading, smoothed-preferred. */
  function PesoActual(rs: seq<Reading>): real requires |rs| > 0 { PesoDe(rs[|rs| - 1]) }

  function NivelActual(rs: seq<Reading>): real requires |rs| > 0 { NivelDe(rs[|rs| - 1]) }

  /** The last `k` elements, or all of them when there are fewer (`xs.slice(-k)`). */
  function Ultimos<T>(xs: seq<T>, k: nat): (r: seq<T>)
    ensures |r| == MinNat(k, |xs|)
    ensures r == xs[|xs| - |r|..]
  {
    xs[|xs| - MinNat(k, |xs|)..]
  }

  const SequenceLength: nat := 12

  /** The known container set of the one-hot encoding. */
  const Contenedores: seq<int> := [1]

  /** Width of a feature row: weight, level, hour, weekday, one entry per known container. */
  const NFeatures: nat := 4 + |Contenedores|

  function OneHot(containerId: int): seq<real>
  {
    seq(|Contenedores|, j requires 0 <= j < |Contenedores| => if Contenedores[j] == containerId then 1.0 else 0.0)
  }

  /** The feature row of one reading, in the order the network was trained on. */
  function Caracteristicas(r: Reading, containerId: int): seq<real>
  {
    [PesoDe(r), NivelDe(r), r.hora as real, r.diaSemana as real] + OneHot(containerId)
  }

  /** `prepareSequence`: every reading becomes a feature row and the last 12 rows
      are kept; fewer than 12 is an error carrying the number of rows obtained. */
  function PrepareSequence(rs: seq<Reading>, containerId: int): (r: Result<seq<seq<real>>, nat>)
    ensures r.Ok? <==> |rs| >= SequenceLength
    ensures r.Err? ==> r.error == |rs|
    ensures r.Ok? ==> (|r.value| == SequenceLength &&
      forall i :: 0 <= i < SequenceLength ==>
        var x := rs[|rs| - SequenceLength + i];
        r.value[i] == [PesoDe(x), NivelDe(x), x.hora as real, x.diaSemana as real,
                       if containerId == 1 then 1.0 else 0.0])
  {
    var processed := seq(|rs|, i requires 0 <= i < |rs| => Caracteristicas(rs[i], containerId));
    var sequence := Ultimos(processed, SequenceLength);
    if |sequence| < SequenceLength then Err(|sequence|) else Ok(sequence)
  }

  const PrefijoDatosInsuficientes: string := "Se necesitan al menos 12 lecturas. Tienes: "

  /** The message `prepareSequence` throws when the window cannot be filled. */
  function MensajeDatosInsuficientes(recibidas: nat): string
  {
    PrefijoDatosInsuficientes + NatToString(recibidas)
  }

  /** The insufficient-data message ends with the number of readings received,
      written so that `Number` reads it back. */
  lemma MensajeNombraCantidad(recibidas: nat)
    ensures var m := MensajeDatosInsuficientes(recibidas);
            |m| > |PrefijoDatosInsuficientes| &&
            m[..|PrefijoDatosInsuficientes|] == PrefijoDatosInsuficientes &&
            ParseNumber(m[|PrefijoDatosInsuficientes|..]) == Num(recibidas as real)
  {
    var m := MensajeDatosInsuficientes(recibidas);
    assert m[|PrefijoDatosInsuficientes|..] == NatToString(recibidas);
    NumberOfNatToString(recibidas);
  }

  // ===========================================================================
  // Normalisation

  /** The scaler parameters file: per-column `min` and `scale`. */
  datatype Scaler = Scaler(min: seq<real>, scale: seq<real>)

  /** Parameters as the loader must deliver them: one entry per feature and a
      non-zero weight scale (denormalisation divides by it). */
  predicate WellFormed(sc: Scaler)
  {
    |sc.min| == NFeatures && |sc.scale| == NFeatures && sc.scale[0] != 0.0
  }

  function NormalizeRow(row: seq<real>, sc: Scaler): seq<real>
    requires |row| <= |sc.min| && |row| <= |sc.scale|
  {
    seq(|row|, j requires 0 <= j < |row| => (row[j] - sc.min[j]) * sc.scale[j])
  }

  /** `normalizeData`: column j becomes `(v - min[j]) * scale[j]`; the shape is kept. */
  function NormalizeData(data: seq<seq<real>>, sc: Scaler): (r: seq<seq<real>>)
    requires forall i :: 0 <= i < |data| ==> |data[i]| <= |sc.min| && |data[i]| <= |sc.scale|
    ensures |r| == |data|
    ensures forall i :: 0 <= i < |data| ==> |r[i]| == |data[i]|
    ensures forall i, j :: 0 <= i < |data| && 0 <= j < |data[i]| ==>
              r[i][j] == (data[i][j] - sc.min[j]) * sc.scale[j]
  {
    seq(|data|, i requires 0 <= i < |data| => NormalizeRow(data[i], sc))
  }

  /** `denormalizePrediction`: inverts the weight column (column 0) only. */
  function DenormalizePrediction(scaled: real, sc: Scaler): (r: real)
    requires |sc.min| > 0 && |sc.scale| > 0 && sc.scale[0] != 0.0
    ensures (r - sc.min[0]) * sc.scale[0] == scaled
  {
    var s := sc.scale[0];
    assert (scaled / s) * s == scaled;
    scaled / s + sc.min[0]
  }

  /** Denormalising the normalised weight of a row gives the weight back. */
  lemma NormalizeRoundTrip(row: seq<real>, sc: Scaler)
    requires 0 < |row| <= |sc.min| && |row| <= |sc.scale| && sc.scale[0] != 0.0
    ensures DenormalizePrediction(NormalizeData([row], sc)[0][0], sc) == row[0]
  {
    var s := sc.scale[0];
    var n := NormalizeData([row], sc)[0][0];
    assert n == (row[0] - sc.min[0]) * s;
    assert n / s == row[0] - sc.min[0];
  }

  /** Normalising a denormalised output gives the output back. */
  lemma DenormalizeRoundTrip(scaled: real, sc: Scaler)
    requires |sc.min| > 0 && |sc.scale| > 0 && sc.scale[0] != 0.0
    ensures NormalizeData([[DenormalizePrediction(scaled, sc)]], sc)[0][0] == scaled
  {
    var s := sc.scale[0];
    var d := DenormalizePrediction(scaled, sc);
    assert d - sc.min[0] == scaled / s;
    assert (scaled / s) * s == scaled;
  }

  // ===========================================================================
  // Least-squares growth rate and heuristic estimator

  const MsPorHora: real := 1000.0 * 60.0 * 60.0

  /** Hours elapsed since the first timestamp. */
  function Horas(ts: seq<real>): (h: seq<real>)
    requires |ts| > 0
    ensures |h| == |ts| && h[0] == 0.0
    ensures forall i :: 0 <= i < |h| ==> h[i] * MsPorHora == ts[i] - ts[0]
  {
    seq(|ts|, i requires 0 <= i < |ts| => (ts[i] - ts[0]) / MsPorHora)
  }

  function Sum(xs: seq<real>): real
  {
    if xs == [] then 0.0 else Sum(xs[..|xs| - 1]) + xs[|xs| - 1]
  }

  /** `xs.reduce((sum, x, i) => sum + x * ys[i], 0)`. */
  function SumProducts(xs: seq<real>, ys: seq<real>): real
    requires |xs| == |ys|
  {
    if xs == [] then 0.0
    else SumProducts(xs[..|xs| - 1], ys[..|ys| - 1]) + xs[|xs| - 1] * ys[|ys| - 1]
  }

  function Abs(x: real): real { if x < 0.0 then -x else x }

  /** `n * sumX2 - sumX * sumX` of the least-squares fit. */
  function Denominador(n: real, sumX: real, sumX2: real): real
  {
    n * sumX2 - sumX * sumX
  }

  /** `n * sumXY - sumX * sumY` of the least-squares fit. */
  function Numerador(n: real, sumX: real, sumY: real, sumXY: real): real
  {
    n * sumXY - sumX * sumY
  }

  /** The least-squares denominator of a series of timestamps. */
  function DenominadorDe(timestamps: seq<real>): real
    requires |timestamps| > 0
  {
    var h := Horas(timestamps);
    Denominador(|timestamps| as real, Sum(h), SumProducts(h, h))
  }

  /** The decision at the end of `calcularTasaCrecimiento`, from the four sums,
      the first and last weight and the last sample's hour: the least-squares
      slope floored at 0, or with a degenerate denominator the plain end-to-end
      slope (over one hour when the last hour is 0), which is not floored. */
  function Pendiente(n: real, sumX: real, sumY: real, sumXY: real, sumX2: real,
                     primero: real, ultimo: real, ultimaHora: real): real
  {
    var den := Denominador(n, sumX, sumX2);
    if Abs(den) < 0.0001 then
      (ultimo - primero) / (if ultimaHora != 0.0 then ultimaHora else 1.0)
    else
      Max(0.0, Numerador(n, sumX, sumY, sumXY) / den)
  }

  /** `calcularTasaCrecimiento`: kg per hour fitted by ordinary least squares of
      weight against hours since the first sample; 0 with fewer than two
      samples, and never negative away from a degenerate denominator. */
  function CalcularTasaCrecimiento(pesos: seq<real>, timestamps: seq<real>): (r: real)
    requires |pesos| == |timestamps|
    ensures |pesos| < 2 ==> r == 0.0
    ensures |pesos| >= 2 && Abs(DenominadorDe(timestamps)) >= 0.0001 ==> r >= 0.0
  {
    var n := |pesos|;
    if n < 2 then 0.0
    else
      var h := Horas(timestamps);
      Pendiente(n as real, Sum(h), Sum(pesos), SumProducts(h, pesos), SumProducts(h, h),
                pesos[0], pesos[n - 1], h[n - 1])
  }

  /** The two sum identities of points on the line `a + b * x`. */
  predicate SumasDeLinea(n: real, sx: real, sy: real, sxy: real, sxx: real, a: real, b: real)
  {
    sy == n * a + b * sx && sxy == a * sx + b * sxx
  }

  /** Sums taken along a line with slope `b` give the least-squares quotient `b`,
      so away from a degenerate denominator the fitted rate is `max(0, b)`. */
  lemma PendienteDeLinea(n: real, sx: real, sy: real, sxy: real, sxx: real,
                         primero: real, ultimo: real, ultimaHora: real, a: real, b: real)
    requires SumasDeLinea(n, sx, sy, sxy, sxx, a, b)
    requires Abs(Denominador(n, sx, sxx)) >= 0.0001
    ensures Pendiente(n, sx, sy, sxy, sxx, primero, ultimo, ultimaHora) == Max(0.0, b)
  {
    var num, den := Numerador(n, sx, sy, sxy), Denominador(n, sx, sxx);
    assert num == b * den;
  }

  // Linearity of the two sums, one step of arithmetic at a time.

  lemma PasoProductosAditivos(s: real, su: real, sv: real, x: real, u: real, v: real,
                              s1: real, su1: real, sv1: real)
    requires s == su + sv && s1 == s + x * (u + v) && su1 == su + x * u && sv1 == sv + x * v
    ensures s1 == su1 + sv1
  {
  }

  /** The sum of products is additive in its second argument. */
  lemma {:induction false} ProductosAditivos(xs: seq<real>, us: seq<real>, vs: seq<real>, ws: seq<real>)
    requires |xs| == |us| == |vs| == |ws|
    requires forall i :: 0 <= i < |ws| ==> ws[i] == us[i] + vs[i]
    ensures SumProducts(xs, ws) == SumProducts(xs, us) + SumProducts(xs, vs)
  {
    if xs != [] {
      var n := |xs|;
      ProductosAditivos(xs[..n - 1], us[..n - 1], vs[..n - 1], ws[..n - 1]);
      PasoProductosAditivos(SumProducts(xs[..n - 1], ws[..n - 1]), SumProducts(xs[..n - 1], us[..n - 1]),
                            SumProducts(xs[..n - 1], vs[..n - 1]), xs[n - 1], us[n - 1], vs[n - 1],
                            SumProducts(xs, ws), SumProducts(xs, us), SumProducts(xs, vs));
    }
  }

  lemma PasoProductosEscalados(s: real, sz: real, x: real, z: real, b: real, s1: real, sz1: real)
    requires s == b * sz && s1 == s + x * (b * z) && sz1 == sz + x * z
    ensures s1 == b * sz1
  {
  }

  /** A common factor of the second argument comes out of the sum of products. */
  lemma {:induction false} ProductosEscalados(xs: seq<real>, zs: seq<real>, ws: seq<real>, b: real)
    requires |xs| == |zs| == |ws|
    requires forall i :: 0 <= i < |ws| ==> ws[i] == b * zs[i]
    ensures SumProducts(xs, ws) == b * SumProducts(xs, zs)
  {
    if xs != [] {
      var n := |xs|;
      ProductosEscalados(xs[..n - 1], zs[..n - 1], ws[..n - 1], b);
      PasoProductosEscalados(SumProducts(xs[..n - 1], ws[..n - 1]), SumProducts(xs[..n - 1], zs[..n - 1]),
                             xs[n - 1], zs[n - 1], b, SumProducts(xs, ws), SumProducts(xs, zs));
    }
  }

  lemma PasoProductosConstante(s: real, sx: real, x: real, a: real, s1: real, sx1: real)
    requires s == a * sx && s1 == s + x * a && sx1 == sx + x
    ensures s1 == a * sx1
  {
  }

  /** Products with a constant sum to the constant times the plain sum. */
  lemma {:induction false} ProductosConstante(xs: seq<real>, ws: seq<real>, a: real)
    requires |xs| == |ws|
    requires forall i :: 0 <= i < |ws| ==> ws[i] == a
    ensures SumProducts(xs, ws) == a * Sum(xs)
  {
    if xs != [] {
      var n := |xs|;
      ProductosConstante(xs[..n - 1], ws[..n - 1], a);
      PasoProductosConstante(SumProducts(xs[..n - 1], ws[..n - 1]), Sum(xs[..n - 1]), xs[n - 1], a,
                             SumProducts(xs, ws), Sum(xs));
    }
  }

  lemma PasoSumaLineal(m: real, sx: real, sy: real, x: real, y: real, a: real, b: real,
                        m1: real, sx1: real, sy1: real)
    requires sy == m * a + b * sx && y == a + b * x
    requires m1 == m + 1.0 && sx1 == sx + x && sy1 == sy + y
    ensures sy1 == m1 * a + b * sx1
  {
  }

  /** Points `ys` on the line `a + b * x` over `xs` sum to `n * a + b * sum(xs)`. */
  lemma {:induction false} SumaDeLinea(xs: seq<real>, ys: seq<real>, a: real, b: real)
    requires |xs| == |ys|
    requires forall i :: 0 <= i < |ys| ==> ys[i] == a + b * xs[i]
    ensures Sum(ys) == |xs| as real * a + b * Sum(xs)
  {
    if xs != [] {
      var n := |xs|;
      var xs', ys' := xs[..n - 1], ys[..n - 1];
      SumaDeLinea(xs', ys', a, b);
      PasoSumaLineal(|xs'| as real, Sum(xs'), Sum(ys'), xs[n - 1], ys[n - 1], a, b, |xs| as real, Sum(xs), Sum(ys));
    }
  }

  /** `n` copies of `a`. */
  function Repetido(n: nat, a: real): (r: seq<real>)
    ensures |r| == n && forall i :: 0 <= i < n ==> r[i] == a
  {
    seq(n, i => a)
  }

  /** Each value multiplied by `b`. */
  function Escalado(xs: seq<real>, b: real): (r: seq<real>)
    ensures |r| == |xs| && forall i :: 0 <= i < |xs| ==> r[i] == b * xs[i]
  {
    seq(|xs|, i requires 0 <= i < |xs| => b * xs[i])
  }

  /** Points `ys` on the line `a + b * x` over `xs` have `sum(x*y) == a * sum(x) + b * sum(x*x)`. */
  lemma ProductosDeLinea(xs: seq<real>, ys: seq<real>, a: real, b: real)
    requires |xs| == |ys|
    requires forall i :: 0 <= i < |ys| ==> ys[i] == a + b * xs[i]
    ensures SumProducts(xs, ys) == a * Sum(xs) + b * SumProducts(xs, xs)
  {
    var cs, bs := Repetido(|xs|, a), Escalado(xs, b);
    ProductosAditivos(xs, cs, bs, ys);
    ProductosConstante(xs, cs, a);
    ProductosEscalados(xs, xs, bs, b);
  }

  /** Points on a line satisfy both sum identities of `SumasDeLinea`. */
  lemma SumasSobreLinea(xs: seq<real>, ys: seq<real>, a: real, b: real)
    requires |xs| == |ys|
    requires forall i :: 0 <= i < |ys| ==> ys[i] == a + b * xs[i]
    ensures SumasDeLinea(|xs| as real, Sum(xs), Sum(ys), SumProducts(xs, ys), SumProducts(xs, xs), a, b)
  {
    SumaDeLinea(xs, ys, a, b);
    ProductosDeLinea(xs, ys, a, b);
  }

  /** Weights that lie exactly on a line `a + b * hours` grow at its slope: away
      from a degenerate denominator the fitted rate is `max(0, b)`. */
  lemma TasaDeLinea(pesos: seq<real>, timestamps: seq<real>, a: real, b: real)
    requires |pesos| == |timestamps| >= 2
    requires forall i :: 0 <= i < |pesos| ==> pesos[i] == a + b * Horas(timestamps)[i]
    requires Abs(DenominadorDe(timestamps)) >= 0.0001
    ensures CalcularTasaCrecimiento(pesos, timestamps) == Max(0.0, b)
  {
    var h, n := Horas(timestamps), |pesos|;
    SumasSobreLinea(h, pesos, a, b);
    PendienteDeLinea(n as real, Sum(h), Sum(pesos), SumProducts(h, pesos), SumProducts(h, h),
                     pesos[0], pesos[n - 1], h[n - 1], a, b);
  }

  /** Weights 1.0, 1.2, 1.4 one hour apart grow at 0.2 kg per hour. */
  lemma TasaEjemploHorario(t0: real)
    ensures CalcularTasaCrecimiento([1.0, 1.2, 1.4], [t0, t0 + MsPorHora, t0 + 2.0 * MsPorHora]) == 0.2
  {
    var ts := [t0, t0 + MsPorHora, t0 + 2.0 * MsPorHora];
    var h := Horas(ts);
    assert h == [0.0, 1.0, 2.0];
    assert h[..2] == [0.0, 1.0] && h[..2][..1] == [0.0] && h[..2][..1][..0] == [];
    assert Sum(h[..2][..1]) == 0.0;
    assert Sum(h[..2]) == 1.0;
    assert Sum(h) == 3.0;
    assert SumProducts(h[..2][..1], h[..2][..1]) == 0.0;
    assert SumProducts(h[..2], h[..2]) == 1.0;
    assert SumProducts(h, h) == 5.0;
    TasaDeLinea([1.0, 1.2, 1.4], ts, 1.0, 0.2);
  }

  /** The degenerate-denominator fallback is not floored at 0: two readings with
      the same timestamp and a falling weight give a negative rate. */
  lemma TasaDegeneradaNegativa(t: real)
    ensures CalcularTasaCrecimiento([2.0, 1.0], [t, t]) == -1.0
  {
    var h := Horas([t, t]);
    assert h == [0.0, 0.0];
    assert h[..1] == [0.0] && h[..1][..0] == [];
    assert Sum(h[..1]) == 0.0 && Sum(h) == 0.0;
    assert SumProducts(h[..1], h[..1]) == 0.0 && SumProducts(h, h) == 0.0;
    assert DenominadorDe([t, t]) == 0.0;
  }

  const VentanaHeuristica: nat := 8

  datatype Heuristica = Heuristica(pesoPredicho: real, deltaPeso: real, tasaCrecimiento: real)

  /** `predecirPorHeuristica`: the growth rate over the last `min(8, n)` readings,
      projected `horasProyeccion` hours ahead of the latest weight. */
  function PredecirPorHeuristica(rs: seq<Reading>, horasProyeccion: real): (r: Heuristica)
    requires |rs| > 0
    ensures r.deltaPeso == r.tasaCrecimiento * horasProyeccion
    ensures r.pesoPredicho == PesoActual(rs) + r.deltaPeso
  {
    var recientes := Ultimos(rs, VentanaHeuristica);
    var pesos := Pesos(recientes);
    var tasa := CalcularTasaCrecimiento(pesos, Instantes(recientes));
    var pesoActual := pesos[|pesos| - 1];
    var delta := tasa * horasProyeccion;
    Heuristica(pesoActual + delta, delta, tasa)
  }

  /** Readings older than the last eight have no influence on the heuristic. */
  lemma HeuristicaSoloUltimos(anteriores: seq<Reading>, recientes: seq<Reading>, horasProyeccion: real)
    requires |recientes| >= VentanaHeuristica
    ensures PredecirPorHeuristica(anteriores + recientes, horasProyeccion)
         == PredecirPorHeuristica(recientes, horasProyeccion)
  {
    var todas := anteriores + recientes;
    assert Ultimos(todas, VentanaHeuristica) == Ultimos(recientes, VentanaHeuristica);
  }

  /** With eight or fewer readings the heuristic fits all of them. */
  lemma HeuristicaUsaTodasSiPocas(rs: seq<Reading>, horasProyeccion: real)
    requires 0 < |rs| <= VentanaHeuristica
    ensures PredecirPorHeuristica(rs, horasProyeccion).tasaCrecimiento
         == CalcularTasaCrecimiento(Pesos(rs), Instantes(rs))
  {
    assert Ultimos(rs, VentanaHeuristica) == rs;
  }

  // ===========================================================================
  // Confidence score

  function Media(xs: seq<real>): real
    requires |xs| > 0
  {
    Sum(xs) / |xs| as real
  }

  function Desvios(xs: seq<real>, m: real): seq<real>
  {
    seq(|xs|, i requires 0 <= i < |xs| => (xs[i] - m) * (xs[i] - m))
  }

  /** The population variance (divides by n); `calcularDesviacionEstandar` is its
      square root. It is never negative, and a series whose values are all equal
      has variance 0, so it takes both low-variability penalties. */
  function Varianza(xs: seq<real>): (v: real)
    requires |xs| > 0
    ensures v >= 0.0
    ensures (forall i :: 0 <= i < |xs| ==> xs[i] == xs[0]) ==> v == 0.0
  {
    DesviosNoNegativos(xs);
    DesviosDeConstante(xs);
    Sum(Desvios(xs, Media(xs))) / |xs| as real
  }

  /** `calcularDesviacionEstandar(xs) < t`. On an empty list the mean is NaN and the
      comparison is false; otherwise, since the standard deviation is the
      non-negative root of the variance, the test is `variance < t * t`
      (lemma `DesviacionComparada`). */
  predicate DesviacionMenorQue(xs: seq<real>, t: real)
  {
    |xs| > 0 && Varianza(xs) < t * t
  }

  /** Comparing a non-negative root with a positive threshold is comparing squares. */
  lemma DesviacionComparada(varianza: real, desviacion: real, t: real)
    requires desviacion >= 0.0 && t > 0.0 && desviacion * desviacion == varianza
    ensures desviacion < t <==> varianza < t * t
  {
    if desviacion < t {
      CuadradoMenor(desviacion, t);
    } else {
      CuadradoNoMenor(t, desviacion);
    }
  }

  lemma CuadradoMenor(x: real, y: real)
    requires 0.0 <= x < y
    ensures x * x < y * y
  {
    var p, q, r := x * x, x * y, y * y;
    assert p <= q;
    assert q < r;
  }

  lemma CuadradoNoMenor(x: real, y: real)
    requires 0.0 < x <= y
    ensures x * x <= y * y
  {
    var p, q, r := x * x, x * y, y * y;
    assert p <= q;
    assert q <= r;
  }

  lemma {:induction false} SumNoNegativa(xs: seq<real>)
    requires forall i :: 0 <= i < |xs| ==> xs[i] >= 0.0
    ensures Sum(xs) >= 0.0
  {
    if xs != [] {
      SumNoNegativa(xs[..|xs| - 1]);
    }
  }

  /** The squared deviations from the mean add up to a non-negative total. */
  lemma DesviosNoNegativos(xs: seq<real>)
    requires |xs| > 0
    ensures Sum(Desvios(xs, Media(xs))) >= 0.0
  {
    var d := Desvios(xs, Media(xs));
    forall i | 0 <= i < |d| ensures d[i] >= 0.0 {
      var e := xs[i] - Media(xs);
      assert d[i] == e * e;
    }
    SumNoNegativa(d);
  }

  /** Equal values have the common value as their mean and no deviation from it. */
  lemma DesviosDeConstante(xs: seq<real>)
    requires |xs| > 0
    ensures (forall i :: 0 <= i < |xs| ==> xs[i] == xs[0]) ==> Sum(Desvios(xs, Media(xs))) == 0.0
  {
    if forall i :: 0 <= i < |xs| ==> xs[i] == xs[0] {
      SumConstante(xs, xs[0]);
      assert Media(xs) == xs[0];
      SumConstante(Desvios(xs, xs[0]), 0.0);
    }
  }

  lemma {:induction false} SumConstante(xs: seq<real>, c: real)
    requires forall i :: 0 <= i < |xs| ==> xs[i] == c
    ensures Sum(xs) == |xs| as real * c
  {
    if xs != [] {
      SumConstante(xs[..|xs| - 1], c);
    }
  }

  /** The variance divides by n, not n - 1: for 0 and 2 it is 1. */
  lemma VarianzaPoblacional()
    ensures Varianza([0.0, 2.0]) == 1.0
  {
    var xs := [0.0, 2.0];
    assert xs[..1] == [0.0];
    assert Sum(xs) == 2.0;
    var d := Desvios(xs, 1.0);
    assert d == [1.0, 1.0];
    assert d[..1] == [1.0];
  }

  /** `new Set(pesos.slice(-5)).size === 1`. */
  predicate SensorEstatico(pesos: seq<real>)
  {
    |(set x | x in Ultimos(pesos, 5))| == 1
  }

  /** The set of the last five weights has one element exactly when there is at
      least one weight and the last five (or all) are equal. */
  lemma SensorEstaticoIff(pesos: seq<real>)
    ensures SensorEstatico(pesos) <==>
            |pesos| > 0 && forall i :: 0 <= i < |Ultimos(pesos, 5)| ==> Ultimos(pesos, 5)[i] == pesos[|pesos| - 1]
  {
    if SensorEstatico(pesos) {
      UnicoValor(Ultimos(pesos, 5));
      assert |pesos| > 0;
    }
    if |pesos| > 0 && forall i :: 0 <= i < |Ultimos(pesos, 5)| ==> Ultimos(pesos, 5)[i] == pesos[|pesos| - 1] {
      TodosIguales(Ultimos(pesos, 5), pesos[|pesos| - 1]);
    }
  }

  /** A sequence whose set of values is a singleton repeats its last element. */
  lemma UnicoValor(u: seq<real>)
    requires |(set x | x in u)| == 1
    ensures |u| > 0 && forall i :: 0 <= i < |u| ==> u[i] == u[|u| - 1]
  {
    var s := set x | x in u;
    assert |u| > 0;
    var y := u[|u| - 1];
    assert y in s;
    var t := s - {y};
    assert s == t + {y};
    assert t == {};
    forall i | 0 <= i < |u| ensures u[i] == y {
      assert u[i] in s;
    }
  }

  /** A non-empty sequence of copies of `y` has `{y}` as its set of values. */
  lemma TodosIguales(u: seq<real>, y: real)
    requires |u| > 0 && forall i :: 0 <= i < |u| ==> u[i] == y
    ensures (set x | x in u) == {y}
  {
    assert u[0] in u;
  }

  /** How many values are at least `t`. */
  function ContarAlMenos(xs: seq<real>, t: real): nat
  {
    if xs == [] then 0 else ContarAlMenos(xs[..|xs| - 1], t) + (if xs[|xs| - 1] >= t then 1 else 0)
  }

  /** `!d.peso || !d.nivel || d.peso < 0 || d.nivel < 0`, on the raw values. */
  predicate LecturaInvalida(r: Reading) { r.peso <= 0.0 || r.nivel <= 0.0 }

  /** `datos.filter(...).length` for the invalid-reading test: at most the number
      of readings, 0 exactly when every reading is valid, and all of them exactly
      when every reading is invalid. */
  function ContarInvalidas(rs: seq<Reading>): (c: nat)
    ensures c <= |rs|
    ensures c == 0 <==> forall i :: 0 <= i < |rs| ==> !LecturaInvalida(rs[i])
    ensures c == |rs| <==> forall i :: 0 <= i < |rs| ==> LecturaInvalida(rs[i])
  {
    if rs == [] then 0 else ContarInvalidas(rs[..|rs| - 1]) + (if LecturaInvalida(rs[|rs| - 1]) then 1 else 0)
  }

  /** Differences between consecutive timestamps. */
  function Gaps(ts: seq<real>): (g: seq<real>)
    ensures |g| == if |ts| == 0 then 0 else |ts| - 1
    ensures forall i :: 0 <= i < |g| ==> g[i] == ts[i + 1] - ts[i]
  {
    if |ts| == 0 then [] else seq(|ts| - 1, i requires 0 <= i < |ts| - 1 => ts[i + 1] - ts[i])
  }

  /** `Math.max(...xs)` of a non-empty list. */
  function Maximo(xs: seq<real>): (m: real)
    requires |xs| > 0
    ensures forall i :: 0 <= i < |xs| ==> xs[i] <= m
    ensures exists i :: 0 <= i < |xs| && xs[i] == m
  {
    if |xs| == 1 then xs[0]
    else
      var m := Maximo(xs[..|xs| - 1]);
      assert xs[..|xs| - 1][0] == xs[0];
      if xs[|xs| - 1] > m then xs[|xs| - 1] else m
  }

  /** `maxGap > avgGap * 2`. With a single reading the average is NaN and the
      maximum of no gaps is -Infinity, so the comparison is false. */
  function HuecoGrande(gaps: seq<real>): (b: bool)
    ensures b <==> |gaps| > 0 && exists i :: 0 <= i < |gaps| && gaps[i] > (Sum(gaps) / |gaps| as real) * 2.0
  {
    |gaps| > 0 && Maximo(gaps) > (Sum(gaps) / |gaps| as real) * 2.0
  }

  function PenalizacionPocosDatos(n: nat): real
  {
    if n < 15 then (15 - n) as real * 3.0 else 0.0
  }

  function PenalizacionEstatico(rs: seq<Reading>): real
  {
    if SensorEstatico(Pesos(rs)) then 25.0 else 0.0
  }

  function PenalizacionVariabilidad(rs: seq<Reading>): real
  {
    (if DesviacionMenorQue(Pesos(rs), 0.01) then 10.0 else 0.0) +
    (if DesviacionMenorQue(Niveles(rs), 0.5) then 10.0 else 0.0)
  }

  function PenalizacionLleno(rs: seq<Reading>): real
  {
    if ContarAlMenos(Niveles(rs), 99.9) as real > |rs| as real * 0.5 then 20.0 else 0.0
  }

  function PenalizacionInvalidas(rs: seq<Reading>): real
  {
    ContarInvalidas(rs) as real * 5.0
  }

  function PenalizacionHuecos(rs: seq<Reading>): real
  {
    if HuecoGrande(Gaps(Instantes(rs))) then 15.0 else 0.0
  }

  /** 100 minus every penalty that applies, before any cap or clamp. */
  function ConfianzaBruta(rs: seq<Reading>): real
  {
    100.0 - PenalizacionPocosDatos(|rs|) - PenalizacionEstatico(rs) - PenalizacionVariabilidad(rs)
    - PenalizacionLleno(rs) - PenalizacionInvalidas(rs) - PenalizacionHuecos(rs)
  }

  /** The confidence score: the penalised value, capped at 65 for the heuristic,
      then clamped to [0, 100]. */
  function Confianza(rs: seq<Reading>, usoModelo: bool): (c: real)
    ensures 0.0 <= c <= 100.0
    ensures !usoModelo ==> c <= 65.0
    ensures 0.0 <= ConfianzaBruta(rs) && (usoModelo || ConfianzaBruta(rs) <= 65.0) ==> c == ConfianzaBruta(rs)
  {
    var c := ConfianzaBruta(rs);
    var tope := if !usoModelo then Min(c, 65.0) else c;
    Max(0.0, Min(100.0, tope))
  }

  /** The heuristic's confidence is the model's confidence capped at 65. */
  lemma ConfianzaHeuristicaEsTope(rs: seq<Reading>)
    ensures Confianza(rs, false) == Min(Confianza(rs, true), 65.0)
  {
  }

  /** The `for` loop of `calcularConfianza` that collects the differences
      between consecutive timestamps. */
  method RecogerGaps(timestamps: seq<real>) returns (gaps: seq<real>)
    ensures gaps == Gaps(timestamps)
  {
    gaps := [];
    var i := 1;
    while i < |timestamps|
      invariant 1 <= i <= if |timestamps| == 0 then 1 else |timestamps|
      invariant |gaps| == i - 1
      invariant forall k :: 0 <= k < i - 1 ==> gaps[k] == timestamps[k + 1] - timestamps[k]
    {
      gaps := gaps + [timestamps[i] - timestamps[i - 1]];
      i := i + 1;
    }
    var g := Gaps(timestamps);
    assert |gaps| == |g|;
    forall k | 0 <= k < |g| ensures gaps[k] == g[k] {
      assert g[k] == timestamps[k + 1] - timestamps[k];
    }
  }

  /** The first three penalties of `calcularConfianza`: too few readings, a
      static weight sensor, and too little variation in weight or level. */
  method PenalizarMuestras(rs: seq<Reading>, confianza0: real) returns (confianza: real)
    ensures confianza == confianza0 - PenalizacionPocosDatos(|rs|) - PenalizacionEstatico(rs)
                         - PenalizacionVariabilidad(rs)
  {
    confianza := confianza0;
    if |rs| < 15 {
      confianza := confianza - (15 - |rs|) as real * 3.0;
    }
    assert confianza == confianza0 - PenalizacionPocosDatos(|rs|);
    var pesos := Pesos(rs);
    var niveles := Niveles(rs);
    if SensorEstatico(pesos) {
      confianza := confianza - 25.0;
    }
    ghost var antes := confianza;
    if DesviacionMenorQue(pesos, 0.01) {
      confianza := confianza - 10.0;
    }
    if DesviacionMenorQue(niveles, 0.5) {
      confianza := confianza - 10.0;
    }
    assert confianza == antes - PenalizacionVariabilidad(rs);
  }

  /** The last three penalties: a mostly full container, invalid readings and
      an irregular sampling interval. */
  method PenalizarCalidad(rs: seq<Reading>, confianza0: real) returns (confianza: real)
    ensures confianza == confianza0 - PenalizacionLleno(rs) - PenalizacionInvalidas(rs) - PenalizacionHuecos(rs)
  {
    confianza := confianza0;
    var niveles := Niveles(rs);
    if ContarAlMenos(niveles, 99.9) as real > |rs| as real * 0.5 {
      confianza := confianza - 20.0;
    }
    var valoresNulos := ContarInvalidas(rs);
    if valoresNulos > 0 {
      confianza := confianza - valoresNulos as real * 5.0;
    }
    assert confianza == confianza0 - PenalizacionLleno(rs) - PenalizacionInvalidas(rs);
    var gaps := RecogerGaps(Instantes(rs));
    if HuecoGrande(gaps) {
      confianza := confianza - 15.0;
    }
  }

  /** `calcularConfianza`: starts at 100 and subtracts each penalty in turn,
      then caps the heuristic at 65 and clamps to [0, 100]. */
  method CalcularConfianza(rs: seq<Reading>, usoModelo: bool) returns (confianzaFinal: real)
    ensures confianzaFinal == Confianza(rs, usoModelo)
    ensures 0.0 <= confianzaFinal <= 100.0
    ensures !usoModelo ==> confianzaFinal <= 65.0
  {
    var confianza := PenalizarMuestras(rs, 100.0);
    confianza := PenalizarCalidad(rs, confianza);
    if !usoModelo {
      confianza := Min(confianza, 65.0);
    }
    confianzaFinal := Max(0.0, Min(100.0, confianza));
  }

  // ===========================================================================
  // Interpretation

  /** The `color` field of an interpretation: 'red', 'orange' or 'green'. */
  datatype Color = Rojo | Naranja | Verde

  function ColorTexto(c: Color): string
  {
    match c
    case Rojo => "red"
    case Naranja => "orange"
    case Verde => "green"
  }

  /** The `prioridad` field of an interpretation. */
  datatype Prioridad = Urgente | Alta | MediaAlta | Normal | Baja

  function PrioridadTexto(p: Prioridad): string
  {
    match p
    case Urgente => "URGENTE"
    case Alta => "ALTA"
    case MediaAlta => "MEDIA-ALTA"
    case Normal => "NORMAL"
    case Baja => "BAJA"
  }

  datatype Interpretacion = Interpretacion(estado: string, decision: string, color: Color, prioridad: Prioridad)

  // The `estado` and `decision` texts of each rung of the ladder.
  const EstadoLleno: string := "\U{1F534} CONTENEDOR LLENO"
  const DecisionLleno: string := "CRÍTICO: Recolección INMEDIATA requerida. Contenedor al 100%."
  const EstadoCasiLleno: string := "\U{1F7E0} CONTENEDOR CASI LLENO"
  const DecisionCasiLleno: string := "IMPORTANTE: Programar recolección pronto. Nivel > 90%."
  const EstadoRitmoAlto: string := "\U{1F534} Alto Ritmo de Depósito"
  const DecisionRitmoAlto: string := "ALERTA: Alto ritmo detectado. Evaluar recolección anticipada."
  const EstadoRitmoNormal: string := "\U{1F7E2} Ritmo Normal"
  const DecisionRitmoNormal: string := "Operación normal. Continuar monitoreo estándar."
  const EstadoRitmoBajo: string := "\U{1F7E1} Bajo Ritmo"
  const DecisionRitmoBajo: string := "Ritmo bajo de depósito. Considerar optimización de ruta."

  /** `interpretarPrediccion`: a ladder evaluated top-down; the fill level decides
      first, then the predicted delta. Each rung has its priority, colour, and
      state and decision texts. */
  function InterpretarPrediccion(delta: real, nivelActual: real): (r: Interpretacion)
    ensures r.prioridad == Urgente <==> nivelActual >= 99.5
    ensures r.prioridad == Alta <==> 90.0 <= nivelActual < 99.5
    ensures r.prioridad == MediaAlta <==> nivelActual < 90.0 && delta >= 0.2
    ensures r.prioridad == Normal <==> nivelActual < 90.0 && 0.05 <= delta < 0.2
    ensures r.prioridad == Baja <==> nivelActual < 90.0 && delta < 0.05
    ensures r.color == Rojo <==> r.prioridad == Urgente || r.prioridad == MediaAlta
    ensures r.color == Naranja <==> r.prioridad == Alta || r.prioridad == Baja
    ensures r.color == Verde <==> r.prioridad == Normal
    ensures r.prioridad == Urgente ==> r.estado == EstadoLleno && r.decision == DecisionLleno
    ensures r.prioridad == Alta ==> r.estado == EstadoCasiLleno && r.decision == DecisionCasiLleno
    ensures r.prioridad == MediaAlta ==> r.estado == EstadoRitmoAlto && r.decision == DecisionRitmoAlto
    ensures r.prioridad == Normal ==> r.estado == EstadoRitmoNormal && r.decision == DecisionRitmoNormal
    ensures r.prioridad == Baja ==> r.estado == EstadoRitmoBajo && r.decision == DecisionRitmoBajo
  {
    if nivelActual >= 99.5 then
      Interpretacion(EstadoLleno, DecisionLleno, Rojo, Urgente)
    else if nivelActual >= 90.0 then
      Interpretacion(EstadoCasiLleno, DecisionCasiLleno, Naranja, Alta)
    else if delta >= 0.2 then
      Interpretacion(EstadoRitmoAlto, DecisionRitmoAlto, Rojo, MediaAlta)
    else if delta >= 0.05 then
      Interpretacion(EstadoRitmoNormal, DecisionRitmoNormal, Verde, Normal)
    else
      Interpretacion(EstadoRitmoBajo, DecisionRitmoBajo, Naranja, Baja)
  }

  /** The rank of a priority, from 'BAJA' (0) to 'URGENTE' (4). */
  function Urgencia(p: Prioridad): nat
  {
    match p
    case Urgente => 4
    case Alta => 3
    case MediaAlta => 2
    case Normal => 1
    case Baja => 0
  }

  /** A fuller container or a larger delta never lowers the priority. */
  lemma InterpretacionMonotona(d1: real, n1: real, d2: real, n2: real)
    requires d1 <= d2 && n1 <= n2
    ensures Urgencia(InterpretarPrediccion(d1, n1).prioridad) <= Urgencia(InterpretarPrediccion(d2, n2).prioridad)
  {
  }

  /** `calidad_datos`: 'Alta' from 80, 'Media' from 60, else 'Baja'. */
  function CalidadDatos(confianza: real): (r: string)
    ensures r == "Alta" <==> confianza >= 80.0
    ensures r == "Media" <==> 60.0 <= confianza < 80.0
    ensures r == "Baja" <==> confianza < 60.0
  {
    if confianza >= 80.0 then "Alta" else if confianza >= 60.0 then "Media" else "Baja"
  }

  // ===========================================================================
  // The plausibility gate

  /** The network: maps the normalised window to its scaled output, or None when inference throws. */
  type Red = seq<seq<real>> -> Option<real>

  datatype SalidaModelo = SalidaModelo(outputRaw: real, outputDenorm: real, deltaCalculado: real)

  /** Why the heuristic was used. The texts of the first three are the ones the
      engine throws; the last two come from the JavaScript runtime. */
  datatype Razon = DatosInsuficientes(recibidas: nat) | PrediceBajada | MuyConservador
                 | SinEscalador | InferenciaFallida

  function RazonTexto(r: Razon): Option<string>
  {
    match r
    case DatosInsuficientes(n) => Some(MensajeDatosInsuficientes(n))
    case PrediceBajada => Some("Modelo predice bajada - usando heurística")
    case MuyConservador => Some("Modelo muy conservador - usando heurística")
    case SinEscalador => None
    case InferenciaFallida => None
  }

  /** The outcome of trying the network: accepted, or rejected with the output
      that was obtained before the rejection (if any) and the reason. */
  datatype Intento = Aceptado(salida: SalidaModelo) | Rechazado(previa: Option<SalidaModelo>, razon: Razon)

  /** The network answered (whether or not the gate then accepted it). */
  function SalidaDe(it: Intento): Option<SalidaModelo>
  {
    if it.Aceptado? then Some(it.salida) else it.previa
  }

  /** The gate: no drop beyond the 0.1 kg noise tolerance, and a nearly full
      container (level >= 95) must be predicted to grow by at least 0.05 kg. */
  predicate PasaFiltro(delta: real, nivel: real)
  {
    delta >= -0.1 && !(nivel >= 95.0 && delta < 0.05)
  }

  /** The `try` block of `predict`: window, normalisation, inference,
      denormalisation and the two plausibility checks. Too few readings or no
      scaler reject without an output; otherwise the network's answer,
      denormalised and measured from the current weight, is accepted exactly
      when it passes the filter, and a rejected answer names the check it
      failed; an inference failure rejects. */
  function IntentarModelo(rs: seq<Reading>, containerId: int, escalador: Option<Scaler>, red: Red): (r: Intento)
    requires |rs| > 0
    requires escalador.Some? ==> WellFormed(escalador.value)
    ensures |rs| < SequenceLength ==> r == Rechazado(None, DatosInsuficientes(|rs|))
    ensures |rs| >= SequenceLength && escalador.None? ==> r == Rechazado(None, SinEscalador)
    ensures SalidaDe(r).Some? ==>
              var s := SalidaDe(r).value;
              |rs| >= SequenceLength && escalador.Some? &&
              red(NormalizeData(PrepareSequence(rs, containerId).value, escalador.value)) == Some(s.outputRaw) &&
              s.outputDenorm == DenormalizePrediction(s.outputRaw, escalador.value) &&
              s.deltaCalculado == s.outputDenorm - PesoActual(rs) &&
              (r.Aceptado? <==> PasaFiltro(s.deltaCalculado, NivelActual(rs))) &&
              (r.Rechazado? ==> r.razon == (if s.deltaCalculado < -0.1 then PrediceBajada else MuyConservador))
    ensures SalidaDe(r).None? ==>
              r.Rechazado? &&
              (|rs| >= SequenceLength && escalador.Some? ==>
                 red(NormalizeData(PrepareSequence(rs, containerId).value, escalador.value)).None? &&
                 r.razon == InferenciaFallida)
    ensures DeltaCoherente(PesoActual(rs), r)
  {
    var pesoActual := PesoActual(rs);
    var nivelActual := NivelActual(rs);
    match PrepareSequence(rs, containerId)
    case Err(n) => Rechazado(None, DatosInsuficientes(n))
    case Ok(sequence) =>
      if escalador.None? then Rechazado(None, SinEscalador)
      else
        var normalized := NormalizeData(sequence, escalador.value);
        match red(normalized)
        case None => Rechazado(None, InferenciaFallida)
        case Some(scaledPrediction) =>
          var rawPrediction := DenormalizePrediction(scaledPrediction, escalador.value);
          var deltaModelo := rawPrediction - pesoActual;
          var salida := SalidaModelo(scaledPrediction, rawPrediction, deltaModelo);
          if deltaModelo < -0.1 then Rechazado(Some(salida), PrediceBajada)
          else if nivelActual >= 95.0 && deltaModelo < 0.05 then Rechazado(Some(salida), MuyConservador)
          else Aceptado(salida)
  }

  // ===========================================================================
  // The service

  datatype Metodo = LSTM | HeuristicaRegresion

  function MetodoTexto(m: Metodo): string
  {
    match m
    case LSTM => "LSTM"
    case HeuristicaRegresion => "Heurística (Regresión Lineal)"
  }

  datatype NotaHeuristica = NotaHeuristica(tasaCrecimiento: real, razon: Razon)

  /** Recorded when the full-container clamp raised the delta (`delta_ajustado: true`). */
  datatype Ajuste = Ajuste(deltaOriginal: real, deltaForzado: real)

  /** `detalle_modelo`: the network's output when there was one, the heuristic's
      rate and reason when it was used, and the clamp record when it fired. */
  datatype DetalleModelo = DetalleModelo(modelo: Option<SalidaModelo>, heuristica: Option<NotaHeuristica>,
                                         ajuste: Option<Ajuste>)

  datatype Metadatos = Metadatos(muestrasUsadas: nat, calidadDatos: string, metodoUsado: Metodo,
                                 detalleModelo: DetalleModelo)

  datatype PredictionResult = PredictionResult(
    pesoPredicho: real,
    deltaPeso: real,
    pesoActual: real,
    nivelActual: real,
    confianza: real,
    timestamp: int,
    interpretacion: Interpretacion,
    metadatos: Metadatos)

  /** Failures `predict` passes to its caller: not initialised, and the TypeError
      of reading the last element of an empty list. */
  datatype PredictError = NoInicializado | SinLecturas

  function PredictErrorTexto(e: PredictError): Option<string>
  {
    match e
    case NoInicializado => Some("Modelo no inicializado. Llama a initialize() primero.")
    case SinLecturas => None
  }

  /** What `predict` holds after choosing an estimator, and again after the clamps. */
  datatype Estimacion = Estimacion(pesoPredicho: real, deltaPeso: real, metodoUsado: Metodo,
                                   detalleModelo: DetalleModelo)

  /** The network's delta is measured from the current weight. */
  predicate DeltaCoherente(pesoActual: real, it: Intento)
  {
    it.Aceptado? ==> it.salida.deltaCalculado == it.salida.outputDenorm - pesoActual
  }

  /** Steps 1 to 3 of `predict`: the accepted network output, or else the
      one-hour heuristic `h` together with the reason the network was not used.
      The method is LSTM exactly for an accepted output, whose weight and delta
      are then the network's; the network's output is recorded whenever it
      answered; the heuristic's prediction, rate and the rejection reason
      whenever the heuristic is used; no clamp yet. */
  function Estimar(it: Intento, h: Heuristica): (e: Estimacion)
    ensures e.metodoUsado == LSTM <==> it.Aceptado?
    ensures it.Aceptado? ==> e.pesoPredicho == it.salida.outputDenorm && e.deltaPeso == it.salida.deltaCalculado
    ensures it.Rechazado? ==> e.pesoPredicho == h.pesoPredicho && e.deltaPeso == h.deltaPeso
    ensures e.detalleModelo.modelo == SalidaDe(it)
    ensures e.detalleModelo.heuristica == (if it.Aceptado? then None else Some(NotaHeuristica(h.tasaCrecimiento, it.razon)))
    ensures e.detalleModelo.ajuste == None
  {
    match it
    case Aceptado(salida) =>
      Estimacion(salida.outputDenorm, salida.deltaCalculado, LSTM, DetalleModelo(Some(salida), None, None))
    case Rechazado(previa, razon) =>
      Estimacion(h.pesoPredicho, h.deltaPeso, HeuristicaRegresion,
                 DetalleModelo(previa, Some(NotaHeuristica(h.tasaCrecimiento, razon)), None))
  }

  /** Step 4 of `predict`, the safety clamps: a prediction below the current
      weight is raised to it with delta 0; at level 99.5 or more a delta under
      0.25 kg is forced up to 0.25 and the original is recorded. The weight is
      the larger of the current and the estimated one, and when the estimate's
      delta is measured from the current weight the clamps never predict a loss:
      the delta is non-negative, and a full container whose delta fell short of
      0.25 kg gets exactly 0.25. */
  function Acotar(pesoActual: real, nivelActual: real, e: Estimacion): (a: Estimacion)
    ensures a.pesoPredicho == Max(pesoActual, e.pesoPredicho) && a.metodoUsado == e.metodoUsado
    ensures e.deltaPeso == e.pesoPredicho - pesoActual ==>
              var forzado := nivelActual >= 99.5 && a.pesoPredicho - pesoActual < 0.25;
              a.pesoPredicho >= pesoActual && a.deltaPeso >= 0.0 &&
              a.deltaPeso == (if forzado then 0.25 else a.pesoPredicho - pesoActual) &&
              a.detalleModelo == e.detalleModelo.(ajuste := if forzado then Some(Ajuste(a.pesoPredicho - pesoActual, 0.25))
                                                           else e.detalleModelo.ajuste)
  {
    var pesoPredicho := if e.pesoPredicho < pesoActual then pesoActual else e.pesoPredicho;
    var deltaPeso := if e.pesoPredicho < pesoActual then 0.0 else e.deltaPeso;
    if nivelActual >= 99.5 && deltaPeso < 0.25 then
      var forzado := Max(deltaPeso, 0.25);
      Estimacion(pesoPredicho, forzado, e.metodoUsado,
                 e.detalleModelo.(ajuste := Some(Ajuste(deltaPeso, forzado))))
    else Estimacion(pesoPredicho, deltaPeso, e.metodoUsado, e.detalleModelo)
  }

  /** The object `predict` returns, from the current weight and level, the
      number of readings, the estimator's outcome and the confidence score. It
      reports the current weight and level, the number of readings, the time,
      the estimator and its record, the confidence with the label derived from
      it, and the interpretation of the final delta. */
  function Ensamblar(pesoActual: real, nivelActual: real, muestras: nat, estimada: Estimacion,
                     confianza: real, now: int): (p: PredictionResult)
    ensures p.pesoActual == pesoActual && p.nivelActual == nivelActual
    ensures p.metadatos.muestrasUsadas == muestras && p.timestamp == now
    ensures p.metadatos.metodoUsado == estimada.metodoUsado
    ensures p.metadatos.detalleModelo.modelo == estimada.detalleModelo.modelo
    ensures p.metadatos.detalleModelo.heuristica == estimada.detalleModelo.heuristica
    ensures p.confianza == confianza && p.metadatos.calidadDatos == CalidadDatos(confianza)
    ensures p.interpretacion == InterpretarPrediccion(p.deltaPeso, p.nivelActual)
  {
    var e := Acotar(pesoActual, nivelActual, estimada);
    PredictionResult(
      e.pesoPredicho, e.deltaPeso, pesoActual, nivelActual, confianza, now,
      InterpretarPrediccion(e.deltaPeso, nivelActual),
      Metadatos(muestras, CalidadDatos(confianza), e.metodoUsado, e.detalleModelo))
  }

  /** The whole of `predict` on non-empty readings of a ready engine. It reports
      LSTM exactly when the gate accepted the network's output, that output
      whenever the network answered, and the heuristic's rate and the rejection
      reason whenever it fell back. */
  function Prediccion(rs: seq<Reading>, containerId: int, escalador: Option<Scaler>, red: Red, now: int): (p: PredictionResult)
    requires |rs| > 0
    requires escalador.Some? ==> WellFormed(escalador.value)
    ensures var it := IntentarModelo(rs, containerId, escalador, red);
            (p.metadatos.metodoUsado == LSTM <==> it.Aceptado?) &&
            p.metadatos.detalleModelo.modelo == SalidaDe(it) &&
            p.metadatos.detalleModelo.heuristica ==
              (if it.Aceptado? then None
               else Some(NotaHeuristica(PredecirPorHeuristica(rs, 1.0).tasaCrecimiento, it.razon)))
  {
    var e := Estimar(IntentarModelo(rs, containerId, escalador, red), PredecirPorHeuristica(rs, 1.0));
    Ensamblar(PesoActual(rs), NivelActual(rs), |rs|, e, Confianza(rs, e.metodoUsado == LSTM), now)
  }

  /** When both estimators measure their delta from the current weight, so does
      the chosen one. */
  lemma EstimarCoherente(pesoActual: real, it: Intento, h: Heuristica)
    requires DeltaCoherente(pesoActual, it)
    requires h.pesoPredicho == pesoActual + h.deltaPeso
    ensures var e := Estimar(it, h); e.deltaPeso == e.pesoPredicho - pesoActual
  {
  }

  /** The weights `predict` reports: the predicted one is the larger of the
      current weight and the chosen estimator's, the delta is never negative,
      and it is forced to 0.25 kg, with the clamp recorded, exactly for a full
      container whose growth fell short of it. */
  lemma EnsamblarAcotado(pesoActual: real, nivelActual: real, muestras: nat, e: Estimacion,
                         confianza: real, now: int)
    requires e.deltaPeso == e.pesoPredicho - pesoActual && e.detalleModelo.ajuste == None
    ensures var p := Ensamblar(pesoActual, nivelActual, muestras, e, confianza, now);
            var forzado := p.nivelActual >= 99.5 && p.pesoPredicho - p.pesoActual < 0.25;
            p.pesoPredicho == Max(p.pesoActual, e.pesoPredicho) &&
            p.pesoPredicho >= p.pesoActual && p.deltaPeso >= 0.0 &&
            p.deltaPeso == (if forzado then 0.25 else p.pesoPredicho - p.pesoActual) &&
            p.metadatos.detalleModelo.ajuste ==
              (if forzado then Some(Ajuste(p.pesoPredicho - p.pesoActual, 0.25)) else None)
  {
  }

  /** The weights `predict` reports: the current ones are the latest reading's,
      the predicted one is the larger of the current weight and the chosen
      estimator's (the accepted network output, else the heuristic), the delta
      is never negative, and it is forced to 0.25 kg exactly for a full
      container whose growth fell short of it (`EnsamblarAcotado` adds the
      record of the clamp). */
  lemma PrediccionAcotada(rs: seq<Reading>, containerId: int, escalador: Option<Scaler>, red: Red, now: int)
    requires |rs| > 0
    requires escalador.Some? ==> WellFormed(escalador.value)
    ensures var it := IntentarModelo(rs, containerId, escalador, red);
            var p := Prediccion(rs, containerId, escalador, red, now);
            var candidato := if it.Aceptado? then it.salida.outputDenorm else PredecirPorHeuristica(rs, 1.0).pesoPredicho;
            var forzado := p.nivelActual >= 99.5 && p.pesoPredicho - p.pesoActual < 0.25;
            p.pesoActual == PesoActual(rs) && p.nivelActual == NivelActual(rs) &&
            p.metadatos.muestrasUsadas == |rs| && p.timestamp == now &&
            p.pesoPredicho == Max(p.pesoActual, candidato)
    ensures var p := Prediccion(rs, containerId, escalador, red, now);
            p.pesoPredicho >= p.pesoActual && p.deltaPeso >= 0.0
    ensures var p := Prediccion(rs, containerId, escalador, red, now);
            var forzado := p.nivelActual >= 99.5 && p.pesoPredicho - p.pesoActual < 0.25;
            p.deltaPeso == (if forzado then 0.25 else p.pesoPredicho - p.pesoActual)
  {
    var it, h := IntentarModelo(rs, containerId, escalador, red), PredecirPorHeuristica(rs, 1.0);
    var e := Estimar(it, h);
    var c := Confianza(rs, e.metodoUsado == LSTM);
    assert Prediccion(rs, containerId, escalador, red, now) == Ensamblar(PesoActual(rs), NivelActual(rs), |rs|, e, c, now);
    EstimarCoherente(PesoActual(rs), it, h);
    EnsamblarAcotado(PesoActual(rs), NivelActual(rs), |rs|, e, c, now);
  }

  /** The confidence `predict` reports is the data-quality score for the
      estimator it used: within [0, 100], at most 65 and never labelled 'Alta'
      for the heuristic; the label is derived from it and the interpretation is
      that of the final delta. */
  lemma PrediccionConfianza(rs: seq<Reading>, containerId: int, escalador: Option<Scaler>, red: Red, now: int)
    requires |rs| > 0
    requires escalador.Some? ==> WellFormed(escalador.value)
    ensures var p := Prediccion(rs, containerId, escalador, red, now);
            p.confianza == Confianza(rs, p.metadatos.metodoUsado == LSTM) &&
            0.0 <= p.confianza <= 100.0 &&
            (p.metadatos.metodoUsado == HeuristicaRegresion ==>
               p.confianza <= 65.0 && p.metadatos.calidadDatos != "Alta") &&
            p.metadatos.calidadDatos == CalidadDatos(p.confianza) &&
            p.interpretacion == InterpretarPrediccion(p.deltaPeso, p.nivelActual)
  {
    var it, h := IntentarModelo(rs, containerId, escalador, red), PredecirPorHeuristica(rs, 1.0);
    var e := Estimar(it, h);
  }

  /** Steps 1 to 3 of `predict`: the network's output when the gate accepts it,
      otherwise the one-hour heuristic, with the confidence score for the
      estimator used. */
  method ElegirEstimador(rs: seq<Reading>, containerId: int, escalador: Option<Scaler>, red: Red)
    returns (estimada: Estimacion, confianza: real)
    requires |rs| > 0
    requires escalador.Some? ==> WellFormed(escalador.value)
    ensures estimada == Estimar(IntentarModelo(rs, containerId, escalador, red), PredecirPorHeuristica(rs, 1.0))
    ensures confianza == Confianza(rs, estimada.metodoUsado == LSTM)
  {
    var intento := IntentarModelo(rs, containerId, escalador, red);
    match intento {
      case Aceptado(salida) =>
        confianza := CalcularConfianza(rs, true);
        estimada := Estimacion(salida.outputDenorm, salida.deltaCalculado, LSTM, DetalleModelo(Some(salida), None, None));
      case Rechazado(previa, razon) =>
        var heuristica := PredecirPorHeuristica(rs, 1.0);
        confianza := CalcularConfianza(rs, false);
        estimada := Estimacion(heuristica.pesoPredicho, heuristica.deltaPeso, HeuristicaRegresion,
                               DetalleModelo(previa, Some(NotaHeuristica(heuristica.tasaCrecimiento, razon)), None));
    }
  }

  /** Step 4 of `predict`, the safety clamps, applied to the variables in turn. */
  method AplicarLimites(pesoActual: real, nivelActual: real, estimada: Estimacion) returns (e: Estimacion)
    ensures e == Acotar(pesoActual, nivelActual, estimada)
  {
    var pesoPredicho, deltaPeso, detalleModelo := estimada.pesoPredicho, estimada.deltaPeso, estimada.detalleModelo;
    if pesoPredicho < pesoActual {
      pesoPredicho := pesoActual;
      deltaPeso := 0.0;
    }
    if nivelActual >= 99.5 && deltaPeso < 0.25 {
      var deltaOriginal := deltaPeso;
      deltaPeso := Max(deltaPeso, 0.25);
      detalleModelo := detalleModelo.(ajuste := Some(Ajuste(deltaOriginal, deltaPeso)));
    }
    e := Estimacion(pesoPredicho, deltaPeso, estimada.metodoUsado, detalleModelo);
  }

  /** What fetching the scaler parameters file gave. */
  datatype Descarga = Obtenido(escalador: Scaler) | ErrorHttp(status: int) | ErrorRed

  function PossiblePaths(publicUrl: string): seq<string>
  {
    ["/modelo_produccion/model.json",
     publicUrl + "/modelo_produccion/model.json",
     "./modelo_produccion/model.json"]
  }

  function ScalerPath(path: string): string
  {
    ReplaceFirst(path, "model.json", "scaler_params.json")
  }

  /** The first candidate, from index `i` on, where both the model and its scaler load. */
  function PrimerExito(paths: seq<string>, cargaModelo: string -> bool, descarga: string -> Descarga, i: nat): (k: Option<nat>)
    decreases |paths| - i
    ensures k.Some? ==> i <= k.value < |paths| && cargaModelo(paths[k.value]) &&
                        descarga(ScalerPath(paths[k.value])).Obtenido?
    ensures k.None? ==> forall j :: i <= j < |paths| ==>
                          !(cargaModelo(paths[j]) && descarga(ScalerPath(paths[j])).Obtenido?)
  {
    if i >= |paths| then None
    else if cargaModelo(paths[i]) && descarga(ScalerPath(paths[i])).Obtenido? then Some(i)
    else PrimerExito(paths, cargaModelo, descarga, i + 1)
  }

  predicate AlgunModelo(paths: seq<string>, cargaModelo: string -> bool)
  {
    exists j :: 0 <= j < |paths| && cargaModelo(paths[j])
  }

  /** The `for` loop of `initialize`: tries each path in order, notes whether
      some model loaded, and stops at the first path whose scaler loads too,
      returning that scaler. */
  method BuscarModelo(paths: seq<string>, cargaModelo: string -> bool, descarga: string -> Descarga)
    returns (modelLoaded: bool, escalador: Option<Scaler>)
    ensures modelLoaded <==> AlgunModelo(paths, cargaModelo)
    ensures var k := PrimerExito(paths, cargaModelo, descarga, 0);
            escalador == (if k.Some? then Some(descarga(ScalerPath(paths[k.value])).escalador) else None)
  {
    ghost var k := PrimerExito(paths, cargaModelo, descarga, 0);
    modelLoaded, escalador := false, None;
    var i := 0;
    while i < |paths|
      invariant 0 <= i <= |paths|
      invariant k == PrimerExito(paths, cargaModelo, descarga, i)
      invariant modelLoaded <==> exists j :: 0 <= j < i && cargaModelo(paths[j])
    {
      var path := paths[i];
      if cargaModelo(path) {
        modelLoaded := true;
        var response := descarga(ScalerPath(path));
        if response.Obtenido? {
          escalador := Some(response.escalador);
          return;
        }
      }
      i := i + 1;
    }
  }

  const MensajeErrorCarga: string :=
    "No se pudo cargar el modelo. Verifica que los archivos estén en public/modelo_produccion_tfjs/"

  /** The engine: readiness flag and scaler parameters. The loaded network is
      represented by the `red` argument of `Predict`. */
  class PredictionService {
    var isReady: bool
    var scalerParams: Option<Scaler>

    ghost predicate Valid()
      reads this
    {
      scalerParams.Some? ==> WellFormed(scalerParams.value)
    }

    constructor ()
      ensures Valid() && !isReady && scalerParams == None
    {
      isReady := false;
      scalerParams := None;
    }

    /** `initialize`: tries the candidate paths in order and stops at the first
        where the model and the scaler both load. A model that loads marks the
        engine ready even if no scaler ever loads; initialisation then still
        fails (reading the missing scaler's feature count throws), and the
        outer handler replaces every failure by one fixed message. */
    method Initialize(publicUrl: string, cargaModelo: string -> bool, descarga: string -> Descarga)
      returns (r: Result<(), string>)
      requires Valid()
      requires forall p :: descarga(p).Obtenido? ==> WellFormed(descarga(p).escalador)
      modifies this
      ensures Valid()
      ensures var paths := PossiblePaths(publicUrl);
              var k := PrimerExito(paths, cargaModelo, descarga, 0);
              (k.Some? ==> scalerParams == Some(descarga(ScalerPath(paths[k.value])).escalador) &&
                           isReady && r.Ok?) &&
              (k.None? ==> scalerParams == old(scalerParams) &&
                           isReady == (old(isReady) || AlgunModelo(paths, cargaModelo)) &&
                           (r.Ok? <==> AlgunModelo(paths, cargaModelo) && old(scalerParams).Some?))
      ensures r.Err? ==> r.error == MensajeErrorCarga
    {
      var possiblePaths := PossiblePaths(publicUrl);
      var modelLoaded, escalador := BuscarModelo(possiblePaths, cargaModelo, descarga);
      if escalador.Some? {
        scalerParams := escalador;
      }
      if !modelLoaded {
        return Err(MensajeErrorCarga);
      }
      isReady := true;
      if scalerParams.None? {
        return Err(MensajeErrorCarga);
      }
      r := Ok(());
    }

    /** `predict`: tries the network, falls back to the heuristic on rejection or
        failure, applies the safety clamps and interprets the result. */
    method Predict(rs: seq<Reading>, containerId: int, red: Red, now: int)
      returns (r: Result<PredictionResult, PredictError>)
      requires Valid()
      ensures !isReady ==> r == Err(NoInicializado)
      ensures isReady && |rs| == 0 ==> r == Err(SinLecturas)
      ensures isReady && |rs| > 0 ==> r == Ok(Prediccion(rs, containerId, scalerParams, red, now))
    {
      if !isReady {
        return Err(NoInicializado);
      }
      if |rs| == 0 {
        return Err(SinLecturas);
      }
      var pesoActual := PesoActual(rs);
      var nivelActual := NivelActual(rs);
      var estimada, confianza := ElegirEstimador(rs, containerId, scalerParams, red);
      var e := AplicarLimites(pesoActual, nivelActual, estimada);
      r := Ok(PredictionResult(
        e.pesoPredicho, e.deltaPeso, pesoActual, nivelActual, confianza, now,
        InterpretarPrediccion(e.deltaPeso, nivelActual),
        Metadatos(|rs|, CalidadDatos(confianza), e.metodoUsado, e.detalleModelo)));
    }
  }
}
