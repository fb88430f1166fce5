/** The readings hook: fetches the latest reading of a container, formats the
    stored alerts that come with it and orders them newest first. */
module Lecturas {
  import opened Js
  import opened Records

  /** The `id` of a formatted alert: the stored `_id` when there is a non-empty
      one, else the parts of `${id_contenedor}-${timestamp_inicio}-${tipo}`. */
  datatype IdAlerta = IdMongo(id: string) | IdCompuesto(idContenedor: int, timestampInicio: string, tipo: string)

  /** The id as the string the page uses as its key. */
  function IdTexto(id: IdAlerta): string
  {
    match id
    case IdMongo(s) => s
    case IdCompuesto(c, t, tipo) => IntToString(c) + "-" + t + "-" + tipo
  }

  /** A formatted alert. `time` is `toLocaleTimeString` of its start, given by
      the caller's `hora`; `instante` is the start in milliseconds, which the
      sort compares. */
  datatype AlertaFormateada = AlertaFormateada(
    id: IdAlerta,
    level: string,
    message: string,
    time: string,
    timestamp: string,
    instante: int,
    tipo: string,
    severidad: Option<string>,
    datosRelacionados: string)

  /** The `map` callback of `fetchLectura`. */
  function FormatAlert(a: AlertaGuardada, hora: int -> string): (f: AlertaFormateada)
    ensures f.id == (if a.mongoId.Some? && a.mongoId.value != "" then IdMongo(a.mongoId.value)
                     else IdCompuesto(a.idContenedor, a.timestampInicio, a.tipo))
    ensures f.level == (if a.severidad.Some? && a.severidad.value != "" then a.severidad.value else "warning")
    ensures f.message == a.mensaje && f.timestamp == a.timestampInicio && f.instante == a.instante
    ensures f.tipo == a.tipo && f.severidad == a.severidad && f.datosRelacionados == a.datosRelacionados
    ensures f.time == hora(a.instante)
  {
    AlertaFormateada(
      if a.mongoId.Some? && a.mongoId.value != "" then IdMongo(a.mongoId.value)
      else IdCompuesto(a.idContenedor, a.timestampInicio, a.tipo),
      StrOr(a.severidad, "warning"),
      a.mensaje, hora(a.instante), a.timestampInicio, a.instante, a.tipo, a.severidad, a.datosRelacionados)
  }

  /** `(alertasRaw || []).map(...)`: one formatted alert per stored one, in the
      same order; no list gives no alerts. */
  function FormatAlerts(raw: Option<seq<AlertaGuardada>>, hora: int -> string): (r: seq<AlertaFormateada>)
    ensures raw.None? ==> r == []
    ensures raw.Some? ==> |r| == |raw.value|
    ensures raw.Some? ==> forall i :: 0 <= i < |r| ==> r[i] == FormatAlert(raw.value[i], hora)
  {
    var xs := if raw.Some? then raw.value else [];
    seq(|xs|, i requires 0 <= i < |xs| => FormatAlert(xs[i], hora))
  }

  /** Two alerts of one container can get the same key: `-` may occur inside
      the timestamp or the type, so the composite id does not determine its parts. */
  lemma IdCompuestoAmbiguo()
    ensures IdCompuesto(1, "a-b", "c") != IdCompuesto(1, "a", "b-c")
    ensures IdTexto(IdCompuesto(1, "a-b", "c")) == IdTexto(IdCompuesto(1, "a", "b-c"))
  {
    assert IntToString(1) == "1" by {
      assert NatToString(1) == [DigitChar(1)];
    }
    assert "1" + "-" + "a-b" + "-" + "c" == "1-a-b-c";
    assert "1" + "-" + "a" + "-" + "b-c" == "1-a-b-c";
  }

  // ---------------------------------------------------------------------------
  // The sort

  /** Newest first: timestamps never increase along the list. */
  predicate Descendente(s: seq<AlertaFormateada>)
  {
    forall k, l :: 0 <= k < l < |s| ==> s[k].instante >= s[l].instante
  }

  /** The first `n` alerts are ordered newest first. */
  predicate OrdenadoHasta(s: seq<AlertaFormateada>, n: nat)
    requires n <= |s|
  {
    forall k, l :: 0 <= k < l < n ==> s[k].instante >= s[l].instante
  }

  /** While the alert at `i` moves left, it sits at `j`: the others among the
      first `i + 1` are ordered, and it is newer than every alert it passed. */
  predicate EnMovimiento(s: seq<AlertaFormateada>, i: nat, j: nat)
    requires j <= i < |s|
  {
    (forall k, l :: 0 <= k < l <= i && k != j && l != j ==> s[k].instante >= s[l].instante) &&
    (forall l :: j < l <= i ==> s[j].instante > s[l].instante)
  }

  /** Swapping the moving alert with an older left neighbour keeps it moving. */
  lemma Intercambio(s: seq<AlertaFormateada>, i: nat, j: nat)
    requires 0 < j <= i < |s| && EnMovimiento(s, i, j) && s[j - 1].instante < s[j].instante
    ensures var t := s[j - 1 := s[j]][j := s[j - 1]];
            EnMovimiento(t, i, j - 1) && multiset(t) == multiset(s)
  {
  }

  /** The moving alert stops when its left neighbour is at least as new. */
  lemma Llegada(s: seq<AlertaFormateada>, i: nat, j: nat)
    requires j <= i < |s| && EnMovimiento(s, i, j)
    requires j == 0 || s[j - 1].instante >= s[j].instante
    ensures OrdenadoHasta(s, i + 1)
  {
    if j > 0 {
      assert forall k :: 0 <= k < j - 1 ==> s[k].instante >= s[j - 1].instante;
    }
  }

  /** One step of the insertion sort: the alert at `i` moves left past every
      older one, so the first `i + 1` alerts end up ordered. */
  method Insertar(a: array<AlertaFormateada>, i: nat)
    requires i < a.Length && OrdenadoHasta(a[..], i)
    modifies a
    ensures OrdenadoHasta(a[..], i + 1)
    ensures multiset(a[..]) == multiset(old(a[..]))
  {
    var j := i;
    while j > 0 && a[j - 1].instante < a[j].instante
      invariant 0 <= j <= i
      invariant EnMovimiento(a[..], i, j)
      invariant multiset(a[..]) == multiset(old(a[..]))
    {
      ghost var antes := a[..];
      Intercambio(antes, i, j);
      a[j - 1], a[j] := a[j], a[j - 1];
      assert a[..] == antes[j - 1 := antes[j]][j := antes[j - 1]];
      j := j - 1;
    }
    Llegada(a[..], i, j);
  }

  /** `alertasFormateadas.sort((a, b) => b.timestamp - a.timestamp)`, in place,
      as an insertion sort. */
  method OrdenarDescendente(a: array<AlertaFormateada>)
    modifies a
    ensures Descendente(a[..])
    ensures multiset(a[..]) == multiset(old(a[..]))
  {
    var i := 0;
    while i < a.Length
      invariant 0 <= i <= a.Length
      invariant OrdenadoHasta(a[..], i)
      invariant multiset(a[..]) == multiset(old(a[..]))
    {
      Insertar(a, i);
      i := i + 1;
    }
  }

  /** The alerts copied into a fresh array and sorted there, newest first. */
  method Ordenadas(formateadas: seq<AlertaFormateada>) returns (r: seq<AlertaFormateada>)
    ensures Descendente(r) && multiset(r) == multiset(formateadas)
  {
    var arr := new AlertaFormateada[|formateadas|](i requires 0 <= i < |formateadas| => formateadas[i]);
    assert arr[..] == formateadas;
    OrdenarDescendente(arr);
    r := arr[..];
  }

  /** With the alerts sorted, the first one is the most recent of them all. */
  lemma PrimeraEsMasReciente(s: seq<AlertaFormateada>, x: AlertaFormateada)
    requires Descendente(s) && x in multiset(s)
    ensures s[0].instante >= x.instante
  {
    var k :| 0 <= k < |s| && s[k] == x;
    if k > 0 {
      assert s[0].instante >= s[k].instante;
    }
  }

  // ---------------------------------------------------------------------------
  // fetchLectura

  /** The readings endpoint's answer: its `success` flag and `data` (None when null). */
  datatype Respuesta = Respuesta(success: bool, data: Option<Lectura>)

  /** The hook's state. The polling timer that calls `FetchLectura` every few
      seconds is not part of this model. */
  class LecturasHook {
    var lectura: Option<Lectura>
    var alertas: seq<AlertaFormateada>
    var isLoading: bool
    var error: Option<string>
    var lastUpdate: Option<int>

    constructor ()
      ensures lectura == None && alertas == [] && isLoading && error == None && lastUpdate == None
    {
      lectura := None;
      alertas := [];
      isLoading := true;
      error := None;
      lastUpdate := None;
    }

    /** `fetchLectura`. `respuesta` is the request's outcome (an error carries
        its message), `hora` renders an instant as a local time and `now` is
        the current instant. The state changes only when the response reports
        success and carries a reading; the alerts are then the reading's stored
        alerts, formatted and sorted newest first. */
    method FetchLectura(respuesta: Result<Respuesta, string>, hora: int -> string, now: int)
      modifies this
      ensures !isLoading
      ensures error == (if respuesta.Err? then Some(respuesta.error) else None)
      ensures respuesta.Ok? && respuesta.value.success && respuesta.value.data.Some? ==>
                var l := respuesta.value.data.value;
                lectura == Some(l) && lastUpdate == Some(now) &&
                Descendente(alertas) && multiset(alertas) == multiset(FormatAlerts(l.alertas, hora))
      ensures !(respuesta.Ok? && respuesta.value.success && respuesta.value.data.Some?) ==>
                lectura == old(lectura) && alertas == old(alertas) && lastUpdate == old(lastUpdate)
    {
      error := None;
      if respuesta.Err? {
        error := Some(respuesta.error);
      } else if respuesta.value.success && respuesta.value.data.Some? {
        var l := respuesta.value.data.value;
        lectura := Some(l);
        alertas := Ordenadas(FormatAlerts(l.alertas, hora));
        lastUpdate := Some(now);
      }
      isLoading := false;
    }
  }
}
