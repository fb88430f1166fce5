/** The prototype monitoring page (`Configuration.jsx`): the alert list built from
    the latest reading, the status badge, and the thresholds form that is loaded
    from, reset to and saved into the selected container. */
module Configuration {
  import opened Js
  import opened Records

  /** The form state: weight limit (kg), fill alert level (%), opening time and sensitivity. */
  datatype Config = Config(pesoMaximo: real, nivelLlenado: real, tiempoApertura: real, sensibilidad: real)

  const PesoMaximoInicial: real := 5.0
  const NivelLlenadoInicial: real := 80.0

  const ConfigInicial: Config := Config(PesoMaximoInicial, NivelLlenadoInicial, 5.0, 50.0)

  /** The level at which the fill level is critical whatever the configured alert level. */
  const NivelCritico: real := 95.0

  // ===========================================================================
  // Status badge

  /** `'critical'`, `'warning'` or `'normal'`; alerts only ever carry the first two. */
  datatype Estado = Critical | Warning | Normal

  function EstadoClave(e: Estado): string
  {
    match e
    case Critical => "critical"
    case Warning => "warning"
    case Normal => "normal"
  }

  /** `getStatus`: critical from 95 on, else warning from the configured level on. */
  function GetStatus(percentage: real, nivelLlenado: real): (s: Estado)
    ensures s == Critical <==> percentage >= NivelCritico
    ensures s == Warning <==> percentage < NivelCritico && percentage >= nivelLlenado
    ensures s == Normal <==> percentage < NivelCritico && percentage < nivelLlenado
  {
    if percentage >= NivelCritico then Critical
    else if percentage >= nivelLlenado then Warning
    else Normal
  }

  /** `getStatusText`: the Spanish label of each status. */
  function GetStatusText(s: Estado): (t: string)
    ensures t != ""
  {
    match s
    case Critical => "Crítico"
    case Warning => "Advertencia"
    case Normal => "Normal"
  }

  /** Different statuses have different labels, so the badge shows which one applies. */
  lemma StatusTextInyectivo(a: Estado, b: Estado)
    ensures GetStatusText(a) == GetStatusText(b) <==> a == b
  {
  }

  /** Raising the level never lowers the status: normal < warning < critical. */
  function Gravedad(s: Estado): nat
  {
    match s
    case Normal => 0
    case Warning => 1
    case Critical => 2
  }

  lemma StatusMonotono(p1: real, p2: real, nivelLlenado: real)
    requires p1 <= p2
    ensures Gravedad(GetStatus(p1, nivelLlenado)) <= Gravedad(GetStatus(p2, nivelLlenado))
  {
  }

  // ===========================================================================
  // Alerts

  /** The key `${lectura.id_contenedor}-<suffix>` of an alert, kept as its two parts. */
  datatype IdAlerta = IdAlerta(idContenedor: int, sufijo: string)

  /** The key as the page renders it. */
  function IdTexto(id: IdAlerta): string
  {
    IntToString(id.idContenedor) + "-" + id.sufijo
  }

  /** One entry of the alert panel. `time` is the rendered clock time. */
  datatype Alerta = Alerta(id: IdAlerta, level: Estado, container: string, message: string, time: string)

  const MensajeCapacidadCritica: string := "Capacidad crítica alcanzada - Recolección inmediata requerida"
  const MensajeNivelAlto: string := "Nivel alto - Programar recolección pronto"
  const MensajePesoMaximo: string := "Peso máximo alcanzado"
  const NombrePorDefecto: string := "Contenedor de Residuos"

  /** `selectedContenedor?.nombre || 'Contenedor de Residuos'`. */
  function NombreContenedor(sel: Option<Contenedor>): (n: string)
    ensures n != ""
    ensures sel.Some? && sel.value.nombre.Some? && sel.value.nombre.value != "" ==> n == sel.value.nombre.value
  {
    StrOr(if sel.Some? then sel.value.nombre else None, NombrePorDefecto)
  }

  /** The level alert: critical from 95 on, otherwise a warning from the configured level on. */
  function AlertaNivel(l: Lectura, cfg: Config, nombre: string, hora: string): (a: Option<Alerta>)
    ensures a.Some? <==> GetStatus(l.nivel, cfg.nivelLlenado) != Normal
    ensures a.Some? ==> a.value.level == GetStatus(l.nivel, cfg.nivelLlenado) && a.value.container == nombre
  {
    if l.nivel >= NivelCritico then
      Some(Alerta(IdAlerta(l.idContenedor, "critical"), Critical, nombre, MensajeCapacidadCritica, hora))
    else if l.nivel >= cfg.nivelLlenado then
      Some(Alerta(IdAlerta(l.idContenedor, "warning"), Warning, nombre, MensajeNivelAlto, hora))
    else None
  }

  /** The weight alert, always critical, raised from the configured weight limit on. */
  function AlertaPeso(l: Lectura, cfg: Config, nombre: string, hora: string): (a: Option<Alerta>)
    ensures a.Some? <==> l.peso >= cfg.pesoMaximo
    ensures a.Some? ==> a.value.level == Critical && a.value.message == MensajePesoMaximo
  {
    if l.peso >= cfg.pesoMaximo then
      Some(Alerta(IdAlerta(l.idContenedor, "peso"), Critical, nombre, MensajePesoMaximo, hora))
    else None
  }

  /** The alert stored with the reading, shown while it is active; an overweight
      alert is critical and any other kind a warning. */
  function AlertaRegistrada(l: Lectura, nombre: string, horaLectura: string): (a: Option<Alerta>)
    ensures a.Some? <==> l.alerta.Some? && l.alerta.value.activo
    ensures a.Some? ==> (a.value.level == Critical <==> l.alerta.value.tipo == "sobrepeso") &&
                        a.value.level != Normal &&
                        a.value.message == l.alerta.value.mensaje && a.value.time == horaLectura
  {
    if l.alerta.Some? && l.alerta.value.activo then
      Some(Alerta(IdAlerta(l.idContenedor, "db-alert"),
                  if l.alerta.value.tipo == "sobrepeso" then Critical else Warning,
                  nombre, l.alerta.value.mensaje, horaLectura))
    else None
  }

  function Lista(a: Option<Alerta>): (r: seq<Alerta>)
    ensures |r| <= 1
  {
    if a.Some? then [a.value] else []
  }

  /** The alert effect: the level alert, then the weight alert, then the stored
      alert, each only when it applies. `hora` is the current clock time and
      `horaLectura` the clock time of the reading. */
  method ConstruirAlertas(l: Lectura, cfg: Config, sel: Option<Contenedor>, hora: string, horaLectura: string)
    returns (newAlerts: seq<Alerta>)
    ensures var nombre := NombreContenedor(sel);
            newAlerts == Lista(AlertaNivel(l, cfg, nombre, hora)) + Lista(AlertaPeso(l, cfg, nombre, hora))
                         + Lista(AlertaRegistrada(l, nombre, horaLectura))
    ensures |newAlerts| <= 3
    ensures forall i :: 0 <= i < |newAlerts| ==> newAlerts[i].level != Normal
  {
    newAlerts := [];
    var percentage := l.nivel;
    var nombre := NombreContenedor(sel);
    if percentage >= NivelCritico {
      newAlerts := newAlerts + [Alerta(IdAlerta(l.idContenedor, "critical"), Critical, nombre,
                                       MensajeCapacidadCritica, hora)];
    } else if percentage >= cfg.nivelLlenado {
      newAlerts := newAlerts + [Alerta(IdAlerta(l.idContenedor, "warning"), Warning, nombre,
                                       MensajeNivelAlto, hora)];
    }
    assert newAlerts == Lista(AlertaNivel(l, cfg, nombre, hora));
    ghost var conNivel := newAlerts;
    if l.peso >= cfg.pesoMaximo {
      newAlerts := newAlerts + [Alerta(IdAlerta(l.idContenedor, "peso"), Critical, nombre,
                                       MensajePesoMaximo, hora)];
    }
    assert newAlerts == conNivel + Lista(AlertaPeso(l, cfg, nombre, hora));
    ghost var conPeso := newAlerts;
    if l.alerta.Some? && l.alerta.value.activo {
      newAlerts := newAlerts + [Alerta(IdAlerta(l.idContenedor, "db-alert"),
                                       if l.alerta.value.tipo == "sobrepeso" then Critical else Warning,
                                       nombre, l.alerta.value.mensaje, horaLectura)];
    }
    assert newAlerts == conPeso + Lista(AlertaRegistrada(l, nombre, horaLectura));
  }

  /** The number of alerts is the number of conditions that hold: a level at or
      above the alert level (or 95), a weight at or above the limit, an active
      stored alert. */
  lemma CuentaAlertas(l: Lectura, cfg: Config, nombre: string, hora: string, horaLectura: string)
    ensures |Lista(AlertaNivel(l, cfg, nombre, hora)) + Lista(AlertaPeso(l, cfg, nombre, hora))
             + Lista(AlertaRegistrada(l, nombre, horaLectura))|
         == (if l.nivel >= NivelCritico || l.nivel >= cfg.nivelLlenado then 1 else 0)
          + (if l.peso >= cfg.pesoMaximo then 1 else 0)
          + (if l.alerta.Some? && l.alerta.value.activo then 1 else 0)
  {
  }

  /** The badge and the level alert agree: there is a level alert exactly when
      the status is not normal, and it has the status as its level. */
  lemma AlertaSigueEstado(l: Lectura, cfg: Config, nombre: string, hora: string)
    ensures var a := AlertaNivel(l, cfg, nombre, hora);
            (a.None? <==> GetStatus(l.nivel, cfg.nivelLlenado) == Normal) &&
            (a.Some? ==> EstadoClave(a.value.level) == EstadoClave(GetStatus(l.nivel, cfg.nivelLlenado)))
  {
  }

  /** The weight alert depends on the weight alone: two readings with the same
      container and weight give the same weight alert, whatever their levels. */
  lemma AlertaPesoIndependiente(l1: Lectura, l2: Lectura, cfg: Config, nombre: string, hora: string)
    requires l1.idContenedor == l2.idContenedor && l1.peso == l2.peso
    ensures AlertaPeso(l1, cfg, nombre, hora) == AlertaPeso(l2, cfg, nombre, hora)
  {
  }

  // ===========================================================================
  // Thresholds form

  /** `contenedores.find(c => c.id_contenedor === id)`: the first container with that id. */
  function FindContenedor(cs: seq<Contenedor>, id: int): (r: Option<Contenedor>)
    ensures r.Some? <==> exists i :: 0 <= i < |cs| && cs[i].idContenedor == id
    ensures r.Some? ==> exists i :: 0 <= i < |cs| && cs[i] == r.value && r.value.idContenedor == id &&
                                   forall j :: 0 <= j < i ==> cs[j].idContenedor != id
  {
    if cs == [] then None
    else if cs[0].idContenedor == id then Some(cs[0])
    else
      var r := FindContenedor(cs[1..], id);
      assert forall i :: 1 <= i < |cs| ==> cs[i] == cs[1..][i - 1];
      if r.Some? then
        var k :| 0 <= k < |cs[1..]| && cs[1..][k] == r.value && r.value.idContenedor == id &&
                 forall j :: 0 <= j < k ==> cs[1..][j].idContenedor != id;
        assert cs[k + 1] == r.value;
        r
      else r
  }

  /** The thresholds taken from a container: `Number(peso_maximo) || 5` and
      `Number(nivel_alerta) || 80`. Loading keeps the opening time and
      sensitivity, takes each stored threshold when it is a non-zero number and
      falls back to 5 kg and 80% otherwise. */
  function ConfigDesde(prev: Config, c: Contenedor): (r: Config)
    ensures r.tiempoApertura == prev.tiempoApertura && r.sensibilidad == prev.sensibilidad
    ensures r.pesoMaximo == PesoMaximoInicial <==> !NumTruthy(c.pesoMaximo) || c.pesoMaximo.v == PesoMaximoInicial
    ensures NumTruthy(c.pesoMaximo) ==> r.pesoMaximo == c.pesoMaximo.v
    ensures !NumTruthy(c.pesoMaximo) ==> r.pesoMaximo == PesoMaximoInicial
    ensures NumTruthy(c.nivelAlerta) ==> r.nivelLlenado == c.nivelAlerta.v
    ensures !NumTruthy(c.nivelAlerta) ==> r.nivelLlenado == NivelLlenadoInicial
  {
    prev.(pesoMaximo := NumOr(c.pesoMaximo, PesoMaximoInicial),
          nivelLlenado := NumOr(c.nivelAlerta, NivelLlenadoInicial))
  }

  /** Loading the same container twice is the same as loading it once. */
  lemma ConfigDesdeIdempotente(prev: Config, c: Contenedor)
    ensures ConfigDesde(ConfigDesde(prev, c), c) == ConfigDesde(prev, c)
  {
  }

  /** The container as `handleSave` leaves it in the page state after a successful update. */
  function ContenedorGuardado(c: Contenedor, cfg: Config): Contenedor
  {
    c.(pesoMaximo := Num(cfg.pesoMaximo), nivelAlerta := Num(cfg.nivelLlenado))
  }

  /** Saving and then resetting gives back the thresholds that were saved, except
      that a threshold set to 0 comes back as its default (`0 || 5`, `0 || 80`). */
  lemma GuardarYRestablecer(cfg: Config, c: Contenedor)
    ensures var r := ConfigDesde(cfg, ContenedorGuardado(c, cfg));
            (r == cfg <==> cfg.pesoMaximo != 0.0 && cfg.nivelLlenado != 0.0) &&
            (cfg.pesoMaximo == 0.0 ==> r.pesoMaximo == PesoMaximoInicial) &&
            (cfg.nivelLlenado == 0.0 ==> r.nivelLlenado == NivelLlenadoInicial)
  {
  }

  /** The body of the update request `handleSave` sends: the container's own
      name, place and owner, the form's thresholds, and `activo ?? 1`. */
  datatype DatosActualizados = DatosActualizados(
    nombre: Option<string>,
    ubicacion: Option<string>,
    pesoMaximo: real,
    nivelAlerta: real,
    activo: Num,
    idUsuario: Option<int>)

  function Payload(c: Contenedor, cfg: Config): (d: DatosActualizados)
    ensures c.activo.None? ==> d.activo == Num(1.0)
    ensures c.activo.Some? ==> d.activo == c.activo.value
    ensures d.pesoMaximo == cfg.pesoMaximo && d.nivelAlerta == cfg.nivelLlenado
    ensures d.nombre == c.nombre && d.ubicacion == c.ubicacion && d.idUsuario == c.idUsuario
  {
    DatosActualizados(c.nombre, c.ubicacion, cfg.pesoMaximo, cfg.nivelLlenado,
                      if c.activo.Some? then c.activo.value else Num(1.0), c.idUsuario)
  }

  /** An update request: the container id it goes to and its body. */
  datatype Peticion = Peticion(idContenedor: int, datos: DatosActualizados)

  const AvisoSinSeleccion: string := "No hay contenedor seleccionado"
  const PrefijoErrorGuardado: string := "Error al guardar la configuración: "

  /** The message shown when the update fails: the error's message, or 'Error desconocido'. */
  function AvisoError(mensaje: Option<string>): (s: string)
    ensures |s| > |PrefijoErrorGuardado| && s[..|PrefijoErrorGuardado|] == PrefijoErrorGuardado
    ensures mensaje.Some? && mensaje.value != "" ==> s[|PrefijoErrorGuardado|..] == mensaje.value
    ensures mensaje.None? || mensaje.value == "" ==> s[|PrefijoErrorGuardado|..] == "Error desconocido"
  {
    PrefijoErrorGuardado + StrOr(mensaje, "Error desconocido")
  }

  /** The page state. The readings themselves come from the readings hook, and
      the container list from the containers endpoint. */
  class ConfigurationView {
    var selectedContenedorId: int
    var contenedores: seq<Contenedor>
    var selectedContenedor: Option<Contenedor>
    var config: Config
    var saved: bool
    var alerts: seq<Alerta>

    constructor ()
      ensures selectedContenedorId == 1 && contenedores == [] && selectedContenedor == None
      ensures config == ConfigInicial && !saved && alerts == []
    {
      selectedContenedorId := 1;
      contenedores := [];
      selectedContenedor := None;
      config := ConfigInicial;
      saved := false;
      alerts := [];
    }

    /** `loadContenedores`: stores the list received (`response.data || []`) and,
        when no container is selected (id 0), selects the first one. A failed
        request (`None`) changes nothing. */
    method LoadContenedores(respuesta: Option<Option<seq<Contenedor>>>)
      modifies this
      ensures respuesta.None? ==> contenedores == old(contenedores)
      ensures respuesta.Some? ==>
                contenedores == (if respuesta.value.Some? then respuesta.value.value else [])
      ensures selectedContenedorId ==
                (if respuesta.Some? && respuesta.value.Some? && |respuesta.value.value| > 0 &&
                    old(selectedContenedorId) == 0
                 then respuesta.value.value[0].idContenedor else old(selectedContenedorId))
      ensures selectedContenedor == old(selectedContenedor) && config == old(config)
      ensures saved == old(saved) && alerts == old(alerts)
    {
      if respuesta.Some? {
        var data := respuesta.value;
        contenedores := if data.Some? then data.value else [];
        if data.Some? && |data.value| > 0 && selectedContenedorId == 0 {
          selectedContenedorId := data.value[0].idContenedor;
        }
      }
    }

    /** `loadContenedorDetails(id)`: selects the container with that id, if any,
        and takes its thresholds into the form. */
    method LoadContenedorDetails(id: int)
      modifies this
      ensures var c := FindContenedor(old(contenedores), id);
              (c.Some? ==> selectedContenedor == c && config == ConfigDesde(old(config), c.value)) &&
              (c.None? ==> selectedContenedor == old(selectedContenedor) && config == old(config))
      ensures selectedContenedorId == old(selectedContenedorId) && contenedores == old(contenedores)
      ensures saved == old(saved) && alerts == old(alerts)
    {
      var contenedor := FindContenedor(contenedores, id);
      if contenedor.Some? {
        selectedContenedor := contenedor;
        config := config.(pesoMaximo := NumOr(contenedor.value.pesoMaximo, 5.0),
                          nivelLlenado := NumOr(contenedor.value.nivelAlerta, 80.0));
      }
    }

    /** `handleChange` for the two sliders: sets one threshold and clears `saved`. */
    method HandleChangePeso(value: real)
      modifies this
      ensures config == old(config).(pesoMaximo := value) && !saved
      ensures selectedContenedorId == old(selectedContenedorId) && contenedores == old(contenedores)
      ensures selectedContenedor == old(selectedContenedor) && alerts == old(alerts)
    {
      config := config.(pesoMaximo := value);
      saved := false;
    }

    method HandleChangeNivel(value: real)
      modifies this
      ensures config == old(config).(nivelLlenado := value) && !saved
      ensures selectedContenedorId == old(selectedContenedorId) && contenedores == old(contenedores)
      ensures selectedContenedor == old(selectedContenedor) && alerts == old(alerts)
    {
      config := config.(nivelLlenado := value);
      saved := false;
    }

    /** `handleSave`: without a selected container (id 0 or none loaded) only
        warns, sending nothing. Otherwise sends the update; on success the page's
        copy of the container takes the new thresholds and `saved` is set, on
        failure the error is shown and nothing changes. `fallo` is the update's
        outcome: `None` for success, `Some(m)` for an error with message `m`.
        After a successful update the list is reloaded (`await
        loadContenedores()`), with `recarga` the reload's response as in
        `LoadContenedores`; a container is selected, so the selection stays. */
    method HandleSave(fallo: Option<Option<string>>, recarga: Option<Option<seq<Contenedor>>>)
      returns (enviada: Option<Peticion>, aviso: Option<string>)
      modifies this
      ensures old(selectedContenedorId) == 0 || old(selectedContenedor).None? ==>
                enviada == None && aviso == Some(AvisoSinSeleccion) &&
                selectedContenedor == old(selectedContenedor) && saved == old(saved)
      ensures old(selectedContenedorId) != 0 && old(selectedContenedor).Some? ==>
                enviada == Some(Peticion(old(selectedContenedorId), Payload(old(selectedContenedor).value, old(config)))) &&
                (fallo.None? ==> aviso == None && saved &&
                                 selectedContenedor == Some(ContenedorGuardado(old(selectedContenedor).value, old(config))) &&
                                 contenedores == (if recarga.None? then old(contenedores)
                                                  else if recarga.value.Some? then recarga.value.value else [])) &&
                (fallo.Some? ==> aviso == Some(AvisoError(fallo.value)) &&
                                 selectedContenedor == old(selectedContenedor) && saved == old(saved))
      ensures old(selectedContenedorId) == 0 || old(selectedContenedor).None? || fallo.Some? ==>
                contenedores == old(contenedores)
      ensures selectedContenedorId == old(selectedContenedorId)
      ensures config == old(config) && alerts == old(alerts)
    {
      if selectedContenedorId == 0 || selectedContenedor.None? {
        return None, Some(AvisoSinSeleccion);
      }
      var c := selectedContenedor.value;
      var updatedData := DatosActualizados(c.nombre, c.ubicacion, config.pesoMaximo, config.nivelLlenado,
                                           if c.activo.Some? then c.activo.value else Num(1.0), c.idUsuario);
      enviada := Some(Peticion(selectedContenedorId, updatedData));
      if fallo.Some? {
        return enviada, Some(PrefijoErrorGuardado + StrOr(fallo.value, "Error desconocido"));
      }
      selectedContenedor := Some(c.(pesoMaximo := Num(config.pesoMaximo), nivelAlerta := Num(config.nivelLlenado)));
      LoadContenedores(recarga);
      saved := true;
      aviso := None;
    }

    /** `handleReset`: the selected container's thresholds, or every setting back
        to its initial value when no container is selected; clears `saved`. */
    method HandleReset()
      modifies this
      ensures selectedContenedor.Some? ==> config == ConfigDesde(old(config), selectedContenedor.value)
      ensures selectedContenedor.None? ==> config == ConfigInicial
      ensures !saved
      ensures selectedContenedorId == old(selectedContenedorId) && contenedores == old(contenedores)
      ensures selectedContenedor == old(selectedContenedor) && alerts == old(alerts)
    {
      if selectedContenedor.Some? {
        var c := selectedContenedor.value;
        config := config.(pesoMaximo := NumOr(c.pesoMaximo, 5.0), nivelLlenado := NumOr(c.nivelAlerta, 80.0));
      } else {
        config := Config(5.0, 80.0, 5.0, 50.0);
      }
      saved := false;
    }

    /** The alert effect: with no reading yet the panel keeps its alerts;
        otherwise they are rebuilt from the reading. */
    method RefreshAlerts(lectura: Option<Lectura>, hora: string, horaLectura: string)
      modifies this
      ensures lectura.None? ==> alerts == old(alerts)
      ensures lectura.Some? ==>
                var nombre := NombreContenedor(selectedContenedor);
                alerts == Lista(AlertaNivel(lectura.value, config, nombre, hora))
                          + Lista(AlertaPeso(lectura.value, config, nombre, hora))
                          + Lista(AlertaRegistrada(lectura.value, nombre, horaLectura))
      ensures selectedContenedorId == old(selectedContenedorId) && contenedores == old(contenedores)
      ensures selectedContenedor == old(selectedContenedor) && config == old(config) && saved == old(saved)
    {
      if lectura.None? {
        return;
      }
      alerts := ConstruirAlertas(lectura.value, config, selectedContenedor, hora, horaLectura);
    }
  }
}
