/** Shapes of the records the dashboard receives from its HTTP API. Numeric fields
    that the components pass through `Number(...)` are kept as the number that
    conversion gives (`Js.Num`, possibly NaN); fields that may be null are options. */
module Records {
  import opened Js

  /** A container as listed by the containers endpoint. */
  datatype Contenedor = Contenedor(
    idContenedor: int,
    nombre: Option<string>,
    ubicacion: Option<string>,
    pesoMaximo: Num,          // Number(contenedor.peso_maximo)
    nivelAlerta: Num,         // Number(contenedor.nivel_alerta)
    activo: Option<Num>,      // None when null or undefined
    idUsuario: Option<int>)

  /** The alert attached to the latest reading (`lectura.alerta`). */
  datatype AlertaLectura = AlertaLectura(activo: bool, tipo: string, mensaje: string)

  /** One stored alert of the `alertas` list that comes with the latest reading.
      `instante` is what `new Date(timestamp_inicio).getTime()` gives. */
  datatype AlertaGuardada = AlertaGuardada(
    mongoId: Option<string>,  // `_id`
    idContenedor: int,
    timestampInicio: string,
    instante: int,
    tipo: string,
    severidad: Option<string>,
    mensaje: string,
    datosRelacionados: string)

  /** The latest reading of a container, as the readings endpoint returns it. */
  datatype Lectura = Lectura(
    idContenedor: int,
    peso: real,
    nivel: real,
    timestamp: int,
    alerta: Option<AlertaLectura>,
    alertas: Option<seq<AlertaGuardada>>)

  /** A user as listed by the users endpoint. */
  datatype Usuario = Usuario(
    idUsuario: int,
    nombre: Option<string>,
    correo: Option<string>,
    rol: Option<string>,
    activo: Scalar)
}
