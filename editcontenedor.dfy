/** The container edit dialog: the form it fills from the selected container,
    the numeric coercion of its change handler, and the chain of checks that
    decides whether the update is sent. */
module EditContenedor {
  import opened Js
  import opened Records

  /** The form. The four numeric fields hold what `Number(...)` gave (possibly
      NaN); `idUsuario` is None for null. */
  datatype FormData = FormData(
    nombre: string,
    ubicacion: string,
    pesoMaximo: Num,
    nivelAlerta: Num,
    activo: Num,
    idUsuario: Option<Num>)

  /** The form before any container is loaded. */
  const FormInicial: FormData := FormData("", "", Num(5.0), Num(80.0), Num(1.0), None)

  /** The form filled from a container: `nombre || ''`, `ubicacion || ''`,
      `Number(peso_maximo) || 5`, `Number(nivel_alerta) || 80`, `activo ?? 1`
      and `userId || null`, where `userId` is the signed-in user's id. */
  function FormDesde(c: Contenedor, userId: Option<Num>): (f: FormData)
    ensures f.nombre == (if c.nombre.Some? then c.nombre.value else "")
    ensures f.ubicacion == (if c.ubicacion.Some? then c.ubicacion.value else "")
    ensures f.pesoMaximo == (if NumTruthy(c.pesoMaximo) then c.pesoMaximo else Num(5.0))
    ensures f.nivelAlerta == (if NumTruthy(c.nivelAlerta) then c.nivelAlerta else Num(80.0))
    ensures f.activo == (if c.activo.Some? then c.activo.value else Num(1.0))
    ensures f.idUsuario.Some? <==> userId.Some? && NumTruthy(userId.value)
    ensures f.idUsuario.Some? ==> f.idUsuario == userId
  {
    FormData(StrOr(c.nombre, ""), StrOr(c.ubicacion, ""),
             Num(NumOr(c.pesoMaximo, 5.0)), Num(NumOr(c.nivelAlerta, 80.0)),
             if c.activo.Some? then c.activo.value else Num(1.0),
             if userId.Some? && NumTruthy(userId.value) then userId else None)
  }

  /** The nullish default keeps an inactive container inactive, where `||`
      would have turned its 0 into 1. */
  lemma InactivoSeConserva(c: Contenedor, userId: Option<Num>)
    requires c.activo == Some(Num(0.0))
    ensures FormDesde(c, userId).activo == Num(0.0)
  {
  }

  // ---------------------------------------------------------------------------
  // handleChange

  /** The names the change handler knows. */
  datatype Campo = CampoNombre | CampoUbicacion | CampoPesoMaximo | CampoNivelAlerta | CampoIdUsuario | CampoActivo

  predicate EsNumerico(c: Campo)
  {
    c == CampoPesoMaximo || c == CampoNivelAlerta || c == CampoIdUsuario || c == CampoActivo
  }

  /** `handleChange`: the named field takes `Number(value)` when it is one of
      the four numeric fields and `value` itself otherwise. */
  function Cambiar(f: FormData, campo: Campo, value: string): (g: FormData)
    ensures g.nombre == (if campo == CampoNombre then value else f.nombre)
    ensures g.ubicacion == (if campo == CampoUbicacion then value else f.ubicacion)
    ensures g.pesoMaximo == (if campo == CampoPesoMaximo then ParseNumber(value) else f.pesoMaximo)
    ensures g.nivelAlerta == (if campo == CampoNivelAlerta then ParseNumber(value) else f.nivelAlerta)
    ensures g.activo == (if campo == CampoActivo then ParseNumber(value) else f.activo)
    ensures g.idUsuario == (if campo == CampoIdUsuario then Some(ParseNumber(value)) else f.idUsuario)
  {
    match campo
    case CampoNombre => f.(nombre := value)
    case CampoUbicacion => f.(ubicacion := value)
    case CampoPesoMaximo => f.(pesoMaximo := ParseNumber(value))
    case CampoNivelAlerta => f.(nivelAlerta := ParseNumber(value))
    case CampoActivo => f.(activo := ParseNumber(value))
    case CampoIdUsuario => f.(idUsuario := Some(ParseNumber(value)))
  }

  /** What a numeric field holds after the change. */
  function Numerico(f: FormData, campo: Campo): Option<Num>
  {
    match campo
    case CampoPesoMaximo => Some(f.pesoMaximo)
    case CampoNivelAlerta => Some(f.nivelAlerta)
    case CampoActivo => Some(f.activo)
    case CampoIdUsuario => f.idUsuario
    case _ => None
  }

  /** Typing the decimal digits of a whole number into a numeric field stores
      that number; the option values '1' and '0' of the state selector store 1 and 0. */
  lemma CambiarNumeroRecupera(f: FormData, campo: Campo, n: nat)
    requires EsNumerico(campo)
    ensures Numerico(Cambiar(f, campo, NatToString(n)), campo) == Some(Num(n as real))
  {
    NumberOfNatToString(n);
  }

  /** Setting a field twice is setting it once to the second value, and
      changes to different fields commute. */
  lemma CambiarConmuta(f: FormData, a: Campo, x: string, b: Campo, y: string)
    ensures a == b ==> Cambiar(Cambiar(f, a, x), b, y) == Cambiar(f, b, y)
    ensures a != b ==> Cambiar(Cambiar(f, a, x), b, y) == Cambiar(Cambiar(f, b, y), a, x)
  {
  }

  // ---------------------------------------------------------------------------
  // handleSubmit

  const MensajeNombre: string := "El nombre es requerido"
  const MensajeUbicacion: string := "La ubicación es requerida"
  const MensajePeso: string := "El peso máximo debe ser mayor a 0"
  const MensajeNivel: string := "El nivel de alerta debe estar entre 0 y 100"
  const MensajeUsuario: string := "No se pudo obtener el usuario. Por favor, inicia sesión nuevamente."
  const MensajeActualizacion: string := "Error al actualizar el contenedor"

  // Each check's condition, as JavaScript evaluates it: a NaN comparison is false.
  predicate PesoRechazado(f: FormData) { NumLe(f.pesoMaximo, 0.0) }
  predicate NivelRechazado(f: FormData) { NumLt(f.nivelAlerta, 0.0) || NumGt(f.nivelAlerta, 100.0) }
  predicate SinUsuario(f: FormData) { f.idUsuario.None? || !NumTruthy(f.idUsuario.value) }

  /** A form the dialog sends: both names contain a non-blank character, the
      weight is not at most 0, the level is not outside [0, 100] and there is a user. */
  predicate Enviable(f: FormData)
  {
    !IsBlank(f.nombre) && !IsBlank(f.ubicacion) && !PesoRechazado(f) && !NivelRechazado(f) && !SinUsuario(f)
  }

  /** The checks of `handleSubmit`, in order; the first that fails gives the
      message, and None means the update is sent. */
  function Validar(f: FormData): (r: Option<string>)
    ensures r.None? <==> Enviable(f)
    ensures r == Some(MensajeNombre) <==> IsBlank(f.nombre)
    ensures r == Some(MensajeUbicacion) <==> !IsBlank(f.nombre) && IsBlank(f.ubicacion)
    ensures r == Some(MensajePeso) <==> !IsBlank(f.nombre) && !IsBlank(f.ubicacion) && PesoRechazado(f)
    ensures r == Some(MensajeNivel) <==>
              !IsBlank(f.nombre) && !IsBlank(f.ubicacion) && !PesoRechazado(f) && NivelRechazado(f)
    ensures r == Some(MensajeUsuario) <==>
              !IsBlank(f.nombre) && !IsBlank(f.ubicacion) && !PesoRechazado(f) && !NivelRechazado(f) && SinUsuario(f)
  {
    TrimEmptyIffBlank(f.nombre);
    TrimEmptyIffBlank(f.ubicacion);
    if Trim(f.nombre) == "" then Some(MensajeNombre)
    else if Trim(f.ubicacion) == "" then Some(MensajeUbicacion)
    else if PesoRechazado(f) then Some(MensajePeso)
    else if NivelRechazado(f) then Some(MensajeNivel)
    else if SinUsuario(f) then Some(MensajeUsuario)
    else None
  }

  /** What one submission does: the request sent (container id and form), if
      any; whether the parent was notified; and the message shown. */
  datatype Envio = Envio(enviada: Option<(int, FormData)>, actualizado: bool, error: string)

  /** The outcome of `handleSubmit`. The form goes out only when every check
      passes; `fallo` is the update's outcome (None for success, else the
      error's message). A failed check shows its message; a failed update its
      error, or the default; a successful update notifies the parent. */
  function Enviar(f: FormData, idContenedor: int, fallo: Option<string>): (r: Envio)
    ensures r.enviada.Some? <==> Enviable(f)
    ensures r.enviada.Some? ==> r.enviada.value == (idContenedor, f)
    ensures r.actualizado <==> Enviable(f) && fallo.None?
    ensures !Enviable(f) ==> Validar(f) == Some(r.error)
    ensures Enviable(f) && fallo.None? ==> r.error == ""
    ensures Enviable(f) && fallo.Some? ==> r.error == StrOr(fallo, MensajeActualizacion)
  {
    match Validar(f)
    case Some(m) => Envio(None, false, m)
    case None =>
      if fallo.Some? then Envio(Some((idContenedor, f)), false, StrOr(fallo, MensajeActualizacion))
      else Envio(Some((idContenedor, f)), true, "")
  }

  /** Both ends of the level range are accepted. */
  lemma NivelLimitesAceptados(f: FormData)
    requires Enviable(f)
    ensures Validar(f.(nivelAlerta := Num(0.0))) == None
    ensures Validar(f.(nivelAlerta := Num(100.0))) == None
  {
    assert Enviable(f.(nivelAlerta := Num(0.0))) && Enviable(f.(nivelAlerta := Num(100.0)));
  }

  /** `Number('abc')` is NaN. */
  lemma LetrasNoSonNumero()
    ensures ParseNumber("abc") == NaN
  {
    var t := "abc";
    assert TrimStart(t) == t by { assert !IsWhitespace(t[0]); }
    assert TrimEnd(t) == t by { assert !IsWhitespace(t[|t| - 1]); }
    assert t[0] != '-' && t[0] != '+';
    assert DigitPrefixLength(t) == 0 by { assert !IsDigit(t[0]); }
    assert t[0] != '.';
  }

  /** A NaN weight or level passes its check, because every comparison with
      NaN is false. */
  lemma NaNPasa(f: FormData)
    requires Enviable(f)
    ensures Validar(f.(pesoMaximo := NaN)) == None
    ensures Validar(f.(nivelAlerta := NaN)) == None
  {
    assert Enviable(f.(pesoMaximo := NaN));
    assert Enviable(f.(nivelAlerta := NaN));
  }

  /** A weight or level typed as 'abc' is stored as NaN and then sent. The
      dialog renders inputs only for the name, location and state, so no event
      of its own takes this path; it is what `handleChange` does if called with
      one of these field names. */
  lemma NoNumeroPasa(f: FormData)
    requires Enviable(f)
    ensures Validar(Cambiar(f, CampoPesoMaximo, "abc")) == None
    ensures Validar(Cambiar(f, CampoNivelAlerta, "abc")) == None
  {
    LetrasNoSonNumero();
    NaNPasa(f);
    assert Cambiar(f, CampoPesoMaximo, "abc") == f.(pesoMaximo := NaN);
    assert Cambiar(f, CampoNivelAlerta, "abc") == f.(nivelAlerta := NaN);
  }

  /** Emptying the weight field gives 0 (`Number('')`), which is refused. As
      above, the dialog has no weight input, so this path is reachable only
      through `handleChange` called with that field name. */
  lemma PesoVacioRechazado(f: FormData)
    requires !IsBlank(f.nombre) && !IsBlank(f.ubicacion)
    ensures Validar(Cambiar(f, CampoPesoMaximo, "")) == Some(MensajePeso)
  {
  }

  /** The dialog state the handlers change. */
  class EditContenedorView {
    var formData: FormData
    var loading: bool
    var error: string

    constructor ()
      ensures formData == FormInicial && !loading && error == ""
    {
      formData := FormInicial;
      loading := false;
      error := "";
    }

    /** The effect that runs when the dialog opens on a container: fills the
        form and clears the error. Without a container, or closed, nothing changes. */
    method Abrir(contenedor: Option<Contenedor>, isOpen: bool, userId: Option<Num>)
      modifies this
      ensures contenedor.Some? && isOpen ==> formData == FormDesde(contenedor.value, userId) && error == ""
      ensures !(contenedor.Some? && isOpen) ==> formData == old(formData) && error == old(error)
      ensures loading == old(loading)
    {
      if contenedor.Some? && isOpen {
        var c := contenedor.value;
        formData := FormData(StrOr(c.nombre, ""), StrOr(c.ubicacion, ""),
                             Num(NumOr(c.pesoMaximo, 5.0)), Num(NumOr(c.nivelAlerta, 80.0)),
                             if c.activo.Some? then c.activo.value else Num(1.0),
                             if userId.Some? && NumTruthy(userId.value) then userId else None);
        error := "";
      }
    }

    method HandleChange(campo: Campo, value: string)
      modifies this
      ensures formData == Cambiar(old(formData), campo, value)
      ensures loading == old(loading) && error == old(error)
    {
      var nuevo := if EsNumerico(campo) then Some(ParseNumber(value)) else None;
      match campo
      case CampoNombre => formData := formData.(nombre := value);
      case CampoUbicacion => formData := formData.(ubicacion := value);
      case CampoPesoMaximo => formData := formData.(pesoMaximo := nuevo.value);
      case CampoNivelAlerta => formData := formData.(nivelAlerta := nuevo.value);
      case CampoActivo => formData := formData.(activo := nuevo.value);
      case CampoIdUsuario => formData := formData.(idUsuario := nuevo);
    }

    /** `handleSubmit` on the dialog's container: the outcome `Enviar` gives
        for the form, with `loading` back to false. */
    method HandleSubmit(contenedor: Contenedor, fallo: Option<string>)
      returns (enviada: Option<(int, FormData)>, actualizado: bool)
      modifies this
      ensures !loading && formData == old(formData)
      ensures Envio(enviada, actualizado, error) == Enviar(old(formData), contenedor.idContenedor, fallo)
    {
      error := "";
      loading := true;
      var resultado := Enviar(formData, contenedor.idContenedor, fallo);
      enviada, actualizado := resultado.enviada, resultado.actualizado;
      error := resultado.error;
      loading := false;
    }
  }
}
