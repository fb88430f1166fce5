/** The user edit dialog: the form it fills from the selected user, the
    change handler that upper-cases the name, and the two required-field
    checks before the trimmed update is sent. */
module EditUser {
  import opened Js
  import opened Records

  /** The form. `activo` holds the user's own value when it was truthy, and the
      selector's string afterwards. */
  datatype FormUsuario = FormUsuario(nombre: string, correo: string, rol: string, activo: Scalar)

  const FormInicial: FormUsuario := FormUsuario("", "", "tecnico", SStr(""))

  /** The form filled from a user: `nombre || ''`, `correo || ''`,
      `rol || 'tecnico'` and `activo || '1'`. The name is taken as stored,
      without upper-casing. */
  function FormDe(u: Usuario): (f: FormUsuario)
    ensures f.nombre == (if u.nombre.Some? then u.nombre.value else "")
    ensures f.correo == (if u.correo.Some? then u.correo.value else "")
    ensures f.rol == (if u.rol.Some? && u.rol.value != "" then u.rol.value else "tecnico")
    ensures f.activo == (if ScalarTruthy(u.activo) then u.activo else SStr("1"))
    ensures f.rol != "" && ScalarTruthy(f.activo)
  {
    FormUsuario(StrOr(u.nombre, ""), StrOr(u.correo, ""), StrOr(u.rol, "tecnico"),
                if ScalarTruthy(u.activo) then u.activo else SStr("1"))
  }

  /** An inactive user stored with `activo` = 0 is loaded as '1': the `||`
      default cannot tell 0 from a missing value. */
  lemma InactivoCargadoComoActivo(u: Usuario)
    requires u.activo == SNum(Num(0.0))
    ensures FormDe(u).activo == SStr("1")
  {
  }

  // ---------------------------------------------------------------------------
  // handleChange

  datatype Campo = CampoNombre | CampoCorreo | CampoRol | CampoActivo

  /** `handleChange`: the name is stored upper-cased, every other field verbatim. */
  function Cambiar(f: FormUsuario, campo: Campo, value: string): (g: FormUsuario)
    ensures g.nombre == (if campo == CampoNombre then ToUpper(value) else f.nombre)
    ensures g.correo == (if campo == CampoCorreo then value else f.correo)
    ensures g.rol == (if campo == CampoRol then value else f.rol)
    ensures g.activo == (if campo == CampoActivo then SStr(value) else f.activo)
  {
    match campo
    case CampoNombre => f.(nombre := ToUpper(value))
    case CampoCorreo => f.(correo := value)
    case CampoRol => f.(rol := value)
    case CampoActivo => f.(activo := SStr(value))
  }

  /** Once the name has been edited it is in upper case: upper-casing it again
      changes nothing. */
  lemma NombreEditadoEnMayusculas(f: FormUsuario, value: string)
    ensures var g := Cambiar(f, CampoNombre, value);
            ToUpper(g.nombre) == g.nombre
  {
    ToUpperIdempotent(value);
  }

  /** Changes to different fields commute, and a field set twice keeps the second value. */
  lemma CambiarConmuta(f: FormUsuario, a: Campo, x: string, b: Campo, y: string)
    ensures a == b ==> Cambiar(Cambiar(f, a, x), b, y) == Cambiar(f, b, y)
    ensures a != b ==> Cambiar(Cambiar(f, a, x), b, y) == Cambiar(Cambiar(f, b, y), a, x)
  {
  }

  // ---------------------------------------------------------------------------
  // handleSubmit

  const MensajeNombre: string := "El nombre es requerido"
  const MensajeCorreo: string := "El correo es requerido"
  const MensajeActualizacion: string := "Error al actualizar usuario"

  /** The two checks, in order: a blank name, then a blank e-mail. */
  function Validar(f: FormUsuario): (r: Option<string>)
    ensures r.None? <==> !IsBlank(f.nombre) && !IsBlank(f.correo)
    ensures r == Some(MensajeNombre) <==> IsBlank(f.nombre)
    ensures r == Some(MensajeCorreo) <==> !IsBlank(f.nombre) && IsBlank(f.correo)
  {
    TrimEmptyIffBlank(f.nombre);
    TrimEmptyIffBlank(f.correo);
    if Trim(f.nombre) == "" then Some(MensajeNombre)
    else if Trim(f.correo) == "" then Some(MensajeCorreo)
    else None
  }

  /** The body of the update. */
  datatype DatosUsuario = DatosUsuario(nombre: string, correo: string, rol: string, activo: Scalar)

  /** `dataToSend`: the name and e-mail trimmed, role and state as they are. */
  function Payload(f: FormUsuario): (d: DatosUsuario)
    ensures d.rol == f.rol && d.activo == f.activo
    ensures d.nombre == Trim(f.nombre) && d.correo == Trim(f.correo)
  {
    DatosUsuario(Trim(f.nombre), Trim(f.correo), f.rol, f.activo)
  }

  /** What a form that passes the checks sends: a name and an e-mail that are
      not empty and have nothing left to trim. */
  lemma PayloadRecortado(f: FormUsuario)
    requires Validar(f).None?
    ensures var d := Payload(f);
            d.nombre != "" && d.correo != "" && Trim(d.nombre) == d.nombre && Trim(d.correo) == d.correo
  {
    TrimEmptyIffBlank(f.nombre);
    TrimEmptyIffBlank(f.correo);
    TrimIdempotent(f.nombre);
    TrimIdempotent(f.correo);
  }

  /** The dialog state the handlers change. */
  class EditUserView {
    var formData: FormUsuario
    var isLoading: bool
    var error: string

    constructor ()
      ensures formData == FormInicial && !isLoading && error == ""
    {
      formData := FormInicial;
      isLoading := false;
      error := "";
    }

    /** The effect that runs when the selected user changes: fills the form;
        without a user nothing changes. */
    method Cargar(usuario: Option<Usuario>)
      modifies this
      ensures formData == (if usuario.Some? then FormDe(usuario.value) else old(formData))
      ensures isLoading == old(isLoading) && error == old(error)
    {
      if usuario.Some? {
        var u := usuario.value;
        formData := FormUsuario(StrOr(u.nombre, ""), StrOr(u.correo, ""), StrOr(u.rol, "tecnico"),
                                if ScalarTruthy(u.activo) then u.activo else SStr("1"));
      }
    }

    method HandleChange(campo: Campo, value: string)
      modifies this
      ensures formData == Cambiar(old(formData), campo, value)
      ensures isLoading == old(isLoading) && error == old(error)
    {
      match campo
      case CampoNombre => formData := formData.(nombre := ToUpper(value));
      case CampoCorreo => formData := formData.(correo := value);
      case CampoRol => formData := formData.(rol := value);
      case CampoActivo => formData := formData.(activo := SStr(value));
    }

    /** `handleSubmit` on the dialog's user. The update goes out only when
        both checks pass; `fallo` is its outcome (None for success, else the
        error's message). `exito` tells whether the parent was notified and the
        dialog closed. */
    method HandleSubmit(usuario: Usuario, fallo: Option<string>)
      returns (enviada: Option<(int, DatosUsuario)>, exito: bool)
      modifies this
      ensures !isLoading && formData == old(formData)
      ensures enviada.Some? <==> Validar(old(formData)).None?
      ensures enviada.Some? ==> enviada.value == (usuario.idUsuario, Payload(old(formData)))
      ensures Validar(old(formData)).Some? ==> error == Validar(old(formData)).value && !exito
      ensures Validar(old(formData)).None? ==>
                (fallo.None? ==> error == "" && exito) &&
                (fallo.Some? ==> error == StrOr(fallo, MensajeActualizacion) && !exito)
    {
      error := "";
      isLoading := true;
      enviada, exito := None, false;
      var validacion := Validar(formData);
      if validacion.Some? {
        error := validacion.value;
        isLoading := false;
        return;
      }
      var dataToSend := Payload(formData);
      enviada := Some((usuario.idUsuario, dataToSend));
      if fallo.Some? {
        error := if fallo.value != "" then fallo.value else MensajeActualizacion;
      } else {
        exito := true;
      }
      isLoading := false;
    }
  }
}
