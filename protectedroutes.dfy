/** The route guard: who sees a protected page and where everybody else is sent. */
module ProtectedRoutes {
  import opened Js

  /** What the guard renders: the protected page, or a redirect. */
  datatype Salida = Hijos | Redirigir(to: string)

  const RutaLogin: string := "/login"
  const RutaInicio: string := "/"

  /** The user's role is one of the allowed ones (`allowedRoles.includes(userRole)`);
      a missing role is never included. */
  predicate Incluido(allowedRoles: seq<string>, userRole: Option<string>)
  {
    userRole.Some? && userRole.value in allowedRoles
  }

  /** `ProtectedRoute`: an anonymous visitor goes to the login page; a signed-in
      user whose role is not in a non-empty list of allowed roles goes to the
      home page; everybody else gets the page. */
  function ProtectedRoute(isAuthenticated: bool, userRole: Option<string>, allowedRoles: seq<string>): (r: Salida)
    ensures !isAuthenticated <==> r == Redirigir(RutaLogin)
    ensures r == Redirigir(RutaInicio) <==> isAuthenticated && |allowedRoles| > 0 && !Incluido(allowedRoles, userRole)
    ensures r == Hijos <==> isAuthenticated && (|allowedRoles| == 0 || Incluido(allowedRoles, userRole))
  {
    if !isAuthenticated then Redirigir(RutaLogin)
    else if |allowedRoles| > 0 && !Incluido(allowedRoles, userRole) then Redirigir(RutaInicio)
    else Hijos
  }

  /** Without a list of roles (the default `[]`) every signed-in user, whatever
      the role or without one, gets the page. */
  lemma SinRolesTodosPasan(userRole: Option<string>)
    ensures ProtectedRoute(true, userRole, []) == Hijos
  {
  }

  /** An anonymous visitor never gets the page, whatever the roles. */
  lemma AnonimoSiempreAlLogin(userRole: Option<string>, allowedRoles: seq<string>)
    ensures ProtectedRoute(false, userRole, allowedRoles) == Redirigir(RutaLogin)
  {
  }

  /** The decision depends only on the set of allowed roles, not on their order
      or repetitions. */
  lemma SoloImportaElConjunto(isAuthenticated: bool, userRole: Option<string>, r1: seq<string>, r2: seq<string>)
    requires forall x :: x in r1 <==> x in r2
    ensures ProtectedRoute(isAuthenticated, userRole, r1) == ProtectedRoute(isAuthenticated, userRole, r2)
  {
    if |r2| > 0 {
      assert r2[0] in r1;
    }
    if |r1| > 0 {
      assert r1[0] in r2;
    }
  }

  /** Allowing more roles never takes the page away from anyone who had it,
      as long as the narrower list was not empty. */
  lemma MasRolesNoQuitanAcceso(isAuthenticated: bool, userRole: Option<string>, r1: seq<string>, r2: seq<string>)
    requires |r1| > 0
    requires forall x :: x in r1 ==> x in r2
    requires ProtectedRoute(isAuthenticated, userRole, r1) == Hijos
    ensures ProtectedRoute(isAuthenticated, userRole, r2) == Hijos
  {
    assert userRole.value in r1;
  }
}
