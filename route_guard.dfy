/** `ProtectedRoute`: what a guarded route shows for the current identity. */
module RouteGuard {
  import opened Wrappers
  import opened Auth

  datatype Outcome =
    | Nothing             // render nothing (`null`)
    | Redirect(target: string) // `<Navigate to=... replace />`
    | Render              // `<Outlet />`

  datatype GuardProps = GuardProps(requireCorporate: bool, redirectTo: string, corporateRedirectTo: string)

  /** The props when none are given. */
  const DefaultProps := GuardProps(false, "/", "/employer/login")

  /** The props of the route wrapping every page under `client/`. */
  const ClientRouteProps := DefaultProps.(requireCorporate := true, corporateRedirectTo := "/employer/login")

  /** The guard's decision: wait for hydration, then demand a session, then,
      when asked to, a corporate one. */
  function Decide(isHydrating: bool, isAuthenticated: bool, isCorporate: bool, props: GuardProps): (o: Outcome)
    ensures isHydrating ==> o == Nothing
    ensures !isHydrating && !isAuthenticated ==>
      o == Redirect(if props.requireCorporate then props.corporateRedirectTo else props.redirectTo)
    ensures !isHydrating && isAuthenticated && props.requireCorporate && !isCorporate ==>
      o == Redirect(props.corporateRedirectTo)
    ensures o == Render <==> !isHydrating && isAuthenticated && (!props.requireCorporate || isCorporate)
    ensures o.Redirect? && props.requireCorporate ==> o.target == props.corporateRedirectTo
    ensures o == Nothing <==> isHydrating
  {
    if isHydrating then Nothing
    else if !isAuthenticated then Redirect(if props.requireCorporate then props.corporateRedirectTo else props.redirectTo)
    else if props.requireCorporate && !isCorporate then Redirect(props.corporateRedirectTo)
    else Render
  }

  /** The guard applied to an identity held by the context. */
  function DecideFor(d: AuthData, isHydrating: bool, props: GuardProps): Outcome {
    Decide(isHydrating, d.IsAuthenticated(), d.IsCorporate(), props)
  }

  /** On the client pages, after hydration, exactly a corporate session with a
      non-empty token gets through; everyone else is sent to the employer login. */
  lemma ClientPagesNeedCorporateSession(d: AuthData)
    ensures DecideFor(d, false, ClientRouteProps) == Render <==>
      d.authToken.Some? && d.authToken.value != "" && d.role == Some(CorporateRole)
    ensures DecideFor(d, false, ClientRouteProps) != Render ==>
      DecideFor(d, false, ClientRouteProps) == Redirect("/employer/login")
  {
  }

  /** Signing out closes the client pages. */
  lemma SignedOutIsRedirected()
    ensures DecideFor(SignedOut, false, ClientRouteProps) == Redirect("/employer/login")
    ensures DecideFor(SignedOut, false, DefaultProps) == Redirect("/")
  {
  }

  /** An internal staff session does not open the client pages. */
  lemma InternalSessionIsRedirected(d: AuthData)
    requires d.IsInternal()
    ensures DecideFor(d, false, ClientRouteProps) == Redirect("/employer/login")
  {
    RolesExclusive(d);
  }

  /** A session restored from storage for a corporate account opens the client pages. */
  lemma RestoredCorporateSessionRenders(h: Hydration, current: AuthData)
    requires h.Restored? && h.role == CorporateRole && h.token != ""
    ensures DecideFor(Installed(h, current), false, ClientRouteProps) == Render
  {
  }
}
