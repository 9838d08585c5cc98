/** src/components/ProtectedRoute.tsx: the gate in front of signed-in
    routes. The session hook is not part of this model; its `loading` flag
    and whether a user is present are inputs. */
module ProtectedRoute {
  datatype RouteView = Spinner | Redirect(to: string, replace: bool) | Children

  function Decide(loading: bool, hasUser: bool): (v: RouteView)
    ensures v.Spinner? <==> loading
    ensures v.Redirect? <==> !loading && !hasUser
    ensures v.Redirect? ==> v.to == "/auth" && v.replace
    ensures v.Children? <==> !loading && hasUser
  {
    if loading then Spinner else if !hasUser then Redirect("/auth", true) else Children
  }

  const SignInToast: string := "Please sign in to continue"

  /** The effect's condition for the destructive sign-in toast. */
  predicate ToastFires(loading: bool, hasUser: bool) {
    !loading && !hasUser
  }

  /** The toast fires exactly on the renders that redirect, so a signed-in
      user never sees it and a pending session never triggers it. */
  lemma ToastExactlyWhenRedirected(loading: bool, hasUser: bool)
    ensures ToastFires(loading, hasUser) <==> Decide(loading, hasUser).Redirect?
  {
  }
}
