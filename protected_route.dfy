/** The authentication gate around a page. */
module ProtectedRoute {
  import opened Wrappers
  import AuthOptions

  /** The session status reported by the identity library. */
  datatype SessionStatus = Loading | Authenticated | Unauthenticated

  /** What the gate renders. */
  datatype GateView = Children | Spinner | SignInPrompt

  /** `ProtectedRoute`: `requireAuth` defaults to false; then a spinner while
      the session loads, the sign-in prompt without a session, the children
      with one. */
  function Gate(requireAuth: Option<bool>, status: SessionStatus,
                session: Option<AuthOptions.JsObject>): (v: GateView)
    ensures v == Children <==> !requireAuth.GetOr(false) || (status != Loading && session.Some?)
    ensures v == Spinner <==> requireAuth.GetOr(false) && status == Loading
    ensures v == SignInPrompt <==> requireAuth.GetOr(false) && status != Loading && session.None?
  {
    if !requireAuth.GetOr(false) then Children
    else if status == Loading then Spinner
    else if session.None? then SignInPrompt
    else Children
  }

  /** Without `requireAuth` the children show whatever the session state,
      even while it is loading. */
  lemma DefaultIsOpen(status: SessionStatus, session: Option<AuthOptions.JsObject>)
    ensures Gate(None, status, session) == Children
    ensures Gate(Some(false), status, session) == Children
  {
  }
}
