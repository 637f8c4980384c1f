/**
 * The gate of src/frontend/src/components/AuthGuard.tsx in front of every
 * protected page. The identity provider is outside the model: its
 * `isInitializing` and `isLoggingIn` flags and its identity object are
 * inputs, and of the identity only whether its principal is anonymous is used.
 */
module AuthGuard {
  import opened Domain
  import Queries

  datatype Identity = Identity(principalIsAnonymous: bool)

  /** `identity && !identity.getPrincipal().isAnonymous()` */
  function IsAuthenticated(identity: Option<Identity>): bool
  {
    identity.Some? && !identity.value.principalIsAnonymous
  }

  datatype GuardView =
    | LoadingView
    | LoginPrompt(loginDisabled: bool)
    | ProtectedContent

  /**
   * The three-way choice, decided in the source's order: initializing first,
   * then authentication.
   */
  function Guard(isInitializing: bool, identity: Option<Identity>, isLoggingIn: bool): (v: GuardView)
    ensures v.LoadingView? <==> isInitializing
    ensures v.LoginPrompt? <==> !isInitializing && (identity.None? || identity.value.principalIsAnonymous)
    ensures v.ProtectedContent? <==> !isInitializing && identity.Some? && !identity.value.principalIsAnonymous
    ensures v.LoginPrompt? ==> (v.loginDisabled <==> isLoggingIn)
  {
    if isInitializing then LoadingView
    else if !IsAuthenticated(identity) then LoginPrompt(isLoggingIn)
    else ProtectedContent
  }

  /** While the provider initializes, the loading view is shown whatever the identity is. */
  lemma InitializingShowsLoading(identity: Option<Identity>, isLoggingIn: bool)
    ensures Guard(true, identity, isLoggingIn) == LoadingView
  {
  }

  /** Neither a missing identity nor an anonymous one reaches the protected content. */
  lemma UnauthenticatedSeesLoginPrompt(isLoggingIn: bool)
    ensures Guard(false, None, isLoggingIn) == LoginPrompt(isLoggingIn)
    ensures Guard(false, Some(Identity(true)), isLoggingIn) == LoginPrompt(isLoggingIn)
  {
  }

  /**
   * `Queries.Enabled` and `Queries.QueryFn` take no identity input, so an
   * anonymous identity, which gets the login prompt here, disables no query:
   * with an actor that is not fetching, each query is enabled and answered
   * by the server.
   */
  lemma QueriesEnabledWhileLoggedOut(server: Queries.Server, k: Queries.QueryKey)
    ensures Guard(false, Some(Identity(true)), false).LoginPrompt?
    ensures Queries.Enabled(Some(server), false)
    ensures Queries.QueryFn(k, Some(server)) == Queries.Answer(server, k)
  {
  }
}
