/** The route guard (src/components/auth/ProtectedRoute.tsx) as a decision over its inputs. */
module ProtectedRoute {
  import opened Common

  /** The fields of the signed-in user the guard reads; the timestamps are kept as their text. */
  datatype User = User(email: Option<string>, emailConfirmedAt: Option<string>, confirmedAt: Option<string>)

  /** The loaded profile's treasurer flag. */
  datatype Profile = Profile(isTreasurer: bool)

  /** What the guard renders. */
  datatype View =
    | Spinner
    | Redirect(to: string)
    | ChildrenWithOnboardingModal
    | Children

  /** `!!(user?.email_confirmed_at || user?.confirmed_at)`. */
  predicate IsEmailVerified(user: User) {
    Truthy(user.emailConfirmedAt) || Truthy(user.confirmedAt)
  }

  /** `/verify-email` with `?email=<encoded e-mail>` when the user has an e-mail. */
  function VerifyEmailPath(email: Option<string>, encode: string -> string): (path: string)
    ensures Truthy(email) ==> path == "/verify-email?email=" + encode(email.value)
    ensures !Truthy(email) ==> path == "/verify-email"
  {
    if Truthy(email) then "/verify-email?email=" + encode(email.value) else "/verify-email"
  }

  /** `ProtectedRoute`; `encode` stands for `encodeURIComponent`. */
  function Guard(loading: bool, user: Option<User>, profile: Option<Profile>, requireTreasurer: bool,
                 onboardingComplete: bool, encode: string -> string): View
  {
    if loading then Spinner
    else if user.None? then Redirect("/login")
    else if !IsEmailVerified(user.value) then Redirect(VerifyEmailPath(user.value.email, encode))
    else if requireTreasurer && !(profile.Some? && profile.value.isTreasurer) then Redirect("/dashboard")
    else if profile.Some? && !onboardingComplete then ChildrenWithOnboardingModal
    else Children
  }

  /** While loading, the spinner shows whatever the other inputs are. */
  lemma LoadingShowsSpinner(user: Option<User>, profile: Option<Profile>, requireTreasurer: bool, onboardingComplete: bool, encode: string -> string)
    ensures Guard(true, user, profile, requireTreasurer, onboardingComplete, encode) == Spinner
  {
  }

  /** Signed out sends to `/login`; signed in but unverified sends to `/verify-email`, with the e-mail only if there is one. */
  lemma RedirectsOfUnverified(user: Option<User>, profile: Option<Profile>, requireTreasurer: bool, onboardingComplete: bool, encode: string -> string)
    ensures user.None? ==> Guard(false, user, profile, requireTreasurer, onboardingComplete, encode) == Redirect("/login")
    ensures user.Some? && !IsEmailVerified(user.value) ==>
              Guard(false, user, profile, requireTreasurer, onboardingComplete, encode)
                == Redirect(VerifyEmailPath(user.value.email, encode))
  {
  }

  /** A treasurer-only route sends a non-treasurer, or a user with no profile yet, to `/dashboard`. */
  lemma TreasurerOnly(user: User, profile: Option<Profile>, onboardingComplete: bool, encode: string -> string)
    requires IsEmailVerified(user) && !(profile.Some? && profile.value.isTreasurer)
    ensures Guard(false, Some(user), profile, true, onboardingComplete, encode) == Redirect("/dashboard")
  {
  }

  /** The page is shown, with or without the onboarding modal, exactly when every guard passes. */
  lemma PageShownExactlyWhenAllowed(loading: bool, user: Option<User>, profile: Option<Profile>,
                                    requireTreasurer: bool, onboardingComplete: bool, encode: string -> string)
    ensures var v := Guard(loading, user, profile, requireTreasurer, onboardingComplete, encode);
            (v == Children || v == ChildrenWithOnboardingModal) <==>
              !loading && user.Some? && IsEmailVerified(user.value)
              && (!requireTreasurer || (profile.Some? && profile.value.isTreasurer))
    ensures var v := Guard(loading, user, profile, requireTreasurer, onboardingComplete, encode);
            v == ChildrenWithOnboardingModal <==>
              (v == Children || v == ChildrenWithOnboardingModal) && profile.Some? && !onboardingComplete
  {
  }
}
