/**
 * The access gate of src/App.js: invite redemption (`checkInviteToken`), the allowlist decision
 * made on every auth-state change, and the choice of screen. The store collections `invites`
 * and `allowlist` are maps; the `invite` query parameter of the page URL is an optional string.
 * Store reads and writes of a redemption are numbered 0 (read the invite), 1 (mark it used),
 * 2 (write the allowlist entry); `failAt` is the first that throws.
 */
module AccessGate {
  import opened Common

  /** Who redeemed an invite: `usedBy`, `usedByEmail`, `usedByName` (`usedAt` left out). */
  datatype Redeemer = Redeemer(uid: string, email: string, displayName: string)

  /** A document of `invites`, keyed by its token. */
  datatype Invite = Invite(createdByEmail: string, used: bool, usedBy: Option<Redeemer>)

  /** A document of `allowlist`, keyed by e-mail: written by a redemption, or by other means. */
  datatype AllowEntry = InvitedEntry(invitedBy: string, inviteToken: string) | OtherEntry

  datatype GateState = GateState(
    user: Option<User>,
    isAllowed: Option<bool>,    // null, true or false
    loading: bool,
    invites: map<string, Invite>,
    allowlist: map<string, AllowEntry>,
    urlInvite: Option<string>)

  predicate Succeeds(failAt: Option<nat>, k: nat)
  {
    failAt.None? || k < failAt.value
  }

  /** The effect of `checkInviteToken(u)` and what it returns. */
  datatype Redemption = Redemption(invites: map<string, Invite>, allowlist: map<string, AllowEntry>,
                                   urlInvite: Option<string>, processed: bool)

  function Redeem(invites: map<string, Invite>, allowlist: map<string, AllowEntry>,
                  urlInvite: Option<string>, u: User, failAt: Option<nat>): Redemption
  {
    var noEffect := Redemption(invites, allowlist, urlInvite, false);
    if !Truthy(urlInvite) || !Succeeds(failAt, 0) then noEffect
    else
      var token := urlInvite.value;
      if token !in invites || invites[token].used then noEffect
      else
        var inv := invites[token];
        var marked := invites[token := inv.(used := true,
                                            usedBy := Some(Redeemer(u.uid, u.email, u.displayName)))];
        if !Succeeds(failAt, 1) then noEffect
        else if !Succeeds(failAt, 2) then Redemption(marked, allowlist, urlInvite, false)
        else Redemption(marked, allowlist[u.email := InvitedEntry(inv.createdByEmail, token)],
                        None, true)
  }

  /** Only an existing, unused invite named in the URL can be redeemed; otherwise no write. */
  lemma RedeemRequiresUnusedInvite(invites: map<string, Invite>, allowlist: map<string, AllowEntry>,
                                   urlInvite: Option<string>, u: User, failAt: Option<nat>)
    requires !(Truthy(urlInvite) && urlInvite.value in invites && !invites[urlInvite.value].used)
    ensures Redeem(invites, allowlist, urlInvite, u, failAt) ==
      Redemption(invites, allowlist, urlInvite, false)
  {
  }

  /**
   * A successful redemption marks the invite used by this user, keeps every other invite, adds
   * the allowlist entry under the user's e-mail naming the inviter and the token, and clears
   * the URL parameter.
   */
  lemma RedeemSuccess(invites: map<string, Invite>, allowlist: map<string, AllowEntry>,
                      token: string, u: User)
    requires token != "" && token in invites && !invites[token].used
    ensures var r := Redeem(invites, allowlist, Some(token), u, None);
      && r.processed
      && r.invites.Keys == invites.Keys
      && r.invites[token].used
      && r.invites[token].usedBy == Some(Redeemer(u.uid, u.email, u.displayName))
      && r.invites[token].createdByEmail == invites[token].createdByEmail
      && (forall t :: t in invites && t != token ==> r.invites[t] == invites[t])
      && r.allowlist == allowlist[u.email := InvitedEntry(invites[token].createdByEmail, token)]
      && r.urlInvite.None?
  {
  }

  /** `processed` is true exactly when every write went through, and then the user is listed. */
  lemma ProcessedMeansListed(invites: map<string, Invite>, allowlist: map<string, AllowEntry>,
                             urlInvite: Option<string>, u: User, failAt: Option<nat>)
    ensures var r := Redeem(invites, allowlist, urlInvite, u, failAt);
      r.processed ==> u.email in r.allowlist && Succeeds(failAt, 2)
  {
  }

  /** An allowlist write that throws after the invite was marked leaves the invite used up. */
  lemma FailedAllowlistWriteBurnsToken(invites: map<string, Invite>,
                                       allowlist: map<string, AllowEntry>, token: string, u: User)
    requires token != "" && token in invites && !invites[token].used
    ensures var r := Redeem(invites, allowlist, Some(token), u, Some(2));
      && !r.processed && r.invites[token].used && r.allowlist == allowlist
      && Redeem(r.invites, r.allowlist, r.urlInvite, u, None) ==
           Redemption(r.invites, r.allowlist, r.urlInvite, false)
  {
  }

  /**
   * Redemption is idempotent once it has written anything: running it again, whatever fails,
   * changes nothing and does not report a fresh redemption.
   */
  lemma RedeemIdempotent(invites: map<string, Invite>, allowlist: map<string, AllowEntry>,
                         urlInvite: Option<string>, u: User, f1: Option<nat>, f2: Option<nat>)
    requires Redeem(invites, allowlist, urlInvite, u, f1).invites != invites
    ensures var r := Redeem(invites, allowlist, urlInvite, u, f1);
      Redeem(r.invites, r.allowlist, r.urlInvite, u, f2) ==
        Redemption(r.invites, r.allowlist, r.urlInvite, false)
  {
  }

  // ---------------------------------------------------------------------------------------
  // The auth-state callback

  /** The state after one `onAuthStateChanged` event, and whether it signs the user out. */
  datatype Step = Step(state: GateState, signedOut: bool)

  /**
   * One auth event: `u` the signed-in user or None, `failAt` for the redemption, `readOk`
   * whether the allowlist read goes through.
   */
  function OnAuth(s: GateState, u: Option<User>, failAt: Option<nat>, readOk: bool): Step
  {
    if u.None? then Step(s.(user := None, isAllowed := None, loading := false), false)
    else
      var user := u.value;
      var r := Redeem(s.invites, s.allowlist, s.urlInvite, user, failAt);
      var s1 := s.(invites := r.invites, allowlist := r.allowlist, urlInvite := r.urlInvite,
                   loading := false);
      if readOk && (user.email in r.allowlist || r.processed) then
        Step(s1.(user := u, isAllowed := Some(true)), false)
      else
        Step(s1.(isAllowed := Some(false)), true)
  }

  /** The gate's invariant: an allowed state has a user, and a user comes with a verdict. */
  predicate GateInvariant(s: GateState)
  {
    (s.isAllowed == Some(true) ==> s.user.Some?) && (s.user.Some? ==> s.isAllowed.Some?)
  }

  lemma OnAuthKeepsInvariant(s: GateState, u: Option<User>, failAt: Option<nat>, readOk: bool)
    requires GateInvariant(s)
    ensures GateInvariant(OnAuth(s, u, failAt, readOk).state)
    ensures !OnAuth(s, u, failAt, readOk).state.loading
  {
  }

  /**
   * A signed-in user is let in exactly when the allowlist read succeeds and finds the e-mail,
   * or a redemption just succeeded; every other outcome denies and signs out.
   */
  lemma AllowedIff(s: GateState, user: User, failAt: Option<nat>, readOk: bool)
    ensures var r := Redeem(s.invites, s.allowlist, s.urlInvite, user, failAt);
      var st := OnAuth(s, Some(user), failAt, readOk);
      && (st.state.isAllowed == Some(true) <==>
            readOk && (user.email in r.allowlist || r.processed))
      && (st.state.isAllowed == Some(true) ==> st.state.user == Some(user) && !st.signedOut)
      && (st.state.isAllowed != Some(true) ==>
            st.state.isAllowed == Some(false) && st.signedOut && st.state.user == s.user)
  {
  }

  /** A failed allowlist read denies even a user whose invite was just redeemed. */
  lemma FailClosed(s: GateState, user: User, failAt: Option<nat>)
    ensures OnAuth(s, Some(user), failAt, false).state.isAllowed == Some(false)
    ensures OnAuth(s, Some(user), failAt, false).signedOut
  {
  }

  /** An already-used invite grants nothing by itself. */
  lemma UsedInviteGrantsNothing(s: GateState, user: User, failAt: Option<nat>, readOk: bool)
    requires Truthy(s.urlInvite) && s.urlInvite.value in s.invites
    requires s.invites[s.urlInvite.value].used && user.email !in s.allowlist
    ensures OnAuth(s, Some(user), failAt, readOk).state.isAllowed == Some(false)
    ensures OnAuth(s, Some(user), failAt, readOk).state.invites == s.invites
  {
  }

  // ---------------------------------------------------------------------------------------
  // Render selection

  datatype Screen = LoadingScreen | DeniedScreen | LoginScreen | AppScreen

  function ScreenFor(s: GateState): (r: Screen)
    ensures r == LoadingScreen <==> s.loading
    ensures r == DeniedScreen <==> !s.loading && s.isAllowed == Some(false)
    ensures r == LoginScreen <==> !s.loading && s.isAllowed != Some(false) && s.user.None?
    ensures r == AppScreen <==> !s.loading && s.isAllowed != Some(false) && s.user.Some?
  {
    if s.loading then LoadingScreen
    else if s.isAllowed == Some(false) then DeniedScreen
    else if s.user.None? then LoginScreen
    else AppScreen
  }

  /** Under the invariant the application is only shown to a user the gate let in. */
  lemma AppOnlyWhenAllowed(s: GateState)
    requires GateInvariant(s)
    ensures ScreenFor(s) == AppScreen ==> s.isAllowed == Some(true) && s.user.Some?
  {
    if ScreenFor(s) == AppScreen {
      assert s.isAllowed.Some? && s.isAllowed.value != false;
    }
  }

  /**
   * A denial signs the user out; the sign-out's own null event then resets `isAllowed`, so the
   * screen after both events is the login screen, not the denied one.
   */
  lemma DenialThenSignOutShowsLogin(s: GateState, user: User, failAt: Option<nat>, readOk: bool)
    requires OnAuth(s, Some(user), failAt, readOk).signedOut
    ensures ScreenFor(OnAuth(s, Some(user), failAt, readOk).state) == DeniedScreen
    ensures ScreenFor(OnAuth(OnAuth(s, Some(user), failAt, readOk).state, None, None, true).state)
      == LoginScreen
  {
  }

  /** The gate as the component holds it. */
  class Gate {
    var user: Option<User>
    var isAllowed: Option<bool>
    var loading: bool
    var invites: map<string, Invite>
    var allowlist: map<string, AllowEntry>
    var urlInvite: Option<string>

    function State(): GateState
      reads this
    {
      GateState(user, isAllowed, loading, invites, allowlist, urlInvite)
    }

    constructor (invites: map<string, Invite>, allowlist: map<string, AllowEntry>,
                 urlInvite: Option<string>)
      ensures State() == GateState(None, None, true, invites, allowlist, urlInvite)
      ensures GateInvariant(State())
    {
      user := None;
      isAllowed := None;
      loading := true;
      this.invites := invites;
      this.allowlist := allowlist;
      this.urlInvite := urlInvite;
    }

    /** `checkInviteToken(u)`, step by step. */
    method CheckInviteToken(u: User, failAt: Option<nat>) returns (processed: bool)
      modifies this
      ensures var r := Redeem(old(invites), old(allowlist), old(urlInvite), u, failAt);
        invites == r.invites && allowlist == r.allowlist && urlInvite == r.urlInvite
        && processed == r.processed
      ensures user == old(user) && isAllowed == old(isAllowed) && loading == old(loading)
    {
      if !Truthy(urlInvite) || !Succeeds(failAt, 0) {
        return false;
      }
      var token := urlInvite.value;
      if token !in invites || invites[token].used {
        return false;
      }
      var inv := invites[token];
      if !Succeeds(failAt, 1) {
        return false;
      }
      invites := invites[token := inv.(used := true,
                                       usedBy := Some(Redeemer(u.uid, u.email, u.displayName)))];
      if !Succeeds(failAt, 2) {
        return false;
      }
      allowlist := allowlist[u.email := InvitedEntry(inv.createdByEmail, token)];
      urlInvite := None;
      return true;
    }

    /** The `onAuthStateChanged` callback; returns whether it called `signOut`. */
    method OnAuthStateChanged(u: Option<User>, failAt: Option<nat>, readOk: bool)
      returns (signedOut: bool)
      modifies this
      ensures Step(State(), signedOut) == OnAuth(old(State()), u, failAt, readOk)
    {
      signedOut := false;
      if u.Some? {
        var processed := CheckInviteToken(u.value, failAt);
        if readOk && (u.value.email in allowlist || processed) {
          user := u;
          isAllowed := Some(true);
        } else {
          isAllowed := Some(false);
          signedOut := true;
        }
      } else {
        user := None;
        isAllowed := None;
      }
      loading := false;
    }
  }
}
