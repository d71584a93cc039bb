/**
 * The root component (App.tsx): start-up reconciliation of the local profile
 * with the remote session, the choice of the first screen, and the handlers
 * that move between screens.  The session service and the remote store are
 * not modelled; what they answered is a parameter of each operation.
 */
module App {
  import opened Wrappers
  import opened Types
  import opened Storage
  import Remote

  /**
   * The screen a profile opens on (App.tsx:50-58): signed in and paid goes to
   * the dashboard, signed in and unpaid to payment, otherwise a recorded
   * reason to the commitment screen and nothing to the landing page.
   */
  function SelectScreen(user: UserProfile): (s: AppState)
    ensures s == Dashboard <==> user.isAuthenticated && user.hasPaid
    ensures s == Payment <==> user.isAuthenticated && !user.hasPaid
    ensures s == Commitment <==> !user.isAuthenticated && Truthy(user.reason)
    ensures s == Landing <==> !user.isAuthenticated && !Truthy(user.reason)
  {
    if user.isAuthenticated && user.hasPaid then Dashboard
    else if user.isAuthenticated && !user.hasPaid then Payment
    else if Truthy(user.reason) then Commitment
    else Landing
  }

  /** A fresh device opens on the landing page; a recorded reason without a sign-in opens the commitment screen. */
  lemma SelectScreenExamples(user: UserProfile)
    ensures SelectScreen(InitialState) == Landing
    ensures !user.isAuthenticated && user.reason == Some("quit smoking") ==> SelectScreen(user) == Commitment
  {
  }

  /** A fresh device: it opens on the landing page, has nothing to reset and nothing to push. */
  lemma FreshDevice(now: int)
    ensures SelectScreen(InitialState) == Landing
    ensures AfterReset(InitialState, now) == InitialState
    ensures Remote.ToRow(InitialState, now) == None
    ensures Merge(InitialState, NoChanges) == InitialState
  {
  }

  /** The profile after the start-up reset (App.tsx:29-30, services/storage.ts:50-65). */
  function AfterReset(stored: UserProfile, now: int): (r: UserProfile)
    ensures r == stored.(videoSubmittedToday := r.videoSubmittedToday)
    ensures r.videoSubmittedToday <==> stored.videoSubmittedToday && !ResetDue(stored, now)
    ensures !ResetDue(r, now)
  {
    if ResetDue(stored, now) then stored.(videoSubmittedToday := false) else stored
  }

  /** The local profile bound to a remote identity (App.tsx:42). */
  function Stamp(user: UserProfile, userId: string): (r: UserProfile)
    ensures r == user.(id := r.id, isAuthenticated := r.isAuthenticated)
    ensures r.id == Some(userId) && r.isAuthenticated
    ensures forall now :: Remote.ToRow(r, now).Some? <==> userId != ""
  {
    user.(id := Some(userId), isAuthenticated := true)
  }

  /** What a sign-up or sign-in call produced: an error (thrown or returned) or the data, possibly without a user. */
  datatype AuthOutcome = AuthFailed(message: string) | AuthSucceeded(userId: Option<string>)

  /** The message shown for a failed sign-in (App.tsx:131). */
  function AuthErrorText(message: string): (r: string)
    ensures r != ""
    ensures message != "" ==> r == message
    ensures message == "" ==> r == "Authentication failed"
  {
    if message == "" then "Authentication failed" else message
  }

  /** The root component's state. */
  class AppView {
    const store: Store
    var user: UserProfile
    var appState: AppState
    var authEmail: string
    var authPassword: string
    var authError: Option<string>
    /** The profiles handed to `syncProfileToSupabase`, in call order; `Remote.Sync` says what each push sends. */
    var pushed: seq<UserProfile>

    /** The state when the component is created (App.tsx:12-24). */
    constructor (store: Store)
      ensures this.store == store
      ensures user == store.GetUser() && appState == Landing
      ensures authEmail == "" && authPassword == "" && authError == None && pushed == []
    {
      this.store := store;
      user := store.GetUser();
      appState := Landing;
      authEmail, authPassword, authError := "", "", None;
      pushed := [];
    }

    /**
     * `initializeApp` (App.tsx:27-59) at instant `now`, with the session the
     * session service reported (its user id, if any) and the remote store's
     * answer to the profile fetch.  The reset comes first; with a session the
     * remote profile wins when there is one, otherwise the local profile is
     * stamped, stored and pushed; the screen follows from the result alone.
     */
    method Initialize(now: int, session: Option<string>, fetched: Remote.FetchOutcome)
      modifies this, store
      ensures var local := AfterReset(old(store.GetUser()), now);
        && (session.None? ==>
              && user == local && pushed == old(pushed)
              && store.user == (if ResetDue(old(store.GetUser()), now) then Some(Parsed(local)) else old(store.user)))
        && (session.Some? && Remote.LoadProfile(session.value, fetched, local).Some? ==>
              && user == Remote.LoadProfile(session.value, fetched, local).value
              && store.user == Some(Parsed(user)) && pushed == old(pushed))
        && (session.Some? && Remote.LoadProfile(session.value, fetched, local).None? ==>
              && user == Stamp(local, session.value)
              && store.user == Some(Parsed(user)) && pushed == old(pushed) + [user])
      ensures appState == SelectScreen(user)
      ensures store.journal == old(store.journal)
      ensures authEmail == old(authEmail) && authPassword == old(authPassword) && authError == old(authError)
    {
      var current := store.GetUser();
      current := store.CheckDailyReset(current, now);
      if session.Some? {
        var cloud := Remote.LoadProfile(session.value, fetched, store.GetUser());
        if cloud.Some? {
          current := store.UpdateUser(FullPatch(cloud.value));
        } else {
          current := store.UpdateUser(FullPatch(Stamp(current, session.value)));
          pushed := pushed + [current];
        }
      }
      user := current;
      appState := SelectScreen(current);
    }

    /**
     * The session-change listener (App.tsx:64-72): with a session and a remote
     * profile, that profile is stored and shown; otherwise nothing changes.
     * The screen is not recomputed.
     */
    method OnAuthStateChange(session: Option<string>, fetched: Remote.FetchOutcome)
      modifies this, store
      ensures session.Some? && Remote.LoadProfile(session.value, fetched, old(store.GetUser())).Some? ==>
        && user == Remote.LoadProfile(session.value, fetched, old(store.GetUser())).value
        && store.user == Some(Parsed(user))
      ensures !(session.Some? && Remote.LoadProfile(session.value, fetched, old(store.GetUser())).Some?) ==>
        user == old(user) && store.user == old(store.user)
      ensures appState == old(appState) && pushed == old(pushed) && store.journal == old(store.journal)
      ensures authEmail == old(authEmail) && authPassword == old(authPassword) && authError == old(authError)
    {
      if session.Some? {
        var cloud := Remote.LoadProfile(session.value, fetched, store.GetUser());
        if cloud.Some? {
          var updated := store.UpdateUser(FullPatch(cloud.value));
          user := updated;
        }
      }
    }

    /** `handleStart` (App.tsx:77). */
    method HandleStart()
      modifies this
      ensures appState == Onboarding
      ensures user == old(user) && pushed == old(pushed) && authError == old(authError)
      ensures authEmail == old(authEmail) && authPassword == old(authPassword)
    {
      appState := Onboarding;
    }

    /** `handleOnboardingComplete` (App.tsx:79-85): store age and reason, go to the commitment screen. */
    method HandleOnboardingComplete(age: int, reason: string)
      modifies this, store
      ensures user == old(store.GetUser()).(age := Some(age), reason := Some(reason))
      ensures store.user == Some(Parsed(user)) && store.journal == old(store.journal)
      ensures appState == Commitment && pushed == old(pushed) && authError == old(authError)
      ensures authEmail == old(authEmail) && authPassword == old(authPassword)
    {
      var updated := store.UpdateUser(NoChanges.(age := Some(Some(age)), reason := Some(Some(reason))));
      user := updated;
      appState := Commitment;
    }

    /** `handleCommitment` (App.tsx:87-89). */
    method HandleCommitment()
      modifies this
      ensures appState == Auth
      ensures user == old(user) && pushed == old(pushed) && authError == old(authError)
      ensures authEmail == old(authEmail) && authPassword == old(authPassword)
    {
      appState := Auth;
    }

    /** The e-mail field's change handler (App.tsx:365). */
    method SetAuthEmail(email: string)
      modifies this
      ensures authEmail == email
      ensures authPassword == old(authPassword) && authError == old(authError)
      ensures user == old(user) && appState == old(appState) && pushed == old(pushed)
    {
      authEmail := email;
    }

    /** The password field's change handler (App.tsx:376). */
    method SetAuthPassword(password: string)
      modifies this
      ensures authPassword == password
      ensures authEmail == old(authEmail) && authError == old(authError)
      ensures user == old(user) && appState == old(appState) && pushed == old(pushed)
    {
      authPassword := password;
    }

    /**
     * `handleAuth` (App.tsx:91-135) with the provider's answer.  Empty
     * credentials do nothing; a failure shows its message and leaves the
     * profile alone; a success binds the identity, pushes and goes to payment.
     */
    method HandleAuth(outcome: AuthOutcome)
      modifies this, store
      ensures authEmail == old(authEmail) && authPassword == old(authPassword)
      ensures store.journal == old(store.journal)
      ensures (old(authEmail) == "" || old(authPassword) == "") ==>
        && user == old(user) && appState == old(appState) && authError == old(authError)
        && pushed == old(pushed) && store.user == old(store.user)
      ensures old(authEmail) != "" && old(authPassword) != "" && outcome.AuthFailed? ==>
        && authError == Some(AuthErrorText(outcome.message))
        && user == old(user) && appState == old(appState) && pushed == old(pushed) && store.user == old(store.user)
      ensures old(authEmail) != "" && old(authPassword) != "" && outcome.AuthSucceeded? && outcome.userId.None? ==>
        && authError == None
        && user == old(user) && appState == old(appState) && pushed == old(pushed) && store.user == old(store.user)
      ensures old(authEmail) != "" && old(authPassword) != "" && outcome.AuthSucceeded? && outcome.userId.Some? ==>
        && authError == None
        && user == old(store.GetUser()).(email := Some(old(authEmail)), isAuthenticated := true,
                                         id := Some(outcome.userId.value))
        && store.user == Some(Parsed(user)) && pushed == old(pushed) + [user] && appState == Payment
    {
      if authEmail == "" || authPassword == "" {
        return;
      }
      authError := None;
      match outcome {
        case AuthFailed(message) =>
          authError := Some(AuthErrorText(message));
        case AuthSucceeded(userId) =>
          if userId.Some? {
            var updated := store.UpdateUser(NoChanges.(
              email := Some(Some(authEmail)), isAuthenticated := Some(true), id := Some(Some(userId.value))));
            user := updated;
            pushed := pushed + [updated];
            appState := Payment;
          }
      }
    }

    /** `handlePayment` (App.tsx:137-149): the payment is mocked and always succeeds at instant `now`. */
    method HandlePayment(now: int)
      modifies this, store
      ensures user == old(store.GetUser()).(hasPaid := true, startDate := Some(now))
      ensures store.user == Some(Parsed(user)) && store.journal == old(store.journal)
      ensures pushed == old(pushed) + [user] && appState == Dashboard
      ensures authEmail == old(authEmail) && authPassword == old(authPassword) && authError == old(authError)
    {
      var updated := store.UpdateUser(NoChanges.(hasPaid := Some(true), startDate := Some(Some(now))));
      user := updated;
      pushed := pushed + [updated];
      appState := Dashboard;
    }

    /**
     * `handleLogout` (App.tsx:151-159): only the profile key is removed, so the
     * profile falls back to the initial state while the journal stays.
     */
    method HandleLogout()
      modifies this, store
      ensures store.user.None? && store.journal == old(store.journal)
      ensures user == InitialState && appState == Landing
      ensures authEmail == "" && authPassword == ""
      ensures pushed == old(pushed) && authError == old(authError)
    {
      store.RemoveUser();
      user := store.GetUser();
      appState := Landing;
      authEmail := "";
      authPassword := "";
    }

    /** `handleUserUpdate` (App.tsx:161-165): show the profile the dashboard reported and push it. */
    method HandleUserUpdate(newProfile: UserProfile)
      modifies this
      ensures user == newProfile && pushed == old(pushed) + [newProfile]
      ensures appState == old(appState) && authError == old(authError)
      ensures authEmail == old(authEmail) && authPassword == old(authPassword)
    {
      user := newProfile;
      pushed := pushed + [newProfile];
    }
  }
}
