/**
 * AuthViewModel.swift: the app's sign-in state over the local account
 * store.
 */
module AuthScreen {
  import opened Base
  import opened LocalAuth

  /** `AuthState`. */
  datatype AuthState = Unknown | SignedOut | SignedIn

  const DeleteAccountFailure: string := "회원탈퇴 중 오류가 발생했습니다."

  /** `AuthViewModel`, over the shared `LocalAuthService`. */
  class AuthViewModel {
    var authState: AuthState
    var isLoading: bool
    var errorMessage: Option<string>
    var currentUser: Option<User>
    const authService: LocalAuthService

    /**
     * Once checked, the state is never unknown again, and the user is
     * signed in exactly when a current user is held.
     */
    ghost predicate Valid()
      reads this, authService
    {
      && authState != Unknown
      && (authState == SignedIn <==> currentUser.Some?)
      && authService.Valid()
    }

    /** `init`: the state starts unknown and is settled at once by `checkAuthState`. */
    constructor (service: LocalAuthService)
      requires service.Valid()
      ensures authService == service && Valid()
      ensures service.CurrentUser().Some? ==> authState == SignedIn && currentUser == service.CurrentUser()
      ensures service.CurrentUser().None? ==> authState == SignedOut && currentUser.None?
      ensures !isLoading && errorMessage.None?
    {
      authState := Unknown;
      isLoading := false;
      errorMessage := None;
      currentUser := None;
      authService := service;
      new;
      CheckAuthState();
    }

    /** `checkAuthState`: signed in with the service's current user, if it has one; signed out otherwise. */
    method CheckAuthState()
      modifies this
      ensures authService.CurrentUser().Some? ==> authState == SignedIn && currentUser == authService.CurrentUser()
      ensures authService.CurrentUser().None? ==> authState == SignedOut && currentUser == old(currentUser)
      ensures isLoading == old(isLoading) && errorMessage == old(errorMessage)
    {
      var user := authService.CurrentUser();
      if user.Some? {
        currentUser := user;
        authState := SignedIn;
      } else {
        authState := SignedOut;
      }
    }

    /**
     * `signUp`: signed in as the new account, or the error's message with
     * the state as it was.
     */
    method SignUp(email: string, password: string, nickname: string, freshId: string, now: Date)
      requires Valid() && freshId !in authService.users
      modifies this, authService
      ensures Valid() && !isLoading
      ensures var e := SignUpError(old(authService.users), email, password, nickname);
        && (e.None? ==> authState == SignedIn && currentUser == Some(User(freshId, email, nickname, now)) && errorMessage.None?)
        && (e.Some? ==> authState == old(authState) && currentUser == old(currentUser)
                        && errorMessage == Some(ErrorDescription(e.value)))
        && (e.None? ==> authService.users == Registered(old(authService.users), User(freshId, email, nickname, now), authService.hash(password))
                        && authService.CurrentUser() == currentUser)
        && (e.Some? ==> authService.users == old(authService.users) && authService.currentUserId == old(authService.currentUserId)
                        && authService.keychain == old(authService.keychain))
    {
      isLoading := true;
      errorMessage := None;
      var result := authService.SignUp(email, password, nickname, freshId, now);
      match result {
        case Success(user) =>
          currentUser := Some(user);
          authState := SignedIn;
        case Failure(error) =>
          errorMessage := Some(ErrorDescription(error));
      }
      isLoading := false;
    }

    /**
     * `signIn`: signed in as the account, or the error's message with the
     * state as it was. The store is untouched.
     */
    method SignIn(email: string, password: string)
      requires Valid()
      modifies this, authService
      ensures Valid() && !isLoading
      ensures authService.users == old(authService.users)
      ensures var outcome := SignInOutcome(old(authService.users), email, password, authService.hash);
        && (outcome.Success? ==> authState == SignedIn && currentUser == Some(outcome.value) && errorMessage.None?)
        && (outcome.Failure? ==> authState == old(authState) && currentUser == old(currentUser)
                                 && errorMessage == Some(ErrorDescription(outcome.error)))
        && (outcome.Success? ==> authService.CurrentUser() == currentUser
                                 && authService.keychain == old(authService.keychain)[UserIdentifier := outcome.value.id])
        && (outcome.Failure? ==> authService.currentUserId == old(authService.currentUserId)
                                 && authService.keychain == old(authService.keychain))
    {
      isLoading := true;
      errorMessage := None;
      var result := authService.SignIn(email, password);
      match result {
        case Success(user) =>
          currentUser := Some(user);
          authState := SignedIn;
        case Failure(error) =>
          errorMessage := Some(ErrorDescription(error));
      }
      isLoading := false;
    }

    /** `signOut`: no current user, signed out, and the service holds no current user either. */
    method SignOut()
      requires Valid()
      modifies this, authService
      ensures Valid()
      ensures currentUser.None? && authState == SignedOut && authService.CurrentUser().None?
      ensures authService.users == old(authService.users)
      ensures isLoading == old(isLoading) && errorMessage == old(errorMessage)
    {
      authService.SignOut();
      currentUser := None;
      authState := SignedOut;
    }

    /**
     * `deleteAccount`: true exactly when the service deleted the current
     * account, leaving the signed-out state; false with a message and the
     * state unchanged otherwise.
     */
    method DeleteAccount() returns (deleted: bool)
      requires Valid()
      modifies this, authService
      ensures Valid() && !isLoading
      ensures deleted <==> old(authService.currentUserId).Some?
      ensures deleted ==>
        currentUser.None? && authState == SignedOut && errorMessage.None? && authService.CurrentUser().None?
        && authService.users == old(authService.users) - {old(authService.currentUserId).value}
      ensures !deleted ==>
        currentUser == old(currentUser) && authState == old(authState) && errorMessage == Some(DeleteAccountFailure)
        && authService.users == old(authService.users)
    {
      isLoading := true;
      errorMessage := None;
      var error := authService.DeleteAccount();
      if error.None? {
        currentUser := None;
        authState := SignedOut;
        isLoading := false;
        return true;
      } else {
        errorMessage := Some(DeleteAccountFailure);
        isLoading := false;
        return false;
      }
    }

    /** `clearError`. */
    method ClearError()
      modifies this
      ensures errorMessage.None?
      ensures authState == old(authState) && currentUser == old(currentUser) && isLoading == old(isLoading)
    {
      errorMessage := None;
    }
  }
}
