/** The state and event handlers of the login/registration page.

    The page keeps four pieces of state: the mode flag, the loading flag,
    the error banner and the form inputs. The authentication service and the
    router are outside the page: the outcome of an authentication call and
    the service's last error text arrive as parameters, and the page records
    the requests it sends and the paths it navigates to.
 */
module LoginForm {
  import opened Validation

  /** A call the page makes to the authentication service. */
  datatype AuthRequest =
    | LoginRequest(email: string, password: string)
    | RegisterRequest(form: Form)

  /** The error shown when the service fails without a message of its own. */
  const GenericFailure: string := "Đã có lỗi xảy ra. Vui lòng thử lại sau."

  /** The path the page navigates to after a successful sign-in. */
  const HomePath: string := "/"

  /** The request sent for a validated form: the credentials when logging in,
      the whole form when registering. */
  function RequestFor(mode: Mode, f: Form): (q: AuthRequest)
    ensures q.LoginRequest? <==> mode == Login
    ensures q.LoginRequest? ==> q.email == f.email && q.password == f.password
    ensures q.RegisterRequest? ==> q.form == f
  {
    match mode
    case Login => LoginRequest(f.email, f.password)
    case Register => RegisterRequest(f)
  }

  /** `authError || fallback`: the service's own message when it has one,
      the generic text otherwise. The empty string stands for every falsy
      value the service may leave there. */
  function FailureMessage(authError: string): (m: string)
    ensures m != []
    ensures authError != [] ==> m == authError
    ensures authError == [] ==> m == GenericFailure
  {
    if authError != [] then authError else GenericFailure
  }

  class LoginPage {
    var isLogin: bool
    var loading: bool
    var error: Option<string>
    var formData: Form
    /** Every path handed to the router, oldest first. */
    ghost var navigations: seq<string>
    /** Every request sent to the authentication service, oldest first. */
    ghost var authRequests: seq<AuthRequest>

    /** The error banner, when there is one, has text to show: the page
        renders it only when it is truthy. */
    ghost predicate Valid()
      reads this
    {
      error.Some? ==> error.value != []
    }

    function CurrentMode(): Mode
      reads this
    {
      if isLogin then Login else Register
    }

    /** The page as mounted: the login form, not loading, no error, every
        input empty, nothing sent and nowhere navigated. */
    constructor ()
      ensures Valid()
      ensures isLogin && !loading && error == None && formData == EmptyForm
      ensures navigations == [] && authRequests == []
    {
      isLogin := true;
      loading := false;
      error := None;
      formData := EmptyForm;
      navigations := [];
      authRequests := [];
    }

    /** `handleChange`: the input named `field` now holds `value`. */
    method HandleChange(field: Field, value: string)
      requires Valid()
      modifies this`formData
      ensures Valid()
      ensures formData == Set(old(formData), field, value)
      ensures Get(formData, field) == value
      ensures forall k :: k != field ==> Get(formData, k) == Get(old(formData), k)
    {
      formData := Set(formData, field, value);
    }

    /** `validateForm`: decide on the current mode and inputs, show the
        error of the first rule that fails or clear the banner, and report
        whether the form may be sent. */
    method ValidateForm() returns (ok: bool)
      requires Valid()
      modifies this`error
      ensures Valid()
      ensures ok <==> Acceptable(CurrentMode(), formData)
      ensures ok ==> error == None
      ensures !ok ==> error == Some(Message(Validate(CurrentMode(), formData).value))
    {
      var mode := CurrentMode();
      match Validate(mode, formData)
      case Some(e) =>
        error := Some(Message(e));
        ok := false;
      case None =>
        error := None;
        ok := true;
    }

    /** `handleSubmit`: validate, then send the request, navigate home on
        success or show the service's error on failure, and clear the
        loading flag in every case. An invalid form sends nothing and leaves
        the loading flag alone. `authSucceeds` says whether the awaited
        `login` or `register` call settled without throwing: any value it
        resolves with, an error object included, leads to the navigation. */
    method HandleSubmit(authSucceeds: bool, authError: string)
      requires Valid()
      modifies this`error, this`loading, this`navigations, this`authRequests
      ensures Valid()
      ensures !Acceptable(old(CurrentMode()), old(formData)) ==>
        error == Some(Message(Validate(old(CurrentMode()), old(formData)).value)) &&
        loading == old(loading) &&
        navigations == old(navigations) &&
        authRequests == old(authRequests)
      ensures Acceptable(old(CurrentMode()), old(formData)) ==>
        !loading &&
        authRequests == old(authRequests) + [RequestFor(old(CurrentMode()), old(formData))] &&
        (authSucceeds ==> navigations == old(navigations) + [HomePath] && error == None) &&
        (!authSucceeds ==> navigations == old(navigations) && error == Some(FailureMessage(authError)))
    {
      var ok := ValidateForm();
      if !ok {
        return;
      }
      loading := true;
      var mode := CurrentMode();
      authRequests := authRequests + [RequestFor(mode, formData)];
      if authSucceeds {
        navigations := navigations + [HomePath];
      } else {
        error := Some(FailureMessage(authError));
      }
      loading := false;
    }

    /** `toggleForm`: switch between the login and registration forms and
        clear the error; the inputs keep what was typed. */
    method ToggleForm()
      requires Valid()
      modifies this`isLogin, this`error
      ensures Valid()
      ensures isLogin == !old(isLogin)
      ensures CurrentMode() != old(CurrentMode())
      ensures error == None
    {
      isLogin := !isLogin;
      error := None;
    }
  }

  /** Toggling twice brings back the form that was on screen, with the
      inputs as they were and no error. */
  method ToggleTwice(page: LoginPage)
    requires page.Valid()
    modifies page`isLogin, page`error
    ensures page.Valid()
    ensures page.isLogin == old(page.isLogin) && page.formData == old(page.formData)
    ensures page.error == None
  {
    page.ToggleForm();
    page.ToggleForm();
  }

  /** Submitting the same invalid form twice shows the same error both times
      and sends nothing, navigates nowhere and leaves the loading flag alone. */
  method SubmitInvalidTwice(page: LoginPage, authSucceeds: bool, authError: string)
    requires page.Valid()
    requires Validate(page.CurrentMode(), page.formData).Some?
    modifies page`error, page`loading, page`navigations, page`authRequests
    ensures page.Valid()
    ensures page.error == Some(Message(Validate(old(page.CurrentMode()), old(page.formData)).value))
    ensures page.isLogin == old(page.isLogin) && page.formData == old(page.formData)
    ensures page.loading == old(page.loading)
    ensures page.navigations == old(page.navigations) && page.authRequests == old(page.authRequests)
  {
    page.HandleSubmit(authSucceeds, authError);
    var first := page.error;
    page.HandleSubmit(authSucceeds, authError);
    assert page.error == first;
  }
}
