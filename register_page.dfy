/**
 * The registration page: the form for an individual or an organization account, the checks
 * `validateForm` makes in order, and the submit handler that calls `register`.
 */
module RegisterPage {
  import opened Wrappers
  import opened Promises
  import opened Strings
  import opened EmailPattern
  import opened AuthContext
  import opened Seqs

  /** `formData`: every input of both account types, as typed. */
  datatype RegisterForm = RegisterForm(
    fullName: string, handle: string, bio: string,
    name: string, tagline: string, description: string, category: string,
    city: string, country: string, website: string, ein: string,
    email: string, password: string, confirmPassword: string)

  /** The `name` attribute of an input. */
  datatype FormField =
    | FullName | Handle | Bio | Name | Tagline | Description | Category
    | City | Country | Website | Ein | Email | Password | ConfirmPassword

  function Get(form: RegisterForm, f: FormField): string {
    match f
    case FullName => form.fullName
    case Handle => form.handle
    case Bio => form.bio
    case Name => form.name
    case Tagline => form.tagline
    case Description => form.description
    case Category => form.category
    case City => form.city
    case Country => form.country
    case Website => form.website
    case Ein => form.ein
    case Email => form.email
    case Password => form.password
    case ConfirmPassword => form.confirmPassword
  }

  /** `{...formData, [name]: value}`: the one input changes and every other keeps its text. */
  function WithField(form: RegisterForm, f: FormField, value: string): (r: RegisterForm)
    ensures Get(r, f) == value
    ensures forall g :: g != f ==> Get(r, g) == Get(form, g)
  {
    match f
    case FullName => form.(fullName := value)
    case Handle => form.(handle := value)
    case Bio => form.(bio := value)
    case Name => form.(name := value)
    case Tagline => form.(tagline := value)
    case Description => form.(description := value)
    case Category => form.(category := value)
    case City => form.(city := value)
    case Country => form.(country := value)
    case Website => form.(website := value)
    case Ein => form.(ein := value)
    case Email => form.(email := value)
    case Password => form.(password := value)
    case ConfirmPassword => form.(confirmPassword := value)
  }

  const RequiredMessage := "Please fill in all " + "required fields"
  const HandleMessage := "Handle must start " + "with @"
  const MismatchMessage := "Passwords do not " + "match"
  const ShortPasswordMessage := "Password must be at " + "least 6 characters"
  const EmailMessage := "Please enter a valid " + "email address"

  /** Example check on the constants: the five messages differ, so the message names the check that failed. */
  lemma MessagesAreDistinct()
    ensures RequiredMessage != HandleMessage && RequiredMessage != MismatchMessage
    ensures RequiredMessage != ShortPasswordMessage && RequiredMessage != EmailMessage
    ensures HandleMessage != MismatchMessage && HandleMessage != ShortPasswordMessage && HandleMessage != EmailMessage
    ensures MismatchMessage != ShortPasswordMessage && MismatchMessage != EmailMessage
    ensures ShortPasswordMessage != EmailMessage
  {
    assert RequiredMessage[0] != HandleMessage[0] == 'H';
    assert RequiredMessage[2] == EmailMessage[2] == 'e';
    assert MismatchMessage[2] == ShortPasswordMessage[2] == 's';
    assert RequiredMessage[7] != EmailMessage[7];
    assert MismatchMessage[8] != ShortPasswordMessage[8];
  }

  /** The required inputs of the account type; the website, the EIN and the bio are optional. */
  predicate MissingRequired(isUser: bool, form: RegisterForm) {
    if isUser then
      form.fullName == "" || form.handle == "" || form.email == "" || form.password == ""
    else
      form.name == "" || form.tagline == "" || form.description == "" || form.category == ""
      || form.city == "" || form.country == "" || form.email == "" || form.password == ""
  }

  /** What a form must satisfy to be submitted, with the e-mail pattern read literally. */
  predicate Valid(isUser: bool, form: RegisterForm) {
    !MissingRequired(isUser, form)
    && (isUser ==> StartsWith(form.handle, "@"))
    && form.password == form.confirmPassword
    && Length(form.password) >= 6
    && MatchesPattern(form.email)
  }

  /**
   * `validateForm`: the message of the first check that fails, in the order the page makes
   * them, or `None` when the form is valid.
   */
  function ValidationError(isUser: bool, form: RegisterForm): (r: Option<string>)
    ensures r == Some(RequiredMessage) <==> MissingRequired(isUser, form)
    ensures r == Some(HandleMessage) <==>
              !MissingRequired(isUser, form) && isUser && !StartsWith(form.handle, "@")
    ensures r == Some(MismatchMessage) <==>
              !MissingRequired(isUser, form) && (isUser ==> StartsWith(form.handle, "@"))
              && form.password != form.confirmPassword
    ensures r == Some(ShortPasswordMessage) <==>
              !MissingRequired(isUser, form) && (isUser ==> StartsWith(form.handle, "@"))
              && form.password == form.confirmPassword && Length(form.password) < 6
    ensures r == Some(EmailMessage) <==>
              !MissingRequired(isUser, form) && (isUser ==> StartsWith(form.handle, "@"))
              && form.password == form.confirmPassword && Length(form.password) >= 6
              && !IsValidEmail(form.email)
  {
    MessagesAreDistinct();
    if MissingRequired(isUser, form) then Some(RequiredMessage)
    else if isUser && !StartsWith(form.handle, "@") then Some(HandleMessage)
    else if form.password != form.confirmPassword then Some(MismatchMessage)
    else if Length(form.password) < 6 then Some(ShortPasswordMessage)
    else if !IsValidEmail(form.email) then Some(EmailMessage)
    else None
  }

  /** `validateForm` passes exactly the valid forms. */
  lemma ValidationAcceptsValidForms(isUser: bool, form: RegisterForm)
    ensures ValidationError(isUser, form).None? <==> Valid(isUser, form)
  {
    IsValidEmailMatchesPattern(form.email);
  }

  /** The object passed to `register`: every input as it is, and an empty EIN as absent. */
  function Payload(isUser: bool, form: RegisterForm): (r: RegisterData)
    ensures r.isUser == isUser && r.email == form.email && r.password == form.password
    ensures r.handle == Some(form.handle) && r.ein == OrUndefined(form.ein)
  {
    RegisterData(isUser, Some(form.fullName), Some(form.handle), Some(form.bio),
                 Some(form.name), Some(form.tagline), Some(form.description), Some(form.category),
                 Some(form.city), Some(form.country), Some(form.website), OrUndefined(form.ein),
                 form.email, form.password)
  }

  /**
   * A form that `register` accepts leaves an account of the chosen type that signs in with the
   * e-mail and password typed in and, for an individual, carries the typed handle.
   */
  lemma RegisteredFormCanLogIn(isUser: bool, form: RegisterForm, registry: seq<Account>, now: nat)
    requires !RegisterRefused(registry, Payload(isUser, form))
    ensures var a := NewAccount(Payload(isUser, form), now).(password := Some(form.password));
            FindIndex(registry + [a], Matches(form.email, form.password)) == |registry|
            && a.IsUser() == isUser && (isUser ==> a.Handle() == Some(form.handle))
  {
    RegisteredCanLogIn(registry, Payload(isUser, form), now);
  }

  /** The message shown when `register` refuses. */
  function RefusedMessage(isUser: bool): string {
    if isUser then "Email or handle " + "already exists. " + "Please try a " + "different one."
    else "Email already exists" + ". Please try a " + "different one."
  }

  /**
   * The refusal messages say why: a valid individual's form is refused exactly when its email or
   * its handle is taken, an organization's exactly when its email is.
   */
  lemma RefusalMatchesMessage(registry: seq<Account>, isUser: bool, form: RegisterForm)
    requires Valid(isUser, form)
    ensures RegisterRefused(registry, Payload(isUser, form)) <==>
            EmailTaken(registry, form.email) || (isUser && HandleTaken(registry, form.handle))
  {
  }

  class RegisterPageState {
    const auth: AuthState
    /** `accountType === 'user'`. */
    var isUser: bool
    var form: RegisterForm
    var error: string
    var isLoading: bool
    /** Whether `navigate('/')` has been called. */
    var navigatedHome: bool

    constructor (auth: AuthState)
      ensures this.auth == auth && isUser
      ensures form == RegisterForm("", "", "", "", "", "", "", "", "", "", "", "", "", "")
      ensures error == "" && !isLoading && !navigatedHome
    {
      this.auth := auth;
      isUser := true;
      form := RegisterForm("", "", "", "", "", "", "", "", "", "", "", "", "", "");
      error, isLoading, navigatedHome := "", false, false;
    }

    /** The account-type buttons: the inputs keep what was typed. */
    method SetAccountType(user: bool)
      modifies this
      ensures isUser == user
      ensures form == old(form) && error == old(error) && isLoading == old(isLoading) && navigatedHome == old(navigatedHome)
    {
      isUser := user;
    }

    /** `handleChange`: stores the input's text and clears the error. */
    method HandleChange(f: FormField, value: string)
      modifies this
      ensures form == WithField(old(form), f, value) && error == ""
      ensures isUser == old(isUser) && isLoading == old(isLoading) && navigatedHome == old(navigatedHome)
    {
      form := WithField(form, f, value);
      error := "";
    }

    /**
     * `handleSubmit`, with `now` standing for the clock `register` reads. Returns how the
     * awaited `register` call settled, or `None` when the form was refused before it. A rejected
     * `register` rejects the handler, which has no `catch`: `isLoading` stays set.
     */
    method HandleSubmit(now: nat) returns (registered: Option<Settled>)
      modifies this, auth
      ensures form == old(form) && isUser == old(isUser)
      ensures auth.isLoading == old(auth.isLoading)
      ensures registered.None? <==> ValidationError(isUser, form).Some?
      ensures ValidationError(isUser, form).Some? ==>
                error == ValidationError(isUser, form).value
                && isLoading == old(isLoading) && navigatedHome == old(navigatedHome)
                && auth.registry == old(auth.registry) && auth.user == old(auth.user)
                && auth.savedUser == old(auth.savedUser)
      ensures ValidationError(isUser, form).None? && auth.registryCorrupt ==>
                registered == Some(auth.ParseFailure()) && isLoading && error == "" && navigatedHome == old(navigatedHome)
                && auth.registry == old(auth.registry) && auth.user == old(auth.user)
                && auth.savedUser == old(auth.savedUser)
      ensures ValidationError(isUser, form).None? && !auth.registryCorrupt ==>
                registered.Some? && registered.value.Fulfilled? && !isLoading
                && (registered.value.success <==> !RegisterRefused(old(auth.registry), Payload(isUser, form)))
      ensures registered == Some(Fulfilled(true)) ==>
                error == "" && navigatedHome
                && auth.registry == old(auth.registry) + [NewAccount(Payload(isUser, form), now).(password := Some(form.password))]
                && auth.user == Some(NewAccount(Payload(isUser, form), now)) && auth.savedUser == auth.user
      ensures registered == Some(Fulfilled(false)) ==>
                error == RefusedMessage(isUser) && navigatedHome == old(navigatedHome)
                && auth.registry == old(auth.registry) && auth.user == old(auth.user)
                && auth.savedUser == old(auth.savedUser)
    {
      error := "";
      var problem := ValidationError(isUser, form);
      if problem.Some? {
        error := problem.value;
        return None;
      }
      isLoading := true;
      var success := auth.Register(Payload(isUser, form), now);
      if success.Rejected? {
        return Some(success);
      }
      isLoading := false;
      if success.success {
        navigatedHome := true;
      } else {
        error := RefusedMessage(isUser);
      }
      return Some(success);
    }
  }
}
