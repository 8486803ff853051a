/**
 * The sign-in / sign-up form hook (`app/hooks/auth/useAuthForm.ts`): the four
 * fields, the per-field messages, and the submit step. The session calls it
 * makes (`login`, `register`) are given as their boolean results.
 */
module AuthForm {
  import opened Common
  import opened AuthRules

  datatype Field = Email | Password | ConfirmPassword | Alias

  datatype FormData = FormData(email: string, password: string, confirmPassword: string, alias: string)

  const EmptyForm := FormData("", "", "", "")

  const ConfirmRequired := "Confirmation requise"
  const PasswordMismatch := "Les mots de passe ne correspondent pas"
  const RegisterError := "Erreur lors de l'inscription"

  function Get(d: FormData, f: Field): string {
    match f
    case Email => d.email
    case Password => d.password
    case ConfirmPassword => d.confirmPassword
    case Alias => d.alias
  }

  /** `{ ...prev, [field]: value }`: only the named field changes. */
  function Set(d: FormData, f: Field, v: string): (r: FormData)
    ensures Get(r, f) == v
    ensures forall g :: g != f ==> Get(r, g) == Get(d, g)
  {
    match f
    case Email => d.(email := v)
    case Password => d.(password := v)
    case ConfirmPassword => d.(confirmPassword := v)
    case Alias => d.(alias := v)
  }

  /**
   * The message `validateField` computes for one field. Email and password
   * follow the shared validators; the confirmation and the alias are checked
   * only in sign-up mode, the confirmation against the current password.
   */
  function FieldError(isLogin: bool, password: string, f: Field, value: string): (e: string)
    ensures f == Email ==> e == ValidateEmail(value)
    ensures f == Password ==> e == ValidatePassword(value)
    ensures f == ConfirmPassword ==> (e == "" <==> isLogin || (value != "" && value == password))
    ensures f == ConfirmPassword && !isLogin && value == "" ==> e == ConfirmRequired
    ensures f == Alias && isLogin ==> e == ""
    ensures f == Alias && !isLogin ==> e == ValidateAlias(value)
  {
    match f
    case Email =>
      if value == "" then EmailRequired
      else if !MatchesEmailPattern(value) then EmailInvalid
      else ""
    case Password =>
      if value == "" then PasswordRequired
      else if JsLength(value) < 6 then PasswordTooShort
      else ""
    case ConfirmPassword =>
      if isLogin then ""
      else if value == "" then ConfirmRequired
      else if value != password then PasswordMismatch
      else ""
    case Alias =>
      if isLogin then ""
      else if value == "" then AliasRequired
      else if JsLength(value) < 3 then AliasTooShort
      else if !AllWordChars(value) then AliasCharset
      else ""
  }

  /** The fields `handleSubmit` checks: two when signing in, four when signing up. */
  function FieldsToValidate(isLogin: bool): (fs: seq<Field>)
    ensures isLogin ==> fs == [Email, Password]
    ensures !isLogin ==> fs == [Email, Password, ConfirmPassword, Alias]
  {
    if isLogin then [Email, Password] else [Email, Password, ConfirmPassword, Alias]
  }

  predicate AllValid(isLogin: bool, d: FormData) {
    var fs := FieldsToValidate(isLogin);
    forall i :: 0 <= i < |fs| ==> FieldError(isLogin, d.password, fs[i], Get(d, fs[i])) == ""
  }

  /** What a submit lets through, stated with the shared validators. */
  lemma SubmitAcceptance(isLogin: bool, d: FormData)
    ensures isLogin ==> (AllValid(isLogin, d) <==> EmailShape(d.email) && JsLength(d.password) >= 6)
    ensures !isLogin ==> (AllValid(isLogin, d) <==>
              EmailShape(d.email) && JsLength(d.password) >= 6 && d.confirmPassword == d.password
              && JsLength(d.alias) >= 3 && AllWordChars(d.alias))
  {
    var fs := FieldsToValidate(isLogin);
    if AllValid(isLogin, d) {
      assert FieldError(isLogin, d.password, fs[0], Get(d, fs[0])) == "";
      assert FieldError(isLogin, d.password, fs[1], Get(d, fs[1])) == "";
      if !isLogin {
        assert FieldError(isLogin, d.password, fs[2], Get(d, fs[2])) == "";
        assert FieldError(isLogin, d.password, fs[3], Get(d, fs[3])) == "";
      }
    }
  }

  /** What the user sees after a submit. */
  datatype Outcome =
    | CorrectTheForm     // "Veuillez corriger les erreurs dans le formulaire"
    | SignedIn           // navigation to the profile screen
    | LoginRefused       // "Email ou mot de passe incorrect"
    | RegisterSucceeded  // the success alert
    | RegisterFailed(message: Json)

  /**
   * The sign-up branch of `handleSubmit` as written: it reads `success` and
   * `message` from what the session's `register` resolved to.
   */
  function RegisterFeedbackAsWritten(result: Json): (o: Outcome)
    requires !result.Null?
    ensures o == RegisterSucceeded <==> Has(result, "success")
  {
    if Present(Prop(result, "success")) then RegisterSucceeded
    else RegisterFailed(Or(Prop(result, "message"), Str(RegisterError)))
  }

  predicate Has(v: Json, k: string)
    requires !v.Null?
  {
    Present(Prop(v, k))
  }

  /**
   * The session's `register` resolves to a boolean, which has no `success`
   * property: a sign-up the server accepted is reported as a failure.
   */
  lemma RegisterSuccessReportedAsFailure(registered: bool)
    ensures RegisterFeedbackAsWritten(Bool(registered)) == RegisterFailed(Str(RegisterError))
    ensures RegisterFeedbackAsWritten(Bool(registered)) != RegisterFeedback(registered) <==> registered
  {
  }

  /** The feedback the success alert was written for: it follows the session's answer. */
  function RegisterFeedback(registered: bool): (o: Outcome)
    ensures o == RegisterSucceeded <==> registered
    ensures !registered ==> o == RegisterFailed(Str(RegisterError))
  {
    if registered then RegisterSucceeded else RegisterFailed(Str(RegisterError))
  }

  /** The state of the hook. */
  class AuthFormState {
    var isLogin: bool
    var formData: FormData
    var loading: bool
    var errors: map<Field, string>

    constructor ()
      ensures isLogin && formData == EmptyForm && !loading && errors == map[]
    {
      isLogin := true;
      formData := EmptyForm;
      loading := false;
      errors := map[];
    }

    method SetIsLogin(b: bool)
      modifies this
      ensures isLogin == b && formData == old(formData) && errors == old(errors) && loading == old(loading)
    {
      isLogin := b;
    }

    /** `validateField`: stores the field's message, and only that one; true iff it is "". */
    method ValidateField(f: Field, value: string) returns (ok: bool)
      modifies this
      ensures errors == old(errors)[f := FieldError(isLogin, formData.password, f, value)]
      ensures ok <==> errors[f] == ""
      ensures isLogin == old(isLogin) && formData == old(formData) && loading == old(loading)
    {
      var e := FieldError(isLogin, formData.password, f, value);
      errors := errors[f := e];
      ok := e == "";
    }

    /**
     * `updateFormData`: sets the field, then validates the new value against
     * the password of the state the call started from.
     */
    method UpdateFormData(f: Field, value: string)
      modifies this
      ensures formData == Set(old(formData), f, value)
      ensures errors == old(errors)[f := FieldError(isLogin, old(formData).password, f, value)]
      ensures isLogin == old(isLogin) && loading == old(loading)
    {
      var password := formData.password;
      formData := Set(formData, f, value);
      errors := errors[f := FieldError(isLogin, password, f, value)];
    }

    /** `resetForm`: every field empty and no message. */
    method ResetForm()
      modifies this
      ensures formData == EmptyForm && errors == map[]
      ensures isLogin == old(isLogin) && loading == old(loading)
    {
      formData := EmptyForm;
      errors := map[];
    }

    /**
     * The loop of `handleSubmit`: validates each field in turn, storing its
     * message; the result says whether any of them failed.
     */
    method ValidateFields(fields: seq<Field>) returns (hasErrors: bool)
      modifies this
      ensures hasErrors <==> exists j :: 0 <= j < |fields| && FieldError(isLogin, formData.password, fields[j], Get(formData, fields[j])) != ""
      ensures forall j :: 0 <= j < |fields| ==>
                fields[j] in errors && errors[fields[j]] == FieldError(isLogin, formData.password, fields[j], Get(formData, fields[j]))
      ensures forall f :: f !in fields ==>
                (f in errors <==> f in old(errors)) && (f in errors ==> errors[f] == old(errors)[f])
      ensures isLogin == old(isLogin) && formData == old(formData) && loading == old(loading)
    {
      hasErrors := false;
      ghost var seen: set<Field> := {};
      var i := 0;
      while i < |fields|
        invariant 0 <= i <= |fields|
        invariant isLogin == old(isLogin) && formData == old(formData) && loading == old(loading)
        invariant hasErrors <==> exists j :: 0 <= j < i && FieldError(isLogin, formData.password, fields[j], Get(formData, fields[j])) != ""
        invariant forall j :: 0 <= j < i ==>
                    fields[j] in errors && errors[fields[j]] == FieldError(isLogin, formData.password, fields[j], Get(formData, fields[j]))
        invariant forall f :: f in seen ==> f in fields
        invariant forall f :: f !in seen ==>
                    (f in errors <==> f in old(errors)) && (f in errors ==> errors[f] == old(errors)[f])
      {
        var ok := ValidateField(fields[i], Get(formData, fields[i]));
        if !ok {
          hasErrors := true;
        }
        seen := seen + {fields[i]};
        i := i + 1;
      }
    }

    /**
     * `handleSubmit`: validates the fields of the current mode one by one; if
     * any fails nothing is sent and loading is not touched. Otherwise the
     * session call is made (its result is `loginOk` or `registerOk`) and
     * loading ends false. The sign-up feedback is the one written in the
     * source, which reads `success` from the session's boolean and so always
     * reports a failure.
     */
    method HandleSubmit(loginOk: bool, registerOk: bool) returns (called: bool, outcome: Outcome)
      modifies this
      ensures called <==> AllValid(isLogin, formData)
      ensures forall f :: f in FieldsToValidate(isLogin) ==>
                f in errors && errors[f] == FieldError(isLogin, formData.password, f, Get(formData, f))
      ensures forall f :: f !in FieldsToValidate(isLogin) ==>
                (f in errors <==> f in old(errors)) && (f in errors ==> errors[f] == old(errors)[f])
      ensures !called ==> outcome == CorrectTheForm && loading == old(loading)
      ensures called ==> !loading
      ensures called && isLogin ==> outcome == (if loginOk then SignedIn else LoginRefused)
      ensures called && !isLogin ==> outcome == RegisterFeedbackAsWritten(Bool(registerOk))
      ensures called && !isLogin ==> outcome == RegisterFailed(Str(RegisterError))
      ensures isLogin == old(isLogin) && formData == old(formData)
    {
      var hasErrors := ValidateFields(FieldsToValidate(isLogin));
      if hasErrors {
        called := false;
        outcome := CorrectTheForm;
        return;
      }
      called := true;
      loading := true;
      if isLogin {
        outcome := if loginOk then SignedIn else LoginRefused;
      } else {
        outcome := RegisterFeedbackAsWritten(Bool(registerOk));
        RegisterSuccessReportedAsFailure(registerOk);
      }
      loading := false;
    }

    /** "Se connecter" in the success alert: back to sign-in mode with an empty form. */
    method ConfirmRegistration()
      modifies this
      ensures isLogin && formData == EmptyForm && errors == map[] && loading == old(loading)
    {
      SetIsLogin(true);
      ResetForm();
    }
  }
}
