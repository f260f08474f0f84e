/** The registration screen (src/components/RegisterPage.tsx): editing the
    form, the every-field-required check and the call to `registerUser`. */
module RegisterPage {
  import opened Wrappers
  import opened Text
  import opened Api

  const RegisterFallback := "Wystąpił błąd. Sprawdź czy login nie jest zajęty."
  const LoginPath := "/login"
  const AccountCreated := "Konto utworzone! Zaloguj się."

  /** The keys of `RegisterFormData`. */
  datatype Field = Login | Email | Password | Name | Surname | Phone | Street | HouseNr | ZipCode | CityName

  /** `Object.keys(formData)`: the keys in the order the initial state lists them. */
  const FormKeys: seq<Field> := [Login, Email, Password, Name, Surname, Phone, Street, HouseNr, ZipCode, CityName]

  /** Every field is one of the form's keys, and each is listed once. */
  lemma FormKeysComplete(f: Field)
    ensures f in FormKeys
    ensures forall i, j :: 0 <= i < j < |FormKeys| ==> FormKeys[i] != FormKeys[j]
  {
  }

  /** `formData[field]`. */
  function FieldValue(d: RegisterFormData, f: Field): string {
    match f
    case Login => d.login
    case Email => d.email
    case Password => d.password
    case Name => d.name
    case Surname => d.surname
    case Phone => d.phone
    case Street => d.street
    case HouseNr => d.houseNr
    case ZipCode => d.zipCode
    case CityName => d.cityName
  }

  /** `{ ...prev, [field]: value }`. */
  function WithField(d: RegisterFormData, f: Field, v: string): (r: RegisterFormData)
    ensures FieldValue(r, f) == v
    ensures forall g :: g != f ==> FieldValue(r, g) == FieldValue(d, g)
  {
    match f
    case Login => d.(login := v)
    case Email => d.(email := v)
    case Password => d.(password := v)
    case Name => d.(name := v)
    case Surname => d.(surname := v)
    case Phone => d.(phone := v)
    case Street => d.(street := v)
    case HouseNr => d.(houseNr := v)
    case ZipCode => d.(zipCode := v)
    case CityName => d.(cityName := v)
  }

  /** Writing back a field's own value changes nothing. */
  lemma WithFieldOwnValue(d: RegisterFormData, f: Field)
    ensures WithField(d, f, FieldValue(d, f)) == d
  {
  }

  /** The keys of the form that are empty. */
  function EmptyFields(d: RegisterFormData): (r: set<Field>)
    ensures forall f :: f in r <==> FieldValue(d, f) == ""
  {
    forall f ensures f in FormKeys {
      FormKeysComplete(f);
    }
    set f | f in FormKeys && FieldValue(d, f) == ""
  }

  /** The validation loop of `handleSubmit`: `newErrors` gets the key `true`
      for every empty field, and no other key. */
  method CollectErrors(d: RegisterFormData) returns (newErrors: map<Field, bool>)
    ensures newErrors.Keys == EmptyFields(d)
    ensures forall f <- newErrors.Keys :: newErrors[f]
  {
    newErrors := map[];
    var i := 0;
    while i < |FormKeys|
      invariant 0 <= i <= |FormKeys|
      invariant forall f :: f in newErrors.Keys <==> f in FormKeys[..i] && FieldValue(d, f) == ""
      invariant forall f <- newErrors.Keys :: newErrors[f]
    {
      var key := FormKeys[i];
      assert FormKeys[..i + 1] == FormKeys[..i] + [key];
      if FieldValue(d, key) == "" {
        newErrors := newErrors[key := true];
      }
      i := i + 1;
    }
    assert FormKeys[..i] == FormKeys;
  }

  /** A form passes the check exactly when no field is empty. */
  lemma NoErrorsIffComplete(d: RegisterFormData)
    ensures EmptyFields(d) == {} <==> forall f :: FieldValue(d, f) != ""
  {
    if EmptyFields(d) != {} {
      var f :| f in EmptyFields(d);
      assert FieldValue(d, f) == "";
    }
  }

  /** A form that passed the check reaches /register with every text the
      user typed, except that a postal code of hyphens alone is sent empty. */
  lemma CheckedPayload(d: RegisterFormData)
    requires EmptyFields(d) == {}
    ensures var r := RegisterPayload(d);
            r.login != "" && r.password != "" && r.email != "" && r.name != "" && r.surname != ""
            && r.phone != "" && r.street != "" && r.houseNr != "" && r.city.cityName != ""
            && (r.city.zipCode == "" <==> forall i | 0 <= i < |d.zipCode| :: d.zipCode[i] == '-')
  {
    var r := RegisterPayload(d);
    NoErrorsIffComplete(d);
    assert r.login == FieldValue(d, Login) && r.password == FieldValue(d, Password);
    assert r.email == FieldValue(d, Email) && r.name == FieldValue(d, Name);
    assert r.surname == FieldValue(d, Surname) && r.phone == FieldValue(d, Phone);
    assert r.street == FieldValue(d, Street) && r.houseNr == FieldValue(d, HouseNr);
    assert r.city.cityName == FieldValue(d, CityName);
    RemoveCharEmpty(d.zipCode, '-');
  }

  // ======================================================= the email input

  predicate IsAsciiLetterOrDigit(c: char) {
    IsDigit(c) || 'a' <= c <= 'z' || 'A' <= c <= 'Z'
  }

  /** The `atext` characters of the local part. */
  predicate IsAtext(c: char) {
    IsAsciiLetterOrDigit(c) || c in "!#$%&'*+-/=?^_`{|}~"
  }

  /** One label of the domain: 1 to 63 letters, digits and hyphens, with a
      letter or digit at both ends. */
  predicate ValidLabel(l: string) {
    1 <= |l| <= 63
    && (forall i | 0 <= i < |l| :: IsAsciiLetterOrDigit(l[i]) || l[i] == '-')
    && l[0] != '-' && l[|l| - 1] != '-'
  }

  /** A "valid e-mail address" in the sense of the HTML standard (the
      `type=email` input state): a non-empty local part of `atext` and dots,
      one `@`, and a domain of dot-separated labels. */
  predicate ValidEmail(v: string) {
    var parts := Split(v, '@');
    |parts| == 2 && parts[0] != []
    && (forall i | 0 <= i < |parts[0]| :: IsAtext(parts[0][i]) || parts[0][i] == '.')
    && (forall l <- Split(parts[1], '.') :: ValidLabel(l))
  }

  /** The browser's check of an `<input type="email">` without `required`: an
      empty value passes, any other value must be a valid address. */
  predicate EmailInputAccepted(v: string) {
    v == "" || ValidEmail(v)
  }

  /** A valid address is a non-empty local part, one `@`, and a non-empty
      domain that has no `@` of its own. */
  lemma ValidEmailShape(v: string)
    requires ValidEmail(v)
    ensures var parts := Split(v, '@');
            v == parts[0] + "@" + parts[1] && parts[0] != "" && parts[1] != "" && '@' !in parts[0] + parts[1]
  {
    var parts := Split(v, '@');
    SplitAtFirst(v, '@');
    SplitCount(v, '@');
    assert parts[1..] == [parts[1]];
    var labels := Split(parts[1], '.');
    assert labels[0] in labels;
  }

  /** The form that `registerUser` receives, and what it settles to. */
  class RegisterPageModel {
    var formData: RegisterFormData
    var errors: map<Field, bool>
    var apiError: Option<string>
    var isLoading: bool
    /** The forms passed to `registerUser`, oldest first. */
    var registerCalls: seq<RegisterFormData>
    /** `navigate` calls: the path and the message handed to the next page. */
    var navigations: seq<(string, string)>

    /** Only complete forms with a valid address are ever sent, and a running
        call was started. */
    predicate Valid()
      reads this
    {
      (forall d <- registerCalls :: EmptyFields(d) == {} && ValidEmail(d.email))
      && (isLoading ==> registerCalls != [])
    }

    /** Field `f` is drawn with the red border. */
    predicate HasError(f: Field)
      reads this
    {
      f in errors && errors[f]
    }

    constructor()
      ensures Valid()
      ensures formData == RegisterFormData("", "", "", "", "", "", "", "", "", "")
      ensures errors == map[] && apiError == None && !isLoading
      ensures registerCalls == [] && navigations == []
    {
      formData := RegisterFormData("", "", "", "", "", "", "", "", "", "");
      errors := map[];
      apiError := None;
      isLoading := false;
      registerCalls := [];
      navigations := [];
    }

    /** `handleChange`: the field takes the typed value, its red border goes,
        and the server error disappears. */
    method HandleChange(f: Field, value: string)
      requires Valid()
      modifies this
      ensures Valid()
      ensures formData == WithField(old(formData), f, value)
      ensures errors == if old(HasError(f)) then old(errors)[f := false] else old(errors)
      ensures !HasError(f) && apiError == None
      ensures isLoading == old(isLoading) && registerCalls == old(registerCalls)
      ensures navigations == old(navigations)
    {
      formData := WithField(formData, f, value);
      if HasError(f) {
        errors := errors[f := false];
      }
      if apiError.Some? {
        apiError := None;
      }
    }

    /** The submit button (or Enter) while it is enabled: the browser first
        checks the email input and, when it refuses the value, shows its own
        message and never calls `handleSubmit`; nothing changes then. */
    method PressSubmit() returns (refusedByBrowser: bool)
      requires Valid() && !isLoading
      modifies this
      ensures Valid()
      ensures refusedByBrowser <==> !EmailInputAccepted(old(formData.email))
      ensures refusedByBrowser ==>
                errors == old(errors) && isLoading == old(isLoading) && registerCalls == old(registerCalls)
      ensures !refusedByBrowser ==>
                errors.Keys == EmptyFields(formData)
                && (EmptyFields(formData) == {} ==> isLoading && registerCalls == old(registerCalls) + [formData])
                && (EmptyFields(formData) != {} ==> !isLoading && registerCalls == old(registerCalls))
      ensures formData == old(formData) && apiError == old(apiError) && navigations == old(navigations)
    {
      refusedByBrowser := !EmailInputAccepted(formData.email);
      if !refusedByBrowser {
        HandleSubmit();
      }
    }

    /** `handleSubmit` up to its `await`, reached once the browser accepted the
        email input: the red borders are exactly the empty fields; only a
        complete form starts the call. */
    method HandleSubmit()
      requires Valid() && !isLoading && EmailInputAccepted(formData.email)
      modifies this
      ensures Valid()
      ensures forall f :: HasError(f) <==> FieldValue(formData, f) == ""
      ensures errors.Keys == EmptyFields(formData)
      ensures EmptyFields(formData) == {} ==> isLoading && registerCalls == old(registerCalls) + [formData]
      ensures EmptyFields(formData) != {} ==> !isLoading && registerCalls == old(registerCalls)
      ensures formData == old(formData) && apiError == old(apiError) && navigations == old(navigations)
    {
      var newErrors := CollectErrors(formData);
      errors := newErrors;
      if |newErrors| == 0 {
        assert FieldValue(formData, Email) != "";
        isLoading := true;
        registerCalls := registerCalls + [formData];
      }
    }

    /** `handleSubmit` after `registerUser` settled: success goes to the login
        page with the account-created message; a failure shows the server's
        message or the fixed fallback. Loading ends either way. The button is
        disabled while loading, so one call is in flight at a time. */
    method ReceiveRegister(result: Outcome<()>)
      requires Valid() && isLoading
      modifies this
      ensures Valid()
      ensures !isLoading
      ensures result.Resolved? ==> navigations == old(navigations) + [(LoginPath, AccountCreated)]
                                   && apiError == old(apiError)
      ensures result.Rejected? ==> apiError == Some(Or(ServerMessage(result.error), RegisterFallback))
                                   && navigations == old(navigations)
      ensures formData == old(formData) && errors == old(errors) && registerCalls == old(registerCalls)
    {
      isLoading := false;
      match result
      case Resolved(_) =>
        navigations := navigations + [(LoginPath, AccountCreated)];
      case Rejected(e) =>
        apiError := Some(Or(ServerMessage(e), RegisterFallback));
    }
  }
}
