/** The view dispatch of components/auth/OnboardingFlow.tsx: which view each
    machine state renders, which actions a view offers, the Formik schema and
    initial values of the information form, and how an offered action drives
    the machine of hooks/useOnboarding.ts. */
module OnboardingFlow {

  import opened Wrappers
  import opened AuthTypes
  import opened OnboardingTypes
  import opened Onboarding
  import opened Schemas

  /** The `initialState` prop is applied only while the machine is INITIAL. */
  function ApplyInitialState(m: Machine, initial: Option<OnboardingState>): (r: Machine)
    ensures r.formData == m.formData && r.errors == m.errors
    ensures m.state != Initial ==> r == m
    ensures m.state == Initial ==> r.state == initial.GetOr(Initial)
  {
    if initial.Some? && m.state == Initial then SetState(m, initial.value) else m
  }

  /** The effect re-runs whenever the state changes; a second run finds
      nothing left to do. */
  lemma ApplyInitialStateIdempotent(m: Machine, initial: Option<OnboardingState>)
    ensures ApplyInitialState(ApplyInitialState(m, initial), initial) == ApplyInitialState(m, initial)
  {
  }

  /** What the component renders. */
  datatype View =
    | Nothing
    | PathChooser
    | InvitationForm(initialCode: string)
    | BusinessConfirmation(business: Business)
    | UserTypeChooser
    | InfoForm(isBusiness: bool, schema: seq<Rule>, initialValues: Values)
    | SuccessNotice
    | ErrorNotice

  /** The user's interactions with a view. Form submissions carry the
      values Formik holds at that moment. */
  datatype Action =
    | ChoosePath(path: OnboardingPath)
    | SubmitCode(values: Values)
    | Confirm(confirmed: bool)
    | ChooseUserType(userType: UserType)
    | SubmitInfo(values: Values)

  /** The form keys of the information form, in the source's order. */
  const BusinessFormKeys: seq<FormKey> := [
    FirstNameKey, LastNameKey, EmailKey, PhoneNumberKey,
    BusinessNameKey, BusinessTypeKey, BusinessCategoryKey, BusinessEmailKey,
    BusinessPhoneKey, RegistrationNumberKey, AddressKey, CityKey, StateKey]
  const IndividualFormKeys: seq<FormKey> := [
    FirstNameKey, LastNameKey, EmailKey, PhoneNumberKey, BvnKey, TinKey]

  function FormKeys(isBusiness: bool): seq<FormKey> {
    if isBusiness then BusinessFormKeys else IndividualFormKeys
  }

  /** `field || ''` for a text field of the form. */
  function OrEmpty(v: Value): string {
    if v.Text? && v.text.Some? then v.text.value else ""
  }

  /** The Formik schema of the information form. */
  function SchemaFor(t: UserType): (r: seq<Rule>)
    ensures r == BusinessSchema <==> t == BusinessOwner
    ensures r == IndividualSchema <==> t != BusinessOwner
  {
    assert BusinessSchema != IndividualSchema by { assert |BusinessSchema| != |IndividualSchema|; }
    if t == BusinessOwner then BusinessSchema else IndividualSchema
  }

  /** The object `{ key: formData.key || '', ... }` over `keys`. */
  function ValuesOf(fd: FormData, keys: seq<FormKey>): (r: Values)
    ensures r.Keys == set k | k in keys :: KeyName(k)
    ensures forall k :: k in keys ==> r[KeyName(k)] == OrEmpty(Get(fd, k))
  {
    if |keys| == 0 then map[]
    else
      var last := keys[|keys| - 1];
      var init := ValuesOf(fd, keys[..|keys| - 1]);
      assert forall k :: k in keys ==> k == last || k in keys[..|keys| - 1];
      assert forall k :: KeyName(k) == KeyName(last) ==> k == last by {
        forall k { KeyNameInjective(k, last); }
      }
      init[KeyName(last) := OrEmpty(Get(fd, last))]
  }

  /** The initial values of the information form. */
  function InitialValues(fd: FormData, isBusiness: bool): (r: Values)
    ensures r.Keys == set k | k in FormKeys(isBusiness) :: KeyName(k)
    ensures forall k :: k in FormKeys(isBusiness) ==> r[KeyName(k)] == OrEmpty(Get(fd, k))
  {
    ValuesOf(fd, FormKeys(isBusiness))
  }
  /** The information form's fields are exactly the fields its schema
      validates. */
  lemma InitialValuesMatchSchema(fd: FormData, t: UserType)
    ensures InitialValues(fd, t == BusinessOwner).Keys == set r | r in SchemaFor(t) :: r.field
  {
    if t == BusinessOwner {
      BusinessKeysMatchSchema();
    } else {
      IndividualKeysMatchSchema();
    }
  }

  lemma BusinessKeysMatchSchema()
    ensures (set k | k in BusinessFormKeys :: KeyName(k)) == set r | r in BusinessSchema :: r.field
  {
    assert forall i :: 0 <= i < |BusinessFormKeys| ==> KeyName(BusinessFormKeys[i]) == BusinessSchema[i].field;
    NamesMatchFields(BusinessFormKeys, BusinessSchema);
  }

  lemma IndividualKeysMatchSchema()
    ensures (set k | k in IndividualFormKeys :: KeyName(k)) == set r | r in IndividualSchema :: r.field
  {
    assert forall i :: 0 <= i < |IndividualFormKeys| ==> KeyName(IndividualFormKeys[i]) == IndividualSchema[i].field;
    NamesMatchFields(IndividualFormKeys, IndividualSchema);
  }

  /** Keys named pointwise by a schema's fields name the same set. */
  lemma NamesMatchFields(keys: seq<FormKey>, schema: seq<Rule>)
    requires |keys| == |schema|
    requires forall i :: 0 <= i < |keys| ==> KeyName(keys[i]) == schema[i].field
    ensures (set k | k in keys :: KeyName(k)) == set r | r in schema :: r.field
  {
    var names, fields := set k | k in keys :: KeyName(k), set r | r in schema :: r.field;
    forall f | f in names
      ensures f in fields
    {
      var k :| k in keys && KeyName(k) == f;
      var i :| 0 <= i < |keys| && keys[i] == k;
      assert schema[i] in schema;
    }
    forall f | f in fields
      ensures f in names
    {
      var r :| r in schema && r.field == f;
      var i :| 0 <= i < |schema| && schema[i] == r;
      assert keys[i] in keys;
    }
  }

  /** The business form and the individual form share exactly the four
      personal fields. */
  lemma FormKeysOverlap()
    ensures (set k | k in BusinessFormKeys) * (set k | k in IndividualFormKeys)
         == {FirstNameKey, LastNameKey, EmailKey, PhoneNumberKey}
  {
  }

  /** The view for a machine. */
  function Render(m: Machine): (v: View)
    ensures v == Nothing <==>
      || m.state == Initial || m.state == CreatingAccount
      || (m.state == ConfirmingBusiness && m.formData.verifiedBusiness.None?)
      || (m.state == CollectingInfo && m.formData.userType.None?)
    ensures v.BusinessConfirmation? ==> Some(v.business) == m.formData.verifiedBusiness
    ensures v.InfoForm? ==>
      && m.formData.userType.Some?
      && v.isBusiness == (m.formData.userType.value == BusinessOwner)
      && v.schema == SchemaFor(m.formData.userType.value)
  {
    match m.state
    case Initial => Nothing
    case AccountRequired => PathChooser
    case AskingPath => PathChooser
    case VerifyingBusiness => InvitationForm(m.formData.invitationCode.GetOr(""))
    case ConfirmingBusiness =>
      if m.formData.verifiedBusiness.Some? then BusinessConfirmation(m.formData.verifiedBusiness.value)
      else Nothing
    case AskingUserType => UserTypeChooser
    case CollectingInfo =>
      if m.formData.userType.Some? then
        var isBusiness := m.formData.userType.value == BusinessOwner;
        InfoForm(isBusiness, SchemaFor(m.formData.userType.value), InitialValues(m.formData, isBusiness))
      else Nothing
    case CreatingAccount => Nothing
    case Success => SuccessNotice
    case Error => ErrorNotice
  }

  /** The actions a view's controls can trigger. */
  predicate Offers(v: View, a: Action) {
    match v
    case PathChooser => a.ChoosePath? && a.path != NullPath
    case InvitationForm(_) => a.SubmitCode?
    case BusinessConfirmation(_) => a.Confirm?
    case UserTypeChooser => a.ChooseUserType?
    case InfoForm(_, _, _) => a.SubmitInfo?
    case _ => false
  }

  /** One user interaction. An action the current view does not offer does
      nothing; a form submission whose prepared values the schema rejects
      does nothing; the request outcomes are parameters. */
  function Dispatch(m: Machine, a: Action, isEmail: string -> bool,
                    verified: Result<VerificationResponse>, created: Result<AuthResponse>): (r: Machine)
    ensures !Offers(Render(m), a) ==> r == m
    ensures a.SubmitInfo? && Offers(Render(m), a) &&
            Valid(SchemaFor(m.formData.userType.value), Prepared(a.values), isEmail) ==>
      r == SubmitForm(m, created)
    ensures a.SubmitInfo? && Offers(Render(m), a) &&
            !Valid(SchemaFor(m.formData.userType.value), Prepared(a.values), isEmail) ==>
      r == m
    ensures a.SubmitCode? && Offers(Render(m), a) &&
            !Valid(InvitationCodeSchema, Prepared(a.values), isEmail) ==>
      r == m
    ensures a.SubmitCode? && Offers(Render(m), a) &&
            Valid(InvitationCodeSchema, Prepared(a.values), isEmail) ==>
      "invitationCode" in a.values && r == VerifyInvitation(m, a.values["invitationCode"], verified)
    ensures a.ChoosePath? && Offers(Render(m), a) ==> r == SelectPath(m, a.path)
    ensures a.Confirm? && Offers(Render(m), a) ==> r == ConfirmBusiness(m, a.confirmed)
    ensures a.ChooseUserType? && Offers(Render(m), a) ==> r == SelectUserType(m, a.userType)
  {
    if !Offers(Render(m), a) then m
    else match a
      case ChoosePath(p) => SelectPath(m, p)
      case SubmitCode(values) =>
        assert Valid(InvitationCodeSchema, Prepared(values), isEmail) ==>
          RuleHolds(InvitationCodeSchema[0], Prepared(values), isEmail);
        if Valid(InvitationCodeSchema, Prepared(values), isEmail) && "invitationCode" in values
        then VerifyInvitation(m, values["invitationCode"], verified)
        else m
      case Confirm(c) => ConfirmBusiness(m, c)
      case ChooseUserType(t) => SelectUserType(m, t)
      case SubmitInfo(values) =>
        if Valid(SchemaFor(m.formData.userType.value), Prepared(values), isEmail) then SubmitForm(m, created)
        else m
  }

  /** The path chooser never selects the `null` path. */
  lemma PathChooserOffersTwoPaths(m: Machine, a: Action)
    requires m.state == AccountRequired || m.state == AskingPath
    ensures Offers(Render(m), a) <==> a == ChoosePath(Invitation) || a == ChoosePath(NewAccount)
  {
  }

  /** SUCCESS and ERROR offer no action, so no interaction leaves them. */
  lemma TerminalViewsAreInert(m: Machine, a: Action, isEmail: string -> bool,
                              verified: Result<VerificationResponse>, created: Result<AuthResponse>)
    requires m.state == Success || m.state == Error
    ensures forall a' :: !Offers(Render(m), a')
    ensures Dispatch(m, a, isEmail, verified, created) == m
  {
  }

  /** Submitting the information form passes the Formik values to
      `submitForm`, which does not read them: two accepted submissions with
      different values have the same effect. */
  lemma SubmitIgnoresFormValues(m: Machine, v1: Values, v2: Values, isEmail: string -> bool,
                                verified: Result<VerificationResponse>, created: Result<AuthResponse>)
    requires Offers(Render(m), SubmitInfo(v1))
    requires Valid(SchemaFor(m.formData.userType.value), Prepared(v1), isEmail)
    requires Valid(SchemaFor(m.formData.userType.value), Prepared(v2), isEmail)
    ensures Dispatch(m, SubmitInfo(v1), isEmail, verified, created)
         == Dispatch(m, SubmitInfo(v2), isEmail, verified, created)
  {
  }

  /** Hence the new-account path sends no personal details: an individual
      who chose the path and the user type and then submitted the form with
      values the schema accepts is submitted with a payload that lacks the
      first name, last name and email its type requires. */
  lemma NewAccountPayloadLacksFormValues(values: Values, isEmail: string -> bool,
                                         verified: Result<VerificationResponse>,
                                         created: Result<AuthResponse>)
    requires Valid(IndividualSchema, Prepared(values), isEmail)
    ensures var m := Dispatch(Dispatch(StartOnboarding(Start), ChoosePath(NewAccount), isEmail, verified, Err("")),
                              ChooseUserType(Individual), isEmail, verified, Err(""));
      && Render(m).InfoForm?
      && Dispatch(m, SubmitInfo(values), isEmail, verified, created) == SubmitForm(m, created)
      && BeginSubmit(m).request.Some?
      && BeginSubmit(m).request.value.firstName.None?
      && !Conforms(BeginSubmit(m).request.value)
  {
  }

  /** An individual who leaves the optional phone number, BVN and TIN at
      their initial `''` can submit: the schema rejects the raw values, but
      Formik hands it the prepared ones, where the empty fields are missing. */
  lemma BlankOptionalFieldsSubmit(m: Machine, isEmail: string -> bool,
                                  verified: Result<VerificationResponse>, created: Result<AuthResponse>)
    requires m.state == CollectingInfo && m.formData.userType == Some(Individual)
    requires isEmail("ada@tax.ng")
    ensures var values := BlankOptionalExample;
      && !Valid(IndividualSchema, values, isEmail)
      && Dispatch(m, SubmitInfo(values), isEmail, verified, created) == SubmitForm(m, created)
  {
    BlankOptionalExampleValid(BlankOptionalExample, isEmail);
    IndividualSubmitAccepted(m, BlankOptionalExample, isEmail, verified, created);
  }

  lemma IndividualSubmitAccepted(m: Machine, values: Values, isEmail: string -> bool,
                                 verified: Result<VerificationResponse>, created: Result<AuthResponse>)
    requires m.state == CollectingInfo && m.formData.userType == Some(Individual)
    requires Valid(IndividualSchema, Prepared(values), isEmail)
    ensures Dispatch(m, SubmitInfo(values), isEmail, verified, created) == SubmitForm(m, created)
  {
    assert Render(m).InfoForm?;
  }

  /** The individual form as first shown, with the required fields filled. */
  const BlankOptionalExample: Values :=
    map["firstName" := "Ada", "lastName" := "Obi", "email" := "ada@tax.ng",
        "phoneNumber" := "", "bvn" := "", "tin" := ""]

  lemma BlankOptionalExampleValid(values: Values, isEmail: string -> bool)
    requires values == BlankOptionalExample
    requires isEmail("ada@tax.ng")
    ensures !Valid(IndividualSchema, values, isEmail)
    ensures Valid(IndividualSchema, Prepared(values), isEmail)
  {
    assert !RuleHolds(IndividualSchema[3], values, isEmail) by {
      assert values["phoneNumber"] == "";
    }
    var p := Prepared(values);
    assert p["firstName"] == "Ada" && p["lastName"] == "Obi" && p["email"] == "ada@tax.ng";
    assert "phoneNumber" !in p && "bvn" !in p && "tin" !in p;
    assert PersonName(p, "firstName") && PersonName(p, "lastName");
    IndividualSchemaMeaning(p, isEmail);
  }
}
