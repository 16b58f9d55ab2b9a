/** The onboarding state machine of hooks/useOnboarding.ts. Each transition
    is a pure function of the machine; the two awaited requests are split
    into a begin step and a complete step that takes the request's outcome,
    so that VERIFYING_BUSINESS and CREATING_ACCOUNT are observable. No
    transition has a guard on the current state. */
module Onboarding {

  import opened Wrappers
  import opened AuthTypes
  import opened OnboardingTypes

  /** The hook's three pieces of state. */
  datatype Machine = Machine(state: OnboardingState, formData: FormData, errors: Errors)

  /** The state the hook starts in. */
  const Start := Machine(Initial, EmptyForm, NoErrors)

  function Override<T>(entry: Option<Option<T>>, current: Option<T>): Option<T> {
    if entry.Some? then entry.value else current
  }

  /** `updateFormData(patch)`: `{...prev, ...patch}`. */
  function UpdateFormData(fd: FormData, p: FormPatch): (r: FormData)
    ensures forall k :: Get(r, k) == (if Entry(p, k).Some? then Entry(p, k).value else Get(fd, k))
  {
    FormData(
      Override(p.path, fd.path),
      Override(p.invitationCode, fd.invitationCode),
      Override(p.userType, fd.userType),
      Override(p.firstName, fd.firstName),
      Override(p.lastName, fd.lastName),
      Override(p.email, fd.email),
      Override(p.phoneNumber, fd.phoneNumber),
      Override(p.bvn, fd.bvn),
      Override(p.tin, fd.tin),
      Override(p.businessName, fd.businessName),
      Override(p.businessType, fd.businessType),
      Override(p.businessCategory, fd.businessCategory),
      Override(p.businessEmail, fd.businessEmail),
      Override(p.businessPhone, fd.businessPhone),
      Override(p.registrationNumber, fd.registrationNumber),
      Override(p.address, fd.address),
      Override(p.city, fd.city),
      Override(p.state, fd.state),
      Override(p.verifiedBusiness, fd.verifiedBusiness))
  }

  /** Merging the empty patch changes nothing, and merging a patch twice is
      the same as merging it once. */
  lemma UpdateFormDataLaws(fd: FormData, p: FormPatch)
    ensures UpdateFormData(fd, NoChange) == fd
    ensures UpdateFormData(UpdateFormData(fd, p), p) == UpdateFormData(fd, p)
  {
    var once := UpdateFormData(fd, p);
    var twice := UpdateFormData(once, p);
    assert forall k :: Entry(NoChange, k).None?;
    FormExtensionality(UpdateFormData(fd, NoChange), fd);
    FormExtensionality(twice, once);
  }

  /** The keys two forms differ on are among `keys`. */
  predicate SameExcept(a: FormData, b: FormData, keys: set<FormKey>) {
    forall k :: k !in keys ==> Get(a, k) == Get(b, k)
  }

  /** The hook's exposed `setState`. */
  function SetState(m: Machine, s: OnboardingState): (r: Machine)
    ensures r.state == s && r.formData == m.formData && r.errors == m.errors
  {
    m.(state := s)
  }

  /** A key holding `undefined`. */
  predicate Unset(v: Value) {
    match v
    case Text(t) => t.None?
    case PathValue(p) => p.None?
    case UserTypeValue(t) => t.None?
    case BusinessValue(b) => b.None?
  }

  /** `reset`: back to INITIAL with every field of the form undefined and
      no errors, whatever the machine held. */
  function Reset(m: Machine): (r: Machine)
    ensures r.state == Initial && r.errors == NoErrors
    ensures forall k :: Unset(Get(r.formData, k))
    ensures r == Start
  {
    Machine(Initial, EmptyForm, NoErrors)
  }

  /** `startOnboarding`: only the state moves. */
  function StartOnboarding(m: Machine): (r: Machine)
    ensures r.state == AccountRequired && r.formData == m.formData && r.errors == m.errors
  {
    SetState(m, AccountRequired)
  }

  /** `selectPath(path)`: the path is always stored; the state moves for the
      two named paths and stays for `null`. */
  function SelectPath(m: Machine, path: OnboardingPath): (r: Machine)
    ensures r.formData.path == Some(path)
    ensures SameExcept(r.formData, m.formData, {PathKey})
    ensures r.errors == m.errors
    ensures path == Invitation ==> r.state == VerifyingBusiness
    ensures path == NewAccount ==> r.state == AskingUserType
    ensures path == NullPath ==> r.state == m.state
  {
    var m' := m.(formData := UpdateFormData(m.formData, NoChange.(path := Some(Some(path)))));
    match path
    case Invitation => SetState(m', VerifyingBusiness)
    case NewAccount => SetState(m', AskingUserType)
    case NullPath => m'
  }

  /** `verifyInvitation(code)` up to its request: the state moves to
      VERIFYING_BUSINESS and the code is stored. */
  function BeginVerifyInvitation(m: Machine, code: string): (r: Machine)
    ensures r.state == VerifyingBusiness
    ensures r.formData.invitationCode == Some(code)
    ensures SameExcept(r.formData, m.formData, {InvitationCodeKey})
    ensures r.errors == m.errors
  {
    var m' := SetState(m, VerifyingBusiness);
    m'.(formData := UpdateFormData(m'.formData, NoChange.(invitationCode := Some(Some(code)))))
  }

  const BusinessNotFound := "Business not found"
  const VerificationFailed := "Failed to verify invitation code"

  /** The rest of `verifyInvitation`, given how the request ended. */
  function CompleteVerifyInvitation(m: Machine, outcome: Result<VerificationResponse>): (r: Machine)
    ensures outcome.Ok? && outcome.value.success && outcome.value.business.Some? ==>
      && r.state == ConfirmingBusiness
      && r.formData.verifiedBusiness == outcome.value.business
      && SameExcept(r.formData, m.formData, {VerifiedBusinessKey})
      && r.errors == m.errors
    ensures outcome.Ok? && !(outcome.value.success && outcome.value.business.Some?) ==>
      r == m.(state := AskingPath, errors := NoErrors.(invitationCode := Some(BusinessNotFound)))
    ensures outcome.Err? ==>
      && r.state == AskingPath && r.formData == m.formData
      && r.errors == NoErrors.(invitationCode := Some(
           if outcome.message == "" then VerificationFailed else outcome.message))
  {
    match outcome
    case Ok(response) =>
      if response.success && response.business.Some? then
        var m' := m.(formData := UpdateFormData(m.formData,
                       NoChange.(verifiedBusiness := Some(response.business))));
        SetState(m', ConfirmingBusiness)
      else
        SetState(m.(errors := NoErrors.(invitationCode := Some(BusinessNotFound))), AskingPath)
    case Err(message) =>
      var shown := if message != "" then message else VerificationFailed;
      SetState(m.(errors := NoErrors.(invitationCode := Some(shown))), AskingPath)
  }

  /** `verifyInvitation(code)` as one call. */
  function VerifyInvitation(m: Machine, code: string, outcome: Result<VerificationResponse>): Machine {
    CompleteVerifyInvitation(BeginVerifyInvitation(m, code), outcome)
  }

  /** Whatever the outcome, the code stays stored, and only the invitation
      code and the verified business can have changed in the form. A found
      business leaves the errors alone; otherwise the errors hold one entry,
      for `invitationCode`, and the flow is back at ASKING_PATH. */
  lemma VerifyInvitationOutcomes(m: Machine, code: string, outcome: Result<VerificationResponse>)
    ensures var r := VerifyInvitation(m, code, outcome);
      && r.formData.invitationCode == Some(code)
      && SameExcept(r.formData, m.formData, {InvitationCodeKey, VerifiedBusinessKey})
      && (r.state == ConfirmingBusiness <==>
            outcome.Ok? && outcome.value.success && outcome.value.business.Some?)
      && (r.state == ConfirmingBusiness ==>
            r.errors == m.errors && r.formData.verifiedBusiness == outcome.value.business)
      && (r.state != ConfirmingBusiness ==>
            r.state == AskingPath && r.errors.invitationCode.Some?
            && r.errors == NoErrors.(invitationCode := r.errors.invitationCode)
            && r.formData.verifiedBusiness == m.formData.verifiedBusiness)
  {
  }

  /** `confirmBusiness(confirmed)`, from any state. */
  function ConfirmBusiness(m: Machine, confirmed: bool): (r: Machine)
    ensures confirmed ==>
      && r.state == CollectingInfo && r.formData.userType == Some(Employee)
      && SameExcept(r.formData, m.formData, {UserTypeKey})
    ensures !confirmed ==>
      && r.state == AskingPath
      && r.formData.verifiedBusiness.None? && r.formData.invitationCode.None?
      && SameExcept(r.formData, m.formData, {VerifiedBusinessKey, InvitationCodeKey})
    ensures r.errors == m.errors
  {
    if confirmed then
      var m' := SetState(m, CollectingInfo);
      m'.(formData := UpdateFormData(m'.formData, NoChange.(userType := Some(Some(Employee)))))
    else
      var m' := SetState(m, AskingPath);
      m'.(formData := UpdateFormData(m'.formData,
            NoChange.(verifiedBusiness := Some(None), invitationCode := Some(None))))
  }

  /** `selectUserType(t)`, from any state. */
  function SelectUserType(m: Machine, t: UserType): (r: Machine)
    ensures r.state == CollectingInfo && r.formData.userType == Some(t)
    ensures SameExcept(r.formData, m.formData, {UserTypeKey})
    ensures r.errors == m.errors
  {
    var m' := m.(formData := UpdateFormData(m.formData, NoChange.(userType := Some(Some(t)))));
    SetState(m', CollectingInfo)
  }

  /** The payload `submitForm` builds from the hook's form data. */
  function BuildPayload(fd: FormData): (r: AccountCreationPayload)
    requires fd.userType.Some?
    ensures PayloadUserType(r) == fd.userType.value
    ensures r.BusinessPayload? <==> fd.userType.value == BusinessOwner
    ensures r.firstName == fd.firstName && r.lastName == fd.lastName
    ensures r.email == fd.email && r.phoneNumber == fd.phoneNumber
    ensures r.IndividualPayload? ==>
      && r.bvn == fd.bvn && r.tin == fd.tin
      && r.businessId == (if fd.verifiedBusiness.Some? then Some(fd.verifiedBusiness.value.id) else None)
  {
    if fd.userType.value == BusinessOwner then
      BusinessPayload(
        fd.firstName, fd.lastName, fd.email, fd.phoneNumber,
        fd.businessName, fd.businessType, fd.businessCategory, fd.businessEmail,
        fd.businessPhone, fd.registrationNumber, fd.address, fd.city, fd.state)
    else
      IndividualPayload(
        fd.userType.value, fd.firstName, fd.lastName, fd.email, fd.phoneNumber,
        fd.bvn, fd.tin,
        match fd.verifiedBusiness case Some(b) => Some(b.id) case None => None)
  }

  /** A key of the form holds a value. */
  predicate Present(v: Value) {
    match v
    case Text(s) => s.Some?
    case PathValue(p) => p.Some?
    case UserTypeValue(t) => t.Some?
    case BusinessValue(b) => b.Some?
  }

  /** The payload has every field its static type promises exactly when the
      form holds every field `REQUIRED_FIELDS` lists for the user type. */
  lemma PayloadConformsIffRequiredPresent(fd: FormData)
    requires fd.userType.Some?
    ensures Conforms(BuildPayload(fd)) <==>
      forall k :: k in RequiredKeys(fd.userType.value) ==> Present(Get(fd, k))
  {
    var t := fd.userType.value;
    if forall k :: k in RequiredKeys(t) ==> Present(Get(fd, k)) {
      assert Present(Get(fd, FirstNameKey)) && Present(Get(fd, LastNameKey)) && Present(Get(fd, EmailKey));
      if t == BusinessOwner {
        assert Present(Get(fd, BusinessNameKey)) && Present(Get(fd, BusinessTypeKey));
        assert Present(Get(fd, BusinessCategoryKey)) && Present(Get(fd, BusinessEmailKey));
      }
    }
  }

  /** `submitForm` up to its request: either it fails at once (no user type,
      so no request) or it is at CREATING_ACCOUNT with a payload to send. */
  datatype Submission = Submission(machine: Machine, request: Option<AccountCreationPayload>)

  function BeginSubmit(m: Machine): (r: Submission)
    ensures r.machine.formData == m.formData && r.machine.errors == m.errors
    ensures m.formData.userType.None? ==> r.machine.state == Error && r.request.None?
    ensures m.formData.userType.Some? ==>
      r.machine.state == CreatingAccount && r.request == Some(BuildPayload(m.formData))
  {
    var creating := SetState(m, CreatingAccount);
    match m.formData.userType
    case None => Submission(SetState(creating, Error), None)
    case Some(_) => Submission(creating, Some(BuildPayload(m.formData)))
  }

  /** The rest of `submitForm`: success or failure, errors kept as they were. */
  function CompleteSubmit(m: Machine, outcome: Result<AuthResponse>): (r: Machine)
    ensures r.formData == m.formData && r.errors == m.errors
    ensures r.state == (if outcome.Ok? then Success else Error)
  {
    if outcome.Ok? then SetState(m, Success) else SetState(m, Error)
  }

  /** `submitForm()` as one call; the outcome is ignored when no request is
      made. */
  function SubmitForm(m: Machine, outcome: Result<AuthResponse>): Machine {
    var s := BeginSubmit(m);
    if s.request.Some? then CompleteSubmit(s.machine, outcome) else s.machine
  }

  /** A submission ends in SUCCESS or ERROR, and in SUCCESS only when a user
      type was chosen and the request succeeded; the form and errors are
      never touched. */
  lemma SubmitFormOutcomes(m: Machine, outcome: Result<AuthResponse>)
    ensures var r := SubmitForm(m, outcome);
      && (r.state == Success <==> m.formData.userType.Some? && outcome.Ok?)
      && (r.state == Success || r.state == Error)
      && r.formData == m.formData && r.errors == m.errors
  {
  }

  /** The path through an invitation: choosing it, having the code resolve
      to a business and confirming it always lands in COLLECTING_INFO as an
      employee of that business. */
  lemma InvitationPathCollectsEmployee(m: Machine, code: string, b: Business)
    ensures var r := ConfirmBusiness(
              VerifyInvitation(SelectPath(m, Invitation), code,
                Ok(VerificationResponse(true, Some(b)))), true);
      && r.state == CollectingInfo
      && r.formData.userType == Some(Employee)
      && r.formData.verifiedBusiness == Some(b)
      && r.formData.invitationCode == Some(code)
      && r.formData.path == Some(Invitation)
  {
  }

  /** An employee who joined through an invitation is submitted with that
      business's id. */
  lemma JoinedEmployeeCarriesBusinessId(m: Machine, code: string, b: Business)
    ensures var joined := ConfirmBusiness(
              VerifyInvitation(m, code, Ok(VerificationResponse(true, Some(b)))), true);
      BeginSubmit(joined).request == Some(BuildPayload(joined.formData))
      && BeginSubmit(joined).request.value.IndividualPayload?
      && BeginSubmit(joined).request.value.businessId == Some(b.id)
  {
  }
}
