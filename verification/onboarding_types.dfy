/** The types of types/onboarding.types.ts: the ten states of the
    onboarding machine, the form record it accumulates, its error record and
    the fields each kind of account requires. */
module OnboardingTypes {

  import opened Wrappers
  import opened AuthTypes

  datatype OnboardingState =
    | Initial
    | AccountRequired
    | AskingPath
    | VerifyingBusiness
    | ConfirmingBusiness
    | AskingUserType
    | CollectingInfo
    | CreatingAccount
    | Success
    | Error

  /** The string each enum member stands for. */
  function StateName(s: OnboardingState): string {
    match s
    case Initial => "INITIAL"
    case AccountRequired => "ACCOUNT_REQUIRED"
    case AskingPath => "ASKING_PATH"
    case VerifyingBusiness => "VERIFYING_BUSINESS"
    case ConfirmingBusiness => "CONFIRMING_BUSINESS"
    case AskingUserType => "ASKING_USER_TYPE"
    case CollectingInfo => "COLLECTING_INFO"
    case CreatingAccount => "CREATING_ACCOUNT"
    case Success => "SUCCESS"
    case Error => "ERROR"
  }

  const AllStates: seq<OnboardingState> := [
    Initial, AccountRequired, AskingPath, VerifyingBusiness, ConfirmingBusiness,
    AskingUserType, CollectingInfo, CreatingAccount, Success, Error]

  /** The enum has exactly ten members, with ten different string values. */
  lemma TenDistinctStates(s: OnboardingState)
    ensures s in AllStates && |AllStates| == 10
    ensures forall i, j :: 0 <= i < j < |AllStates| ==>
      StateName(AllStates[i]) != StateName(AllStates[j])
  {
  }

  /** `OnboardingPath`: 'invitation' | 'new_account' | null. */
  datatype OnboardingPath = Invitation | NewAccount | NullPath

  /** `OnboardingFormData`: every field optional. */
  datatype FormData = FormData(
    path: Option<OnboardingPath>,
    invitationCode: Option<string>,
    userType: Option<UserType>,
    firstName: Option<string>,
    lastName: Option<string>,
    email: Option<string>,
    phoneNumber: Option<string>,
    bvn: Option<string>,
    tin: Option<string>,
    businessName: Option<string>,
    businessType: Option<string>,
    businessCategory: Option<string>,
    businessEmail: Option<string>,
    businessPhone: Option<string>,
    registrationNumber: Option<string>,
    address: Option<string>,
    city: Option<string>,
    state: Option<string>,
    verifiedBusiness: Option<Business>)

  /** `{}` */
  const EmptyForm := FormData(None, None, None, None, None, None, None, None, None,
                              None, None, None, None, None, None, None, None, None, None)

  /** `Partial<OnboardingFormData>`: the outer `Option` says whether the key
      is present in the object, the inner one whether its value is
      `undefined` (as in `{verifiedBusiness: undefined}`). */
  datatype FormPatch = FormPatch(
    path: Option<Option<OnboardingPath>>,
    invitationCode: Option<Option<string>>,
    userType: Option<Option<UserType>>,
    firstName: Option<Option<string>>,
    lastName: Option<Option<string>>,
    email: Option<Option<string>>,
    phoneNumber: Option<Option<string>>,
    bvn: Option<Option<string>>,
    tin: Option<Option<string>>,
    businessName: Option<Option<string>>,
    businessType: Option<Option<string>>,
    businessCategory: Option<Option<string>>,
    businessEmail: Option<Option<string>>,
    businessPhone: Option<Option<string>>,
    registrationNumber: Option<Option<string>>,
    address: Option<Option<string>>,
    city: Option<Option<string>>,
    state: Option<Option<string>>,
    verifiedBusiness: Option<Option<Business>>)

  /** The patch with no keys. */
  const NoChange := FormPatch(None, None, None, None, None, None, None, None, None,
                              None, None, None, None, None, None, None, None, None, None)

  /** The keys of `OnboardingFormData`. */
  datatype FormKey =
    | PathKey | InvitationCodeKey | UserTypeKey
    | FirstNameKey | LastNameKey | EmailKey | PhoneNumberKey | BvnKey | TinKey
    | BusinessNameKey | BusinessTypeKey | BusinessCategoryKey | BusinessEmailKey
    | BusinessPhoneKey | RegistrationNumberKey | AddressKey | CityKey | StateKey
    | VerifiedBusinessKey

  /** The property name of each key, as the source spells it. */
  function KeyName(k: FormKey): string {
    match k
    case PathKey => "path"
    case InvitationCodeKey => "invitationCode"
    case UserTypeKey => "userType"
    case FirstNameKey => "firstName"
    case LastNameKey => "lastName"
    case EmailKey => "email"
    case PhoneNumberKey => "phoneNumber"
    case BvnKey => "bvn"
    case TinKey => "tin"
    case BusinessNameKey => "businessName"
    case BusinessTypeKey => "businessType"
    case BusinessCategoryKey => "businessCategory"
    case BusinessEmailKey => "businessEmail"
    case BusinessPhoneKey => "businessPhone"
    case RegistrationNumberKey => "registrationNumber"
    case AddressKey => "address"
    case CityKey => "city"
    case StateKey => "state"
    case VerifiedBusinessKey => "verifiedBusiness"
  }

  /** No two keys share a property name. */
  lemma KeyNameInjective(a: FormKey, b: FormKey)
    ensures KeyName(a) == KeyName(b) ==> a == b
  {
  }

  /** The value a key holds, `undefined` included, for any of the form's
      field types. */
  datatype Value =
    | Text(text: Option<string>)
    | PathValue(path: Option<OnboardingPath>)
    | UserTypeValue(userType: Option<UserType>)
    | BusinessValue(business: Option<Business>)

  /** `formData[key]`, viewing the record as a map from keys to values. */
  function Get(fd: FormData, k: FormKey): Value {
    match k
    case PathKey => PathValue(fd.path)
    case InvitationCodeKey => Text(fd.invitationCode)
    case UserTypeKey => UserTypeValue(fd.userType)
    case FirstNameKey => Text(fd.firstName)
    case LastNameKey => Text(fd.lastName)
    case EmailKey => Text(fd.email)
    case PhoneNumberKey => Text(fd.phoneNumber)
    case BvnKey => Text(fd.bvn)
    case TinKey => Text(fd.tin)
    case BusinessNameKey => Text(fd.businessName)
    case BusinessTypeKey => Text(fd.businessType)
    case BusinessCategoryKey => Text(fd.businessCategory)
    case BusinessEmailKey => Text(fd.businessEmail)
    case BusinessPhoneKey => Text(fd.businessPhone)
    case RegistrationNumberKey => Text(fd.registrationNumber)
    case AddressKey => Text(fd.address)
    case CityKey => Text(fd.city)
    case StateKey => Text(fd.state)
    case VerifiedBusinessKey => BusinessValue(fd.verifiedBusiness)
  }

  function TextEntry(e: Option<Option<string>>): Option<Value> {
    if e.Some? then Some(Text(e.value)) else None
  }

  /** `patch[key]` when `key in patch`, `None` when the key is absent. */
  function Entry(p: FormPatch, k: FormKey): Option<Value> {
    match k
    case PathKey => if p.path.Some? then Some(PathValue(p.path.value)) else None
    case InvitationCodeKey => TextEntry(p.invitationCode)
    case UserTypeKey => if p.userType.Some? then Some(UserTypeValue(p.userType.value)) else None
    case FirstNameKey => TextEntry(p.firstName)
    case LastNameKey => TextEntry(p.lastName)
    case EmailKey => TextEntry(p.email)
    case PhoneNumberKey => TextEntry(p.phoneNumber)
    case BvnKey => TextEntry(p.bvn)
    case TinKey => TextEntry(p.tin)
    case BusinessNameKey => TextEntry(p.businessName)
    case BusinessTypeKey => TextEntry(p.businessType)
    case BusinessCategoryKey => TextEntry(p.businessCategory)
    case BusinessEmailKey => TextEntry(p.businessEmail)
    case BusinessPhoneKey => TextEntry(p.businessPhone)
    case RegistrationNumberKey => TextEntry(p.registrationNumber)
    case AddressKey => TextEntry(p.address)
    case CityKey => TextEntry(p.city)
    case StateKey => TextEntry(p.state)
    case VerifiedBusinessKey =>
      if p.verifiedBusiness.Some? then Some(BusinessValue(p.verifiedBusiness.value)) else None
  }

  /** The key view loses nothing: two forms that agree on every key are
      the same form. */
  lemma FormExtensionality(a: FormData, b: FormData)
    requires forall k :: Get(a, k) == Get(b, k)
    ensures a == b
  {
    assert Get(a, PathKey) == Get(b, PathKey);
    assert Get(a, InvitationCodeKey) == Get(b, InvitationCodeKey);
    assert Get(a, UserTypeKey) == Get(b, UserTypeKey);
    assert Get(a, FirstNameKey) == Get(b, FirstNameKey);
    assert Get(a, LastNameKey) == Get(b, LastNameKey);
    assert Get(a, EmailKey) == Get(b, EmailKey);
    assert Get(a, PhoneNumberKey) == Get(b, PhoneNumberKey);
    assert Get(a, BvnKey) == Get(b, BvnKey);
    assert Get(a, TinKey) == Get(b, TinKey);
    assert Get(a, BusinessNameKey) == Get(b, BusinessNameKey);
    assert Get(a, BusinessTypeKey) == Get(b, BusinessTypeKey);
    assert Get(a, BusinessCategoryKey) == Get(b, BusinessCategoryKey);
    assert Get(a, BusinessEmailKey) == Get(b, BusinessEmailKey);
    assert Get(a, BusinessPhoneKey) == Get(b, BusinessPhoneKey);
    assert Get(a, RegistrationNumberKey) == Get(b, RegistrationNumberKey);
    assert Get(a, AddressKey) == Get(b, AddressKey);
    assert Get(a, CityKey) == Get(b, CityKey);
    assert Get(a, StateKey) == Get(b, StateKey);
    assert Get(a, VerifiedBusinessKey) == Get(b, VerifiedBusinessKey);
  }

  /** `OnboardingErrors`: one optional message per field. */
  datatype Errors = Errors(
    firstName: Option<string>,
    lastName: Option<string>,
    email: Option<string>,
    phoneNumber: Option<string>,
    businessName: Option<string>,
    businessType: Option<string>,
    businessCategory: Option<string>,
    businessEmail: Option<string>,
    invitationCode: Option<string>)

  const NoErrors := Errors(None, None, None, None, None, None, None, None, None)

  /** `REQUIRED_FIELDS` */
  const RequiredIndividual: seq<string> := ["firstName", "lastName", "email"]
  const RequiredEmployee: seq<string> := ["firstName", "lastName", "email"]
  const RequiredBusiness: seq<string> := [
    "firstName", "lastName", "email",
    "businessName", "businessType", "businessCategory", "businessEmail"]

  function RequiredFields(t: UserType): seq<string> {
    match t
    case Individual => RequiredIndividual
    case Employee => RequiredEmployee
    case BusinessOwner => RequiredBusiness
  }

  /** Individuals and employees must give the same three fields; a business
      owner gives those and exactly the four business fields besides, and
      every required field is a key of the form. */
  lemma RequiredFieldsShape()
    ensures RequiredIndividual == RequiredEmployee
    ensures RequiredBusiness[..3] == RequiredIndividual
    ensures (set f | f in RequiredBusiness) - (set f | f in RequiredIndividual)
         == {"businessName", "businessType", "businessCategory", "businessEmail"}
    ensures forall t, f :: f in RequiredFields(t) ==> exists k :: KeyName(k) == f
  {
    assert KeyName(FirstNameKey) == "firstName";
    assert KeyName(LastNameKey) == "lastName";
    assert KeyName(EmailKey) == "email";
    assert KeyName(BusinessNameKey) == "businessName";
    assert KeyName(BusinessTypeKey) == "businessType";
    assert KeyName(BusinessCategoryKey) == "businessCategory";
    assert KeyName(BusinessEmailKey) == "businessEmail";
  }
  /** The form keys `REQUIRED_FIELDS` names for a user type. */
  function RequiredKeys(t: UserType): set<FormKey> {
    var personal := {FirstNameKey, LastNameKey, EmailKey};
    if t == BusinessOwner then
      personal + {BusinessNameKey, BusinessTypeKey, BusinessCategoryKey, BusinessEmailKey}
    else personal
  }

  /** `RequiredKeys` names exactly the fields of `REQUIRED_FIELDS`. */
  lemma RequiredKeysMatchRequiredFields(t: UserType)
    ensures forall k :: k in RequiredKeys(t) ==> KeyName(k) in RequiredFields(t)
    ensures forall f :: f in RequiredFields(t) ==> exists k :: k in RequiredKeys(t) && KeyName(k) == f
  {
    assert KeyName(FirstNameKey) == RequiredFields(t)[0];
    assert KeyName(LastNameKey) == RequiredFields(t)[1];
    assert KeyName(EmailKey) == RequiredFields(t)[2];
    if t == BusinessOwner {
      assert KeyName(BusinessNameKey) == RequiredFields(t)[3];
      assert KeyName(BusinessTypeKey) == RequiredFields(t)[4];
      assert KeyName(BusinessCategoryKey) == RequiredFields(t)[5];
      assert KeyName(BusinessEmailKey) == RequiredFields(t)[6];
    }
  }
}
