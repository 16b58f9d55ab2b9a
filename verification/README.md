# TaxPadi web client: a verified model of its logic

This project models, in Dafny, the logic under the TaxPadi web client (the
`ng_tax_web` repository). It does not model the marketing pages or the
styling. The model covers:

- the field validators and the Yup form schemas;
- the onboarding state machine and the view it renders for each state;
- the chat transcript: sending, attachments, local persistence, rendering of
  attachments, and the choice between a multipart and a JSON request;
- the auth session: the token store, the session reducer of the auth
  provider, and the effects of the login, sign-up and logout mutations;
- the file-list helpers of the upload zone and the `mm:ss` formatter of the
  voice recorder.

Every network call, clock reading, browser API and library test becomes a
parameter:

- a request is an outcome argument of type `Result<…>`;
- `Date.now()` is an integer argument;
- `FileReader.readAsDataURL` is a function `File -> Result<string>`, and
  whether `localStorage.setItem` accepted a write is a boolean;
- the HTTP status of a failed request, where the response interceptor reads
  it, is an `Option<int>`;
- Yup's `.email()` is a predicate `string -> bool`;
- `localStorage` is a map from keys to values.

Asynchronous operations are split into a begin step and a complete step.
This makes VERIFYING_BUSINESS and CREATING_ACCOUNT real intermediate states
of the onboarding machine.

Strings are sequences of characters. JavaScript's `\s` and `String.trim`
use the ECMAScript whitespace and line-terminator set. `\d` and `[a-zA-Z]`
are ASCII only. The regular expressions are written out by hand as
predicates, and lemmas characterise them.

Modules follow the source files:

| module | source file |
|---|---|
| `Validation` | `lib/validation.ts` |
| `Schemas` | `lib/validationSchemas.ts` |
| `AuthTypes` | `types/auth.types.ts` |
| `OnboardingTypes` | `types/onboarding.types.ts` |
| `Onboarding` | `hooks/useOnboarding.ts` |
| `OnboardingFlow` | `components/auth/OnboardingFlow.tsx` |
| `AiService` | `services/ai.service.ts` |
| `Chat` | `components/chat/Chat.tsx` |
| `ChatMessage` | `components/chat/ChatMessage.tsx` |
| `FileUploadZone` | `components/chat/FileUploadZone.tsx` |
| `AudioRecorder` | `components/chat/AudioRecorderModal.tsx` |
| `AuthService` | `services/auth.service.ts` |
| `AuthContext` | `providers/AuthContext.tsx` |
| `AuthMutations` | `hooks/useAuthMutations.ts` |

`Text` and `Wrappers` hold the shared string functions (trim, split, join,
filter) and `Option`/`Result`.

Three behaviours of the code are surprising, and the model reproduces
them as written:

- **Chat attachments are never uploaded as files.** `handleSendMessage`
  puts a pending attachment under the key `file` (Chat.tsx lines 130-132).
  `sendMessage` goes multipart only when `files` is present and non-empty
  (ai.service.ts line 43). So every chat request, attachment or not, is
  posted as JSON (`Chat.ChatRequestsArePostedAsJson`), where serialisation
  turns the browser `File` object under `file` into `{}`.
- **A login that fails with 401 signs the store out but not the session.**
  The response interceptor removes `auth_token` on any 401 (api.ts lines
  59-66), while the mutation's `onError` only logs (useAuthMutations.ts
  lines 66-68). A signed-in user whose login fails that way keeps a session
  that claims authentication over a store that no longer is
  (`AuthMutations.UnauthorizedLoginDesyncs`).
- **The information form's values are ignored.** The form passes its values
  to `submitForm` (OnboardingFlow.tsx line 310). `submitForm` builds the
  payload from the hook's own `formData`, which no step of the flow fills
  with personal fields (useOnboarding.ts lines 97-141).
  - Two valid submissions with different values therefore lead to the same
    machine (`OnboardingFlow.SubmitIgnoresFormValues`).
  - An individual signing up through the new-account path is submitted
    without the first name, last name and email its payload type requires
    (`OnboardingFlow.NewAccountPayloadLacksFormValues`).

The required payload fields are `Option<string>` for this reason. The
TypeScript non-null assertions (`formData.firstName!`) are not checked at
run time.

One more quirk is kept. The upload notice in the chat transcript contains
the four characters U+00F0 U+0178 U+201C U+017D (Chat.tsx line 111): the
paper-clip emoji's UTF-8 bytes, read back as Windows-1252 text.

## Model

| member | source | states |
|---|---|---|
| Validation.IsValidEmail | lib/validation.ts:2-5 | `isValidEmail`, written as a search for the `@` and the last `.`; `Validation.EmailMatchesPattern` proves it equal to the regular expression, and `Validation.EmailShape` gives the shape it forces |
| Validation.EmailMatchesPattern | lib/validation.ts:2-5 | `isValidEmail` holds exactly when the string is some non-whitespace, non-`@` text, one `@`, more such text, a `.`, and more such text |
| Validation.EmailShape | lib/validation.ts:2-5 | a valid email has no whitespace, exactly one `@`, and a `.` after the `@` that is neither the first nor the last character of the domain |
| Validation.IsValidNigerianPhone | lib/validation.ts:9-19 | `isValidNigerianPhone`: strip the separators, then the local or the international pattern; `Validation.PhoneCharacterization` states the accepted strings in full |
| Validation.PhoneWithoutSeparators | lib/validation.ts:9-19 | on a string with no spaces, hyphens or parentheses, the phone test is exactly the local pattern or the international pattern |
| Validation.PhoneCharacterization | lib/validation.ts:9-19 | a phone number is valid exactly when, with whitespace, `-`, `(` and `)` removed, it is `0`, `234` or `+234`, then a digit 7-9, a digit 0-1 and eight digits |
| Validation.PhoneAcceptsLocalForm | lib/validation.ts:8-19 | `08012345678` is accepted |
| Validation.PhoneAcceptsInternationalForm | lib/validation.ts:8-19 | `+2348012345678` is accepted |
| Validation.PhoneRejectsShortNumber | lib/validation.ts:9-19 | `12345` is rejected |
| Validation.IsValidBVN | lib/validation.ts:22-25 | `isValidBVN`: eleven digits once whitespace is removed; characterised by `Validation.IdentifiersWithoutWhitespace` and `Validation.BvnDigitsIffEleven` |
| Validation.IsValidTIN | lib/validation.ts:29-32 | `isValidTIN`: nine digits, `-`, four digits once whitespace is removed; characterised by `Validation.IdentifiersWithoutWhitespace` and the two TIN examples |
| Validation.IdentifiersWithoutWhitespace | lib/validation.ts:22-32 | once whitespace is gone, a BVN is exactly eleven digits and a TIN is exactly nine digits, `-`, four digits |
| Validation.BvnDigitsIffEleven | lib/validation.ts:22-25 | a string of digits is a valid BVN exactly when it has eleven of them, so ten or twelve fail |
| Validation.TinAcceptsExample | lib/validation.ts:29-32 | `123456789-1234` is a valid TIN |
| Validation.TinRejectsMissingSuffix | lib/validation.ts:29-32 | `123456789` is not a valid TIN |
| Validation.IsRequired | lib/validation.ts:35-37 | `isRequired`: present and non-empty after trimming; `Validation.RequiredIffNotBlank` states it as not all whitespace |
| Validation.RequiredIffNotBlank | lib/validation.ts:35-37 | a value is required-satisfied exactly when it is present and not all whitespace |
| Validation.IsValidName | lib/validation.ts:40-42 | `isValidName`: only letters, whitespace, `-` and `'`, and at least two characters after trimming; `Validation.ValidNameIsRequired` relates it to `isRequired` |
| Validation.ValidNameIsRequired | lib/validation.ts:40-42 | a valid name also passes the required test and is not blank |
| Validation.ValidateOptional | lib/validation.ts:60-110 | the shared shape of the optional validators: blank gives valid or the required error, depending on `required`; otherwise the format test decides between valid and the format error |
| Validation.ValidatePhone | lib/validation.ts:60-72 | blank is valid unless required, which gives "Phone number is required"; otherwise valid exactly when the phone test holds, else the Nigerian-number error |
| Validation.ValidateBVN | lib/validation.ts:84-96 | blank is valid unless required, which gives "BVN is required"; otherwise valid exactly when `isValidBVN` holds, else "BVN must be 11 digits" |
| Validation.ValidateTIN | lib/validation.ts:98-110 | blank is valid unless required, which gives "TIN is required"; otherwise valid exactly when `isValidTIN` holds, else the format error |
| Validation.ValidateEmail | lib/validation.ts:50-58 | valid exactly when the email is not blank and matches the pattern; blank gets the required message; a non-blank mismatch always gets the format message |
| Validation.ValidateName | lib/validation.ts:74-82 | valid exactly when `isValidName` holds; blank gets "<field> is required"; a non-blank invalid name always gets "<field> should only contain letters" |
| Schemas.Valid | lib/validationSchemas.ts:9-105 | `schema.isValidSync(values)`: every rule of the schema holds; the `…SchemaMeaning` lemmas below spell it out field by field for each schema |
| Schemas.Prepared | components/auth/OnboardingFlow.tsx:307-310 | the values Formik validates: only keys of the form's values, each with its value, none empty; `Schemas.PreparedRuleMeaning` and `Schemas.PreparedIdempotent` characterise it |
| Schemas.PreparedRuleMeaning | components/auth/OnboardingFlow.tsx:307-310 | on the values Formik validates, a field left empty counts as missing and fails only a required rule; a filled field must meet the rule's length bound and test |
| Schemas.PreparedIdempotent | components/auth/OnboardingFlow.tsx:307-310 | preparing values that are already prepared changes nothing |
| Schemas.IndividualSchemaMeaning | lib/validationSchemas.ts:9-35 | the individual schema holds exactly when first and last name are present with at least two characters from letters, whitespace, `-` and `'`, the email is present and passes the email test, and phone, BVN and TIN match their patterns whenever present |
| Schemas.BusinessSchemaMeaning | lib/validationSchemas.ts:38-88 | the business schema holds exactly when the owner's fields hold as for individuals, the business name has at least two characters, type and category are present, the business email passes the email test, and the business phone matches the pattern when present |
| Schemas.BusinessOptionalFieldsUnconstrained | lib/validationSchemas.ts:77-87 | any value of registrationNumber, address, city or state leaves the business schema's verdict unchanged |
| Schemas.InvitationCodeSchemaMeaning | lib/validationSchemas.ts:91-95 | the invitation-code schema holds exactly when the code is present with at least three characters |
| Schemas.LoginSchemaMeaning | lib/validationSchemas.ts:98-106 | the login schema holds exactly when the email is present and passes the email test, and the password is present with at least six characters |
| Schemas.IndividualRequiredFields | lib/validationSchemas.ts:9-22 | the fields the individual schema marks required are exactly the individual entry of the required-fields table |
| Schemas.BusinessRequiredFields | lib/validationSchemas.ts:38-71 | the fields the business schema marks required are exactly the business entry of the required-fields table, which adds businessName, businessType, businessCategory and businessEmail to the individual ones |
| Schemas.SchemaPhoneHasNoSeparators | lib/validationSchemas.ts:4 | a string the schema phone pattern accepts contains no space, hyphen or parenthesis |
| Schemas.SchemaPhoneImpliesValidator | lib/validationSchemas.ts:4 | whatever the schema phone pattern accepts, `isValidNigerianPhone` accepts too |
| Schemas.SchemaPhoneAgreesWithoutSeparators | lib/validationSchemas.ts:4 | on strings with no spaces, hyphens or parentheses, the schema pattern and `isValidNigerianPhone` agree |
| Schemas.SchemaPhoneRejectsSpacedNumber | lib/validationSchemas.ts:4 | a valid number with a space inserted still passes `isValidNigerianPhone` but fails the schema pattern, which does not strip separators |
| AuthTypes.UserTypeTagsDistinct | types/auth.types.ts:2 | there are exactly three user types and their tags are distinct |
| AuthTypes.OptionListsWellFormed | types/auth.types.ts:111-140 | there are seven distinct business types and fifteen distinct categories, each list ending in "Other" |
| OnboardingTypes.TenDistinctStates | types/onboarding.types.ts:4-15 | the onboarding state enum has exactly ten values with distinct names |
| OnboardingTypes.KeyNameInjective | types/onboarding.types.ts:21-50 | distinct form-data keys have distinct field names |
| OnboardingTypes.FormExtensionality | types/onboarding.types.ts:21-50 | two form records that agree on every key are the same record |
| OnboardingTypes.RequiredFieldsShape | types/onboarding.types.ts:66-78 | the individual and employee lists are identical (firstName, lastName, email); the business list starts with them and adds exactly the four business fields; every listed name is a form-data key |
| OnboardingTypes.RequiredKeysMatchRequiredFields | types/onboarding.types.ts:66-78 | the required key set of each user type names exactly the fields of its required-fields list |
| Onboarding.UpdateFormData | hooks/useOnboarding.ts:28-30 | every key the patch mentions takes the patch's value, and every other key keeps its old value |
| Onboarding.UpdateFormDataLaws | hooks/useOnboarding.ts:28-30 | an empty patch changes nothing, and applying the same patch twice is the same as applying it once |
| Onboarding.SetState | hooks/useOnboarding.ts:161 | only the state changes |
| Onboarding.Reset | hooks/useOnboarding.ts:33-37 | whatever the machine held, it returns to INITIAL with every form field undefined and no errors, the machine the hook starts with |
| Onboarding.StartOnboarding | hooks/useOnboarding.ts:40-42 | moves to ACCOUNT_REQUIRED and changes nothing else |
| Onboarding.SelectPath | hooks/useOnboarding.ts:45-53 | always stores the path and changes no other field; invitation goes to VERIFYING_BUSINESS, new account to ASKING_USER_TYPE, and `null` keeps the state |
| Onboarding.BeginVerifyInvitation | hooks/useOnboarding.ts:56-59 | enters VERIFYING_BUSINESS and stores the code, changing no other field and no errors |
| Onboarding.CompleteVerifyInvitation | hooks/useOnboarding.ts:61-75 | a successful response with a business stores it and goes to CONFIRMING_BUSINESS with errors untouched; otherwise the errors become only an invitation-code message ("Business not found", the thrown message, or "Failed to verify invitation code" for an empty one) and the state is ASKING_PATH |
| Onboarding.VerifyInvitation | hooks/useOnboarding.ts:56-77 | `verifyInvitation(code)` as begin then complete; its outcomes are stated by `Onboarding.VerifyInvitationOutcomes` |
| Onboarding.VerifyInvitationOutcomes | hooks/useOnboarding.ts:56-76 | whatever the outcome, the code stays stored and only the code and verified business can change; CONFIRMING_BUSINESS is reached exactly on success, and every other outcome goes to ASKING_PATH with a single invitation-code error and the old verified business |
| Onboarding.ConfirmBusiness | hooks/useOnboarding.ts:79-88 | from any state: yes goes to COLLECTING_INFO as an employee, keeping the verified business; no goes to ASKING_PATH and clears only the verified business and the code |
| Onboarding.SelectUserType | hooks/useOnboarding.ts:91-94 | from any state, stores the user type, goes to COLLECTING_INFO, and changes nothing else |
| Onboarding.BuildPayload | hooks/useOnboarding.ts:108-139 | the payload's variant follows the user type (business variant exactly for business owners); the personal fields are copied; the individual variant's businessId is the verified business's id |
| Onboarding.PayloadConformsIffRequiredPresent | hooks/useOnboarding.ts:108-139 | the payload satisfies its declared type exactly when every required field of the user type is present in the form data (an empty string conforms) |
| Onboarding.BeginSubmit | hooks/useOnboarding.ts:97-108 | with no user type, the machine ends in ERROR and no request is made; otherwise it is CREATING_ACCOUNT with the payload built from the form data; form and errors are untouched |
| Onboarding.CompleteSubmit | hooks/useOnboarding.ts:141-151 | success gives SUCCESS, failure gives ERROR; form and errors are kept as they were |
| Onboarding.SubmitForm | hooks/useOnboarding.ts:97-152 | `submitForm()` as begin then complete, skipping the request when there is no user type; its outcomes are stated by `Onboarding.SubmitFormOutcomes` |
| Onboarding.SubmitFormOutcomes | hooks/useOnboarding.ts:97-152 | a submission ends in SUCCESS exactly when a user type was chosen and the request succeeded, otherwise in ERROR, with form and errors unchanged |
| Onboarding.InvitationPathCollectsEmployee | hooks/useOnboarding.ts:45-88 | choosing the invitation path, resolving the code to a business and confirming it lands in COLLECTING_INFO as an employee with that business, code and path recorded |
| Onboarding.JoinedEmployeeCarriesBusinessId | hooks/useOnboarding.ts:129-138 | an employee who joined through an invitation is submitted with the individual payload carrying that business's id |
| OnboardingFlow.ApplyInitialState | components/auth/OnboardingFlow.tsx:35-39 | the initial-state prop is applied only while the machine is INITIAL; otherwise the machine is unchanged |
| OnboardingFlow.ApplyInitialStateIdempotent | components/auth/OnboardingFlow.tsx:35-39 | re-running the effect after it has run changes nothing |
| OnboardingFlow.SchemaFor | components/auth/OnboardingFlow.tsx:268-269 | the business schema is chosen exactly for business owners, and the individual schema exactly for the other types |
| OnboardingFlow.ValuesOf | components/auth/OnboardingFlow.tsx:273-296 | the values have exactly the listed keys' names, each holding its form field or `''` when absent |
| OnboardingFlow.InitialValues | components/auth/OnboardingFlow.tsx:273-296 | the initial values cover exactly the thirteen business fields or the six individual fields, each being the form field or `''` |
| OnboardingFlow.InitialValuesMatchSchema | components/auth/OnboardingFlow.tsx:268-296 | the initial values have exactly the fields of the schema chosen for the user type |
| OnboardingFlow.BusinessKeysMatchSchema | components/auth/OnboardingFlow.tsx:273-288 | the business initial-value keys are the business schema's fields |
| OnboardingFlow.IndividualKeysMatchSchema | components/auth/OnboardingFlow.tsx:289-296 | the individual initial-value keys are the individual schema's fields |
| OnboardingFlow.FormKeysOverlap | components/auth/OnboardingFlow.tsx:273-296 | the business and individual field sets share exactly the four personal fields |
| OnboardingFlow.Render | components/auth/OnboardingFlow.tsx:42-571 | nothing is rendered exactly in INITIAL, CREATING_ACCOUNT, CONFIRMING_BUSINESS without a verified business, and COLLECTING_INFO without a user type; the confirmation shows the verified business; the information form carries the schema for the user type |
| OnboardingFlow.Dispatch | components/auth/OnboardingFlow.tsx:58-310 | an action the current view does not offer changes nothing; an offered path button runs `selectPath`, a confirmation button `confirmBusiness` and a user-type button `selectUserType`; the schemas judge form values with empty strings read as undefined; an accepted invitation code runs `verifyInvitation` with the code as typed, and an accepted information form runs `submitForm` on the machine alone; a rejected form of either kind changes nothing |
| OnboardingFlow.Offers | components/auth/OnboardingFlow.tsx:58-310 | the controls each view renders: the two non-null path buttons, the code form, the two confirmation buttons, the user-type buttons, the information form, and nothing in the other views; `OnboardingFlow.PathChooserOffersTwoPaths` and `OnboardingFlow.TerminalViewsAreInert` state it for the path chooser and the end views |
| OnboardingFlow.PathChooserOffersTwoPaths | components/auth/OnboardingFlow.tsx:47-90 | in ACCOUNT_REQUIRED and ASKING_PATH the only actions offered are choosing the invitation path or the new-account path |
| OnboardingFlow.TerminalViewsAreInert | components/auth/OnboardingFlow.tsx:530-569 | SUCCESS and ERROR offer no action, so no action changes the machine |
| OnboardingFlow.SubmitIgnoresFormValues | components/auth/OnboardingFlow.tsx:307-311 | two submissions of the information form that the schema accepts, with different values, lead to the same machine |
| OnboardingFlow.NewAccountPayloadLacksFormValues | components/auth/OnboardingFlow.tsx:307-311 | after the new-account path and the individual type, the form is shown and submitting any values the schema accepts runs `submitForm`, yet the request lacks the first name and does not satisfy its payload type |
| OnboardingFlow.BlankOptionalFieldsSubmit | components/auth/OnboardingFlow.tsx:273-311 | the individual form with the name and email filled and the phone number, BVN and TIN left at `''` fails the schema as raw values but is submitted |
| AiService.FileEntries | services/ai.service.ts:46-48 | one `files` entry per file, in input order |
| AiService.SendMessage | services/ai.service.ts:41-56 | always targets `/ai/chat`; multipart exactly when `files` is present and non-empty, holding the message field and the files; otherwise the request is posted unchanged as JSON |
| AiService.FileEntriesCarryFiles | services/ai.service.ts:44-48 | reading the file entries back gives the input files, with no message field among them |
| AiService.SendMessageCarriesRequest | services/ai.service.ts:41-56 | a multipart body holds exactly one message field, equal to the request's message, and exactly the request's files in order |
| Chat.LoadInitial | components/chat/Chat.tsx:44-59 | a saved transcript is used as it is; with none, the transcript is a single assistant greeting with no attachment |
| Chat.Serialize | components/chat/Chat.tsx:24-40 | the same length, each message serialised in its own place |
| Chat.SerializeFaithful | components/chat/Chat.tsx:24-40 | after serialising, every attachment is a stored descriptor; serialising again changes nothing; role, content and timestamp are kept; a live file keeps its name and type; every other message is unchanged |
| Chat.SerializedPreviewMatches | components/chat/Chat.tsx:27-34 | an attachment that was stored and reloaded is shown with the same name and type as the live file it came from |
| Chat.Persist | components/chat/Chat.tsx:16-82 | a non-empty transcript whose attachments were all read and whose write was accepted is stored with every attachment serialised; an empty transcript, a rejected read or a refused write leaves storage as it was |
| Chat.PersistThenLoad | components/chat/Chat.tsx:44-82 | loading after a non-empty transcript was persisted yields its serialised form, each live attachment carrying its name, type and the data URL its read produced |
| Chat.BeginSend | components/chat/Chat.tsx:92-133 | blank text with no file changes nothing and sends nothing; otherwise the old messages are kept, one message is appended for non-blank text and one for a pending file, input, file list and pending file are cleared, and the request carries the text and the file under `file` |
| Chat.SendAppendsInOrder | components/chat/Chat.tsx:95-117 | the typed text comes first at `t`; the upload notice comes last at `t+1`, carrying the file, starting with the typed text and ending with the file's name |
| Chat.CompleteSend | components/chat/Chat.tsx:133-151 | exactly one assistant message is appended: the reply on success, the fixed "trouble connecting" text on failure; nothing else changes |
| Chat.ChatRequestsArePostedAsJson | components/chat/Chat.tsx:125-133 | every request a send makes, with or without an attachment, goes to the JSON path |
| Chat.HandleFileUpload | components/chat/Chat.tsx:154-159 | the first selected file becomes the pending file (none for an empty selection) and all selected files are appended to the list |
| Chat.RemoveFile | components/chat/Chat.tsx:161-163 | an index in range removes only that file, keeping the others in order; any other index leaves the list unchanged |
| Chat.RemoveFileTakesOne | components/chat/Chat.tsx:161-163 | the list after removal plus the removed file is the old list as a multiset, and the pending file is untouched |
| Chat.ClearChatHistory | components/chat/Chat.tsx:208-218 | without confirmation nothing changes; with it the transcript is one greeting and the stored transcript is removed |
| Chat.ClearedHistoryIsStoredAgain | components/chat/Chat.tsx:74-82 | after a confirmed clear, persisting stores exactly the new greeting, unless the write is refused, when nothing is stored |
| ChatMessage.ParseDataUrl | components/chat/ChatMessage.tsx:37-38 | a data URL without a comma is an error; a parsed header has no `;` or `,`, and the payload has no comma |
| ChatMessage.DataUrlRoundTrip | components/chat/ChatMessage.tsx:37-38 | `data:` + m + `;base64,` + p parses to MIME type m and payload p, when m has none of `,:;` and p has no comma |
| ChatMessage.KindOf | components/chat/ChatMessage.tsx:64-143 | `audio/` first, then `image/`, then exactly `application/pdf`, otherwise generic, the first match winning |
| ChatMessage.KindsDisjoint | components/chat/ChatMessage.tsx:64-143 | the PDF kind is exactly `application/pdf`, and the image kind is exactly the `image/` prefix |
| ChatMessage.CreateUrl | components/chat/ChatMessage.tsx:23 | on a registry whose live URLs were all handed out before `next`, a URL never handed out before becomes live for the blob, keeping the others |
| ChatMessage.Cleanup | components/chat/ChatMessage.tsx:29-31 | the URL the cleanup names is no longer live, every other live URL keeps its blob, and no cleanup URL changes nothing |
| ChatMessage.RunEffect | components/chat/ChatMessage.tsx:19-56 | a live file is shown with its own name and type and a new object URL; stored data is shown with the descriptor's name and type, its blob typed by the data-URL header; in both cases the cleanup names the URL created; no attachment changes nothing |
| ChatMessage.CleanupRevokesCreatedUrl | components/chat/ChatMessage.tsx:23-53 | running the effect's cleanup leaves no object URL that the effect created still live |
| ChatMessage.RenderAttachment | components/chat/ChatMessage.tsx:59-164 | a view is produced exactly when there is an attachment and an object URL; its kind follows the MIME type; the generic link shows the type or "Unknown type" |
| ChatMessage.PreviewFollowsAttachment | components/chat/ChatMessage.tsx:19-164 | after the effect, the attachment is shown, with the view chosen by its own type |
| ChatMessage.HasHtml | components/chat/ChatMessage.tsx:169 | true exactly when the content has `<`, then an ASCII letter in either case, then a `>` somewhere later |
| FileUploadZone.OnDrop | components/chat/FileUploadZone.tsx:20-22 | the old list followed by the accepted files, in order |
| FileUploadZone.RemoveAt | components/chat/FileUploadZone.tsx:38-41 | an index in range removes that element only, keeping the order; any other index leaves the list unchanged |
| FileUploadZone.RemoveAtTakesOneOut | components/chat/FileUploadZone.tsx:38-41 | the list after removal plus the removed element is the old list as a multiset |
| FileUploadZone.DropThenRemoveKeepsEarlier | components/chat/FileUploadZone.tsx:20-41 | removing one of the just-dropped files leaves the earlier files in place at the front |
| FileUploadZone.FileIcon | components/chat/FileUploadZone.tsx:43-48 | `image/` gives the image icon, then `audio/` gives music, then `video/` gives film, otherwise the document icon |
| FileUploadZone.FileIconByPrefix | components/chat/FileUploadZone.tsx:43-48 | the prefixes exclude one another: `audio/` always gives music, `video/` always gives film, and the document icon is chosen exactly when none of the three prefixes is present |
| FileUploadZone.FormatFileSize | components/chat/FileUploadZone.tsx:50-55 | a size of zero is written "0 Bytes" |
| AudioRecorder.Decimal | components/chat/AudioRecorderModal.tsx:188 | `toString` of a whole number is a non-empty digit string, one digit below 10 and two from 10 to 99 |
| AudioRecorder.DecimalValue | components/chat/AudioRecorderModal.tsx:188 | the decimal string reads back as the number |
| AudioRecorder.PadStart | components/chat/AudioRecorderModal.tsx:188 | the result is as long as the width, or the input if longer, and ends with the input |
| AudioRecorder.LeadingZerosValue | components/chat/AudioRecorderModal.tsx:188 | padding with zeros keeps the string all digits and does not change its value |
| AudioRecorder.PaddedDecimal | components/chat/AudioRecorderModal.tsx:188 | a padded decimal is all digits and reads back as the number |
| AudioRecorder.ClockRoundTrip | components/chat/AudioRecorderModal.tsx:186-188 | the padded minutes and seconds (seconds below 60), joined by a colon, read back as minutes·60 + seconds |
| AudioRecorder.FormatTime | components/chat/AudioRecorderModal.tsx:185-189 | `formatTime(seconds)`; `AudioRecorder.FormatTimeRoundTrip`, `AudioRecorder.FormatTimeParts` and `AudioRecorder.FormatTimeShape` state what it shows |
| AudioRecorder.FormatTimeRoundTrip | components/chat/AudioRecorderModal.tsx:185-189 | reading `formatTime(n)` back as `mm:ss`, the seconds field below 60, gives n |
| AudioRecorder.ClockParts | components/chat/AudioRecorderModal.tsx:188 | the padded minutes and seconds split at the colon into exactly two digit strings worth the minutes and the seconds |
| AudioRecorder.FormatTimeParts | components/chat/AudioRecorderModal.tsx:185-189 | `formatTime(n)` splits at the colon into two digit strings worth `Math.floor(n / 60)` and `n % 60` |
| AudioRecorder.ParseTimeSound | components/chat/AudioRecorderModal.tsx:185-189 | any `mm:ss` text that reads back as n holds the whole minutes of n and the remaining seconds, so each n has one reading |
| AudioRecorder.FormatTimeShape | components/chat/AudioRecorderModal.tsx:185-189 | below 6000 seconds the display is exactly five characters with the colon in the middle |
| AudioRecorder.ClockShape | components/chat/AudioRecorderModal.tsx:188 | two parts below 100 give five characters with the colon third |
| AudioRecorder.FormatTimeAtStart | components/chat/AudioRecorderModal.tsx:185-189 | zero seconds is shown as `00:00` |
| AudioRecorder.TogglePlayback | components/chat/AudioRecorderModal.tsx:153-168 | nothing happens without a recording; otherwise an audio element exists afterwards and playing flips |
| AudioRecorder.TogglePlaybackTwice | components/chat/AudioRecorderModal.tsx:153-168 | with a recording, toggling twice restores the playing state |
| AudioRecorder.HandleSend | components/chat/AudioRecorderModal.tsx:170-183 | nothing is sent without a recording or when fetching it fails; otherwise the file `voice-<now>.webm` of type `audio/webm` is sent and the modal closes, the two together |
| AudioRecorder.SentVoiceIsAudio | components/chat/AudioRecorderModal.tsx:176 | a sent voice note is classified as audio by the transcript |
| AuthService.StoreAuthTokens | services/auth.service.ts:142-152 | writes `auth_token` and `refresh_token` and no other key |
| AuthService.ClearAuthTokens | services/auth.service.ts:168-173 | removes `auth_token` and `refresh_token` and no other key |
| AuthService.GetAccessToken | services/auth.service.ts:154-159 | the stored access token when present, otherwise none |
| AuthService.GetRefreshToken | services/auth.service.ts:161-166 | the stored refresh token when present, otherwise none |
| AuthService.IsAuthenticated | services/auth.service.ts:175-177 | `isAuthenticated()`: a non-empty access token is stored; `AuthService.TokenStoreLaws` relates it to storing and clearing |
| AuthService.TokenStoreLaws | services/auth.service.ts:142-177 | stored tokens read back; the store counts as authenticated exactly when the stored access token is non-empty; after clearing, neither token remains and the store is not authenticated; clearing after storing is the same as clearing alone |
| AuthService.OnResponseError | lib/api.ts:49-86 | a failed answer with status 401 removes the access token and nothing else; any other failure leaves the store as it was |
| AuthService.ClearSubsumesResponseError | lib/api.ts:59-66 | clearing both tokens after the interceptor's removal is the same as clearing them without it, so logout, a failed refresh and a failed user fetch are unaffected by it |
| AuthService.AfterAuthRequest | services/auth.service.ts:41-80 | tokens are stored only when the request succeeded with a truthy access token; a success without one leaves the store as it was; a failure with status 401 leaves it unauthenticated with the refresh token and other keys kept; any other failure leaves it as it was |
| AuthService.CreateAccount | services/auth.service.ts:41-58 | signing up leaves the store authenticated exactly when the response carried a non-empty access token, or the store was authenticated and the request neither returned a token nor failed with 401 |
| AuthService.Login | services/auth.service.ts:63-80 | logging in leaves the store authenticated exactly when the response carried a non-empty access token, or the store was authenticated and the request neither returned a token nor failed with 401 |
| AuthService.Logout | services/auth.service.ts:85-94 | whatever the request's outcome, both tokens are gone and nothing else in the store changes |
| AuthService.RefreshAccessToken | services/auth.service.ts:114-139 | a request is made exactly when a truthy refresh token is stored, failing with "No refresh token available" otherwise; any failure clears both tokens; a success with a truthy token stores the new pair |
| AuthService.FailedRefreshSignsOut | services/auth.service.ts:133-138 | after a failed refresh the store is not authenticated and holds no refresh token |
| AuthContext.Mount | providers/AuthContext.tsx:37-39 | only the mounted flag changes |
| AuthContext.SetUser | providers/AuthContext.tsx:42-48 | sets the user, and authenticated exactly when the user is not null; nothing else changes |
| AuthContext.SetBusiness | providers/AuthContext.tsx:51-56 | changes only the business |
| AuthContext.SetTokens | providers/AuthContext.tsx:59-68 | sets both token fields and no other session field; storage is written only when mounted |
| AuthContext.ClearAuth | providers/AuthContext.tsx:71-76 | the session becomes the default state; storage is cleared only when mounted |
| AuthContext.RefreshAuth | providers/AuthContext.tsx:79-92 | nothing when not mounted; a fetched user is set; a failed fetch is exactly `clearAuth()`: the default session, both tokens removed and every other key kept |
| AuthContext.InitializeAuth | providers/AuthContext.tsx:95-126 | nothing when not mounted; otherwise loading ends; with both tokens and a fetched user the session is authenticated with no business and the stored tokens; with tokens but a failed fetch it is the default session, not loading, with storage cleared; without both tokens only loading changes |
| AuthContext.InitializedSessionMatchesStore | providers/AuthContext.tsx:95-126 | from the default state, the session comes out authenticated exactly when both tokens were stored and the fetch succeeded, and then holds exactly the stored tokens with the store untouched; otherwise it is the default session, no longer loading |
| AuthContext.ClearAuthForgets | providers/AuthContext.tsx:71-76 | clearing twice is clearing once, and clearing after any user, business and tokens were set yields the default session and, when mounted, the same store as clearing alone |
| AuthMutations.ApplyAuthResponse | hooks/useAuthMutations.ts:33-42 | the response's user becomes the authenticated user, its business replaces the old one only when present, and its tokens are set and, when mounted, stored over the old ones with every other key kept |
| AuthMutations.AuthMutation | hooks/useAuthMutations.ts:31-46 | a failed request leaves the session untouched and the store as the interceptor left it; a successful one authenticates the returned user with the response's tokens, takes its business only when present, keeps the loading and mounted flags, and, when mounted, leaves the store holding exactly the response's tokens over the old store (otherwise the service's store) |
| AuthMutations.UnauthorizedLoginDesyncs | hooks/useAuthMutations.ts:52-67 | a signed-in login that fails with 401 leaves the session claiming authentication while the store has lost its access token and kept its refresh token |
| AuthMutations.AuthMutationsAgree | hooks/useAuthMutations.ts:28-70 | sign-up and login have the same effect on the session and on the store |
| AuthMutations.LogoutMutation | hooks/useAuthMutations.ts:75-89 | the session ends in the default state and the store holds no tokens |
| AuthMutations.LogoutIgnoresOutcome | hooks/useAuthMutations.ts:78-87 | logout has the same effect whether the request succeeds or fails |

## Left out

- Formik's own `prepareDataForValidation` is library code and is not part
  of this model. Its one effect on these forms is modelled by
  `Schemas.Prepared`: an empty string becomes `undefined`. Nested objects and
  arrays do not occur in these forms.
- String lengths count characters, not UTF-16 code units. The inputs here are
  ASCII; this matters only for astral-plane characters.
- The `typeof window` checks for server-side rendering are left out. The
  model is the browser case, except where mounting is part of the logic
  (`AuthContext`).
- `lib/api.ts` is modelled only through the token-store effect of its
  response interceptor (`AuthService.OnResponseError`). The base URL, the
  timeout, the request interceptor's `Authorization` header and the logging
  are left out; requests are outcome parameters.
- The interceptor also removes the access token when the business
  verification of onboarding, the onboarding sign-up, or a chat request
  fails with 401. The onboarding and chat models do not hold the token
  store, so that effect is not modelled there.
- `getCurrentUser` and `verifyInvitationCode` are not modelled beyond their
  outcomes. The business verification mutation has no onSuccess effect on
  the session, so no member stands for it.
- Timers are left out: the token-refresh interval, the recorder's duration
  counter, `requestAnimationFrame`, and the voice-send `setTimeout`
  re-entry. They are timing behaviour.
- MediaRecorder, AudioContext and the waveform sampling are left out. They
  are browser APIs and floating point.
- FileUploadZone.FormatFileSize: sizes other than zero go through
  `Math.log`, `Math.pow` and rounding of floating-point numbers. They are a
  parameter of the function rather than modelled.
- The dropzone's `accept` and `maxSize` filtering is done inside
  react-dropzone. `DefaultMaxSize` records the default of 10485760 bytes;
  `onDrop` is modelled on the files the library accepted.
- Base64 decoding (`atob`) and the byte copy into a blob are left out. The
  model keeps the payload text and the MIME type from the header. JSON
  parsing and serialisation are taken to be faithful.
- A stored attachment missing its `data`, `name` or `type` field, which only
  a hand-edited storage entry can produce, is not modelled.
- The `fileType` field of a chat message is never set by the code and is not
  modelled.
- An `undefined` `response.data.response` in a successful chat reply is not
  modelled; the reply is taken to be a string.
- `isLoading`, disabled buttons and the spinner texts are left out. They
  guard against double submission, which is concurrency.
- Concurrency is left out: re-entrant submits and interleaved responses.
  Calls are sequential.
- DOMPurify sanitisation is left out. Only the test that decides whether
  content is HTML is modelled.
- `setErrors`, which the onboarding hook exposes unchanged from React, is
  not modelled. Only the transitions set errors.
- The presentational parts of the forms (field captions, helper texts, the
  selectors) are left out. The option lists are modelled through the auth
  types.
