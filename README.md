# National-client registration wizard

This project models the national-client registration flow of the
father-client web application (`ClienteNacional`). Step by step, it:

- looks up a company by its CNPJ (the Brazilian company registry number);
- collects the company's national data when the company is new;
- looks up an email;
- collects one or more contacts;
- asks whether a FatherID account is wanted;
- when no account is wanted, sends the company and every contact to the
  back end.

It also models two stand-alone forms that live beside the wizard: the
password form and the collaborator registration page.

The model is split into these modules:

- `WizardTypes`: the step enum, the contact, the accumulated form record and
  the partial record every step hands to `handleNext`. An optional
  TypeScript property is an `Option`.
- `Text` and `CnpjValidation`: digit extraction and `validateCNPJ`.
- `CnpjInfoForm`, `NacionalDataForm`, `ContactDataForm`,
  `ContactDataPlusForm` and `StepForms`: each step form as a function. A
  form takes what the user typed, plus the outside answers it depends on,
  and returns the partial record it hands on, or nothing when its schema
  rejects the input or its lookup throws.
- `ClienteNacional`: the component itself.
  - `Merge` is the object spread of `handleNext`.
  - `NextStep` and `PrevStep` are its two `switch`es.
  - `PlannedRequests` and `Attempted` are the requests `enviarDados` makes.
  - The class `ClienteNacionalWizard` holds the three `useState` cells and
    the methods `HandleNext`, `HandleBack` and `EnviarDados` that update
    them.
  - `Transition` is one user action on the mounted component as a value.
- `Traces` and `WizardRuns`: runs of the wizard over sequences of actions.
  - An invariant holds in every reachable state.
  - One main path is worked out end to end.
  - The actual behaviour of back navigation and of the closing step is
    stated.
- `PasswordForm` and `ColaboradorPage`: the two other forms as classes
  over their state, with loops where the source loops.

Outside answers are parameters:

- the CNPJ and email existence lookups are `string -> Result<bool>`
  (`Failure` means the call threw);
- the email-format check is `isEmail`;
- each HTTP send is `Request -> bool` (false means the call threw);
- password creation is `(string, string) -> bool`.

JavaScript truthiness is spelled out:

- `IsTrue(o)` is `o === true`;
- `IsFilled(o)` is a present, non-empty string;
- `OrEmpty(o)` is `o || ''`.

Some of the code behaves differently from the wizard's intended design.
The model follows the code, and the lemmas state what the code does:

- There is no terminal step. "Concluir" at the FatherID step sends the data
  and stays at FatherID. Pressing it again replans the same requests from
  the unchanged record and attempts every one of them afresh, company first,
  whatever the network answered the first time (`WizardRuns.Conclude`,
  `WizardRuns.ConcludeTwice`).
- Choosing to create a FatherID account only records the choice. There is
  no password step in the wizard (`WizardRuns.CreateAccountDoesNothing`).
- `enviarDados` sets the error message when a send throws. `handleNext`
  then sets the success message right after it, so the success message is
  shown whatever happened.
- "Voltar" is not the inverse of "Próximo" (`ClienteNacional.BackAfterNext`).
  The first contact form stamps the looked-up email on its contact, so
  `handleBack` at MoreContact never chooses ContactData in a reachable
  state (`WizardRuns.BackFromMoreContact`).
- The phone pattern of the contact forms accepts unbalanced parentheses
  around the area code (`ContactDataForm.UnbalancedParenthesisAccepted`,
  `ContactDataForm.UnbalancedClosingAccepted`).

## Model

| member | source | states |
|---|---|---|
| Wrappers.OrEmpty | src/pages/register/clienteNacional/clienteNacional.tsx:44-60 | `o \|\| ''`: the value when present, otherwise the empty string |
| Text.Digits | src/utils/validateCNPJ.ts:10 | the result holds only digits and is no longer than the input |
| Text.DigitsAppend | src/utils/validateCNPJ.ts:10 | removing non-digits distributes over concatenation |
| Text.DigitsIdempotent | src/utils/validateCNPJ.ts:10 | cleaning an already cleaned string changes nothing |
| Text.DigitsIgnoresNonDigit | src/utils/validateCNPJ.ts:10 | inserting a non-digit character anywhere does not change the cleaned string |
| CnpjValidation.ValidateCNPJ | src/utils/validateCNPJ.ts:8-22 | an accepted CNPJ has exactly 14 digits, not all equal to the first |
| CnpjValidation.ValidateCNPJIff | src/utils/validateCNPJ.ts:8-22 | accepted exactly when the cleaned input has 14 digits and they are not all the same digit (both directions) |
| CnpjValidation.ValidateCNPJOfDigits | src/utils/validateCNPJ.ts:10 | formatting characters do not affect the verdict: validating the cleaned string gives the same answer |
| CnpjValidation.ValidateCNPJIgnoresNonDigit | src/utils/validateCNPJ.ts:10 | inserting any non-digit anywhere never changes the verdict |
| CnpjValidation.RejectsUniformDigits | src/utils/validateCNPJ.ts:19 | a run of one repeated digit is always rejected |
| WizardTypes.AllSteps | src/pages/register/clienteNacional/types.ts:3-11 | the step enum has seven pairwise distinct values |
| WizardTypes.AllStepsExhaustive | src/pages/register/clienteNacional/types.ts:3-11 | every step is one of those seven |
| CnpjInfoForm.Masked | src/pages/register/clienteNacional/components/cnpjInfo.tsx:114-115 | the input mask `99.999.999/9999-99` fills 14 digits into an 18-character string |
| CnpjInfoForm.MaskedRoundTrip | src/pages/register/clienteNacional/components/cnpjInfo.tsx:114-115 | a masked value matches the schema's format, and cleaning it gives back the 14 digits |
| CnpjInfoForm.FormatIsMasked | src/pages/register/clienteNacional/components/cnpjInfo.tsx:41 | every string matching the format regex holds 14 digits and is exactly the mask applied to them |
| CnpjInfoForm.CnpjSchemaIff | src/pages/register/clienteNacional/components/cnpjInfo.tsx:38-47 | the schema passes exactly when the value is in masked form and its digits are not all equal |
| CnpjInfoForm.Submit | src/pages/register/clienteNacional/components/cnpjInfo.tsx:79-100 | hands on a result exactly when the schema passes and the lookup answers. The result holds the cleaned, valid 14-digit CNPJ whose mask is the typed value, the lookup's answer, and nothing else |
| NacionalDataForm.CepShape | src/pages/register/clienteNacional/components/nacionalData.tsx:37 | an accepted CEP is its 8 digits, with or without a hyphen before the last three |
| NacionalDataForm.CepAcceptsBothForms | src/pages/register/clienteNacional/components/nacionalData.tsx:37 | any 8 digits are accepted both bare and hyphenated |
| NacionalDataForm.Submit | src/pages/register/clienteNacional/components/nacionalData.tsx:62-75 | hands on exactly the ten company fields, exactly when the schema passes |
| ContactDataForm.ParsePhone | src/components/forms/contactData.tsx:27 | every phone the pattern accepts splits into well-formed parts that render back to it |
| ContactDataForm.RenderAccepted | src/components/forms/contactData.tsx:27 | every well-formed set of parts renders to a phone the pattern accepts (the converse of `ParsePhone`) |
| ContactDataForm.PhoneDigitCount | src/components/forms/contactData.tsx:27 | an accepted phone holds 10 or 11 digits |
| ContactDataForm.UnbalancedParenthesisAccepted | src/components/forms/contactData.tsx:27 | the pattern accepts an opening parenthesis without its closing one |
| ContactDataForm.UnbalancedClosingAccepted | src/components/forms/contactData.tsx:27 | the pattern accepts a closing parenthesis without its opening one |
| ContactDataForm.Submit | src/components/forms/contactData.tsx:57-69 | hands on one contact with the typed fields and the email passed in by the wizard, exactly when the schema passes |
| ContactDataPlusForm.Submit | src/components/forms/contactDataPlus.tsx:57-69 | hands on one contact with the typed fields and its own checked email, exactly when the schema passes |
| StepForms.EmailSubmit | src/components/forms/emailInfo.tsx:35-45 | hands on the email and the lookup's answer exactly when the schema passes and the lookup does not throw |
| StepForms.MoreContactChoice | src/components/forms/moreContact.tsx:18-29 | each button hands on only `addMoreContacts` |
| StepForms.FatherIDChoice | src/components/forms/fatherID.tsx:15-21 | each button hands on only `desejaCriarFatherID` |
| ClienteNacional.Merge | src/pages/register/clienteNacional/clienteNacional.tsx:103-107 | every field the step supplies replaces the old one and every other is kept; the contacts are the old list followed by the step's contacts |
| ClienteNacional.MergeIdempotent | src/pages/register/clienteNacional/clienteNacional.tsx:103-107 | merging the same contact-free result twice equals merging it once |
| ClienteNacional.MergeNothing | src/pages/register/clienteNacional/clienteNacional.tsx:103-107 | merging `{}` leaves the record unchanged |
| ClienteNacional.NacionalMergeKeepsContacts | src/pages/register/clienteNacional/clienteNacional.tsx:103-107 | the company-data result leaves the contacts untouched and is idempotent |
| ClienteNacional.NextStep | src/pages/register/clienteNacional/clienteNacional.tsx:115-188 | the step stays put exactly at FatherID, or when a lookup step's result lacks its flag; nothing leads back to CnpjInfo |
| ClienteNacional.NextStepTable | src/pages/register/clienteNacional/clienteNacional.tsx:115-188 | the forward transition table, edge by edge |
| ClienteNacional.PrevStep | src/pages/register/clienteNacional/clienteNacional.tsx:194-233 | "Voltar" stays put only at CnpjInfo and never leads to FatherID |
| ClienteNacional.BackAfterNext | src/pages/register/clienteNacional/clienteNacional.tsx:194-233 | exactly when back after next returns to the starting step: always from CnpjInfo and MoreContact, never from NacionalData and FatherID, otherwise only under the stated flag and last-contact conditions |
| ClienteNacional.CleanedCompanyID | src/pages/register/clienteNacional/clienteNacional.tsx:68 | the company id is the digits of the CNPJ, or empty when there is none |
| ClienteNacional.AddressOf | src/pages/register/clienteNacional/clienteNacional.tsx:56-58 | the address line is non-empty exactly when all four parts are filled, and then it is the composed line |
| ClienteNacional.CompanyInfoOf | src/pages/register/clienteNacional/clienteNacional.tsx:44-60 | each payload field comes from its record field or is the fixed constant; the subsegment list has at most one element |
| ClienteNacional.ContactInfoOf | src/pages/register/clienteNacional/clienteNacional.tsx:71-78 | the contact payload renames the fields, defaults the email to `''` and carries the company id |
| ClienteNacional.ContactRequests | src/pages/register/clienteNacional/clienteNacional.tsx:70-83 | one request per contact, in list order |
| ClienteNacional.PlannedRequests | src/pages/register/clienteNacional/clienteNacional.tsx:39-93 | the company request first, then one request per contact under the same cleaned id |
| ClienteNacional.Attempted | src/pages/register/clienteNacional/clienteNacional.tsx:39-93 | the requests made are a prefix of the plan; all but the last went through, and a shorter prefix ends with the one that threw |
| ClienteNacional.AttemptedAll | src/pages/register/clienteNacional/clienteNacional.tsx:39-93 | everything is sent when nothing throws, and conversely when the last request also went through |
| ClienteNacional.AttemptedStopsAt | src/pages/register/clienteNacional/clienteNacional.tsx:70-83 | when the first k requests succeed and request k throws, exactly k + 1 requests are made |
| ClienteNacional.AttemptedCons | src/pages/register/clienteNacional/clienteNacional.tsx:65 | a request that throws ends the sending; one that succeeds is followed by the rest |
| ClienteNacional.SendContacts | src/pages/register/clienteNacional/clienteNacional.tsx:70-83 | the loop makes exactly the attempted contact requests and reports whether all went through |
| ClienteNacional.SendAll | src/pages/register/clienteNacional/clienteNacional.tsx:39-93 | the sends are exactly the attempted prefix of the plan, and success means every planned request went through |
| ClienteNacional.Emitted | src/pages/register/clienteNacional/clienteNacional.tsx:242-248 | only the form rendered for the current step can hand on a result |
| ClienteNacional.Next | src/pages/register/clienteNacional/clienteNacional.tsx:99-189 | one `handleNext`: merged record, next step, and sends plus the success message only when concluding |
| ClienteNacional.Transition | src/pages/register/clienteNacional/clienteNacional.tsx:99-233 | "Voltar" changes only the step; only a conclusion sends anything; a rejected form or a failed lookup changes nothing |
| ClienteNacional.ClienteNacionalWizard.constructor | src/pages/register/clienteNacional/clienteNacional.tsx:24-34 | mounting starts at CnpjInfo with no contacts and no message |
| ClienteNacional.ClienteNacionalWizard.EnviarDados | src/pages/register/clienteNacional/clienteNacional.tsx:39-93 | makes the attempted requests and sets the success or the error message by whether all went through |
| ClienteNacional.ClienteNacionalWizard.HandleNext | src/pages/register/clienteNacional/clienteNacional.tsx:99-189 | the new record is the merge, the new step is `NextStep`, and at a conclusion the success message is set after sending |
| ClienteNacional.ClienteNacionalWizard.HandleBack | src/pages/register/clienteNacional/clienteNacional.tsx:194-233 | only the step changes, to `PrevStep` |
| ClienteNacional.ClienteNacionalWizard.Act | src/pages/register/clienteNacional/clienteNacional.tsx:242-267 | one user action on the component agrees with `Transition` |
| WizardRuns.TransitionKeepsContacts | src/pages/register/clienteNacional/clienteNacional.tsx:103-107 | an action can only append contacts |
| WizardRuns.RunKeepsContacts | src/pages/register/clienteNacional/clienteNacional.tsx:103-107 | over any run the contact list only grows at its end |
| WizardRuns.InvInitial | src/pages/register/clienteNacional/clienteNacional.tsx:24-34 | the mounted state satisfies the invariant |
| WizardRuns.EmittedContactsOk | src/pages/register/clienteNacional/clienteNacional.tsx:242-248 | every contact a form hands on has its fields filled, an accepted phone and a checked email |
| WizardRuns.InvStep | src/pages/register/clienteNacional/clienteNacional.tsx:99-233 | every action keeps the invariant (valid 14-digit CNPJ, checked email, well-formed contacts, data present for the step) |
| WizardRuns.InvRun | src/pages/register/clienteNacional/clienteNacional.tsx:99-233 | every run keeps the invariant |
| WizardRuns.Reachable | src/pages/register/clienteNacional/clienteNacional.tsx:24-233 | every state reachable from mounting satisfies the invariant |
| WizardRuns.BackFromMoreContact | src/pages/register/clienteNacional/clienteNacional.tsx:210-222 | in a reachable state, "Voltar" at MoreContact never goes to ContactData |
| WizardRuns.ContactDataThenBack | src/pages/register/clienteNacional/clienteNacional.tsx:245 | after the first contact, "Voltar" leads to the additional-contact form, not back |
| WizardRuns.ContactPlusThenBack | src/pages/register/clienteNacional/clienteNacional.tsx:210-222 | after an additional contact, "Voltar" returns to the additional-contact form |
| WizardRuns.LookupFailureChangesNothing | src/pages/register/clienteNacional/components/cnpjInfo.tsx:95-99 | a lookup that throws leaves the whole state unchanged and sends nothing |
| WizardRuns.PlannedIgnoresChoice | src/pages/register/clienteNacional/clienteNacional.tsx:44-83 | the payloads do not depend on the account choice |
| WizardRuns.Conclude | src/pages/register/clienteNacional/clienteNacional.tsx:168-182 | "Concluir" sends the attempted plan, stays at FatherID and always shows the success message |
| WizardRuns.ConcludeTwice | src/pages/register/clienteNacional/clienteNacional.tsx:168-182 | a second "Concluir", with its own network answers, attempts the same planned requests again, company request first, and leaves the record and the step as they are |
| WizardRuns.CreateAccountDoesNothing | src/pages/register/clienteNacional/clienteNacional.tsx:168-182 | "Criar" only records the choice |
| WizardRuns.PlannedRequestsWellFormed | src/pages/register/clienteNacional/clienteNacional.tsx:39-93 | in a reachable state at FatherID, the company id is a valid 14-digit CNPJ shared by all contacts, and each contact has an accepted phone and a checked email |
| WizardRuns.EnterCnpjStep | src/pages/register/clienteNacional/clienteNacional.tsx:116-126 | an accepted CNPJ records the cleaned number and the answer, and moves by the answer |
| WizardRuns.EnterNacionalDataStep | src/pages/register/clienteNacional/clienteNacional.tsx:128-131 | accepted company data records its ten fields and moves to EmailInfo |
| WizardRuns.EnterEmailStep | src/pages/register/clienteNacional/clienteNacional.tsx:133-143 | an accepted email records the email and the answer, and moves by the answer |
| WizardRuns.EnterContactStep | src/pages/register/clienteNacional/clienteNacional.tsx:145-148 | an accepted first contact is appended with the recorded email, then MoreContact |
| WizardRuns.DeclineMoreContactsStep | src/pages/register/clienteNacional/clienteNacional.tsx:155-166 | declining more contacts leads to FatherID |
| WizardRuns.NewCompanyCompanySteps | src/pages/register/clienteNacional/clienteNacional.tsx:116-131 | a new CNPJ and the company data reach EmailInfo silently |
| WizardRuns.NewCompanyContactSteps | src/pages/register/clienteNacional/clienteNacional.tsx:133-166 | a new email, one contact and "no more" reach FatherID silently |
| WizardRuns.NewCompanyPath | src/pages/register/clienteNacional/clienteNacional.tsx:115-166 | the first five actions of the main path reach FatherID without sending |
| WizardRuns.NewCompanyConcludes | src/pages/register/clienteNacional/clienteNacional.tsx:168-182 | concluding there sends the company and then the contact, and shows the success message |
| WizardRuns.NewCompanyOneContact | src/pages/register/clienteNacional/clienteNacional.tsx:99-189 | the whole six-action main path ends at FatherID with exactly two requests, the company then the contact |
| PasswordForm.PasswordError | src/components/forms/password.tsx:29-38 | the password passes exactly when the two entries agree and it has at least 6 characters; a mismatch is reported first |
| PasswordForm.ChecksDistinguishable | src/components/forms/password.tsx:30-38 | the error message tells which check failed |
| PasswordForm.PasswordPage.constructor | src/components/forms/password.tsx:24-26 | empty fields and no error |
| PasswordForm.PasswordPage.SetSenha | src/components/forms/password.tsx:80 | typing sets the password |
| PasswordForm.PasswordPage.SetConfirmarSenha | src/components/forms/password.tsx:95 | typing sets the confirmation |
| PasswordForm.PasswordPage.HandleSubmit | src/components/forms/password.tsx:29-60 | rejects with the check's message, or forwards the password to the parent, or calls the service with the email (defaulting to `''`): on success it navigates to `/success`, and when the call throws it sets the error message |
| ColaboradorPage.PhoneDigitCount | src/pages/register/colaborador/colaborador.tsx:39 | an accepted phone holds 2 to 15 digits and nothing else except a leading `+` |
| ColaboradorPage.ScanEmails | src/pages/register/colaborador/colaborador.tsx:94-101 | all emails are new exactly when every lookup answers "unknown"; otherwise the scan reports the first registered email or the first lookup that threw |
| ColaboradorPage.ScanReportsFirst | src/pages/register/colaborador/colaborador.tsx:94-101 | the scan names the first registered email, not a later one |
| ColaboradorPage.RegisteredBlocksSend | src/pages/register/colaborador/colaborador.tsx:94-101 | a registered email anywhere in the list prevents the send |
| ColaboradorPage.Page.constructor | src/pages/register/colaborador/colaborador.tsx:64-86 | one blank card, not loading, no error |
| ColaboradorPage.Page.AddColaborador | src/pages/register/colaborador/colaborador.tsx:116-125 | appends one blank card |
| ColaboradorPage.Page.RemoveColaborador | src/pages/register/colaborador/colaborador.tsx:132-137 | removes the card only while there is more than one, so the list is never empty |
| ColaboradorPage.Page.SetColaborador | src/pages/register/colaborador/colaborador.tsx:129-181 | editing replaces exactly that card |
| ColaboradorPage.Page.Submit | src/pages/register/colaborador/colaborador.tsx:88-113 | sends the whole list once when the schema passes and no email is registered; otherwise reports the first registered email or the generic error; loading always ends |

## Left out

- Rendering, JSX, styling, `console` logging, `alert` and navigation are not modelled. The password form's navigation to the success page is the `Created` outcome.
- The HTTP services are oracles. Whatever they do inside is not part of this model, for example the email lookup returning `contactExists || userExists` and the collaborator service trimming and lower-casing emails.
- In a run over a list of actions (`WizardRuns.Run`) the outside answers come from one environment, so the same lookup or send asked twice gets the same answer. A network whose answer to a repeated call changes is modelled only where a lemma takes a second environment, as `WizardRuns.ConcludeTwice` does for the second press.
- The email-format check of zod's `.email()` is the uninterpreted predicate `isEmail`.
- react-hook-form's machinery (registration, resolvers, field arrays, error display) is not modelled. A form is modelled as its schema followed by its submit handler.
- `await` and React's batched state updates are modelled as atomic sequential steps. Two overlapping submissions are not modelled.
- ClienteNacional.ClienteNacionalWizard.HandleNext: the `default` branch of the source's `switch` cannot be reached with the seven-valued enum, so it has no counterpart.
- The collaborator's `isLoading` is true only while `onSubmit` runs. ColaboradorPage.Page.Submit states only that it is false again afterwards.
- The collaborator's birthday is an optional opaque day number. Date parsing and the calendar widget are left out.
- String lengths are counted in characters, not UTF-16 code units. The two differ only outside the Basic Multilingual Plane.
- `src/types/types.ts`, `segment.tsx`, the stakeholder page, the home and register pages and the router are not part of this model.
