# graphql_devise: operation sanitising and registration, in Dafny

This project models two parts of graphql_devise, a Ruby gem that exposes
Devise authentication (register, login, confirm, ...) as GraphQL mutations,
one set per mounted resource (identity model: `User`, `Guest`, `Admin`, ...).
The behaviour modelled is the behaviour its specs pin down.

1. **Operation sanitising** (`OperationSanitizer`). `OperationSanitizer.call`
   takes the default operations of a resource, custom handlers, an `only`
   list and a `skipped` list. Custom handlers replace defaults only for keys
   the defaults already have; unknown custom keys are dropped. Then `only`
   keeps the listed keys, or `skipped` removes the listed keys.
2. **Registration** (`Registration`, `RegistrationProperties`, `Schema`).
   The `<resource>Register` mutation and `confirm_by_token` are modelled as
   pure transitions over a store. The store holds one table of accounts per
   resource, in creation order, and the list of delivered confirmation mails.
   - A confirmable resource (users) requires the confirmation URL to be
     one of the literal entries of its safelist. It validates the email after lower-casing the
     case-insensitive fields. It stores an unconfirmed account, mails a
     confirmation token and returns no credentials.
   - A non-confirmable resource (guests) stores the account, records a token
     for a new client, and returns credentials whose `uid` is the stored email.
   - A resource whose `register` operation was sanitised away (admins) has no
     register field, so the call fails.

Files:
- `wrappers.dfy`: `Option`.
- `text.dfy`: ASCII lower-casing and the Rails notion of a blank string.
- `operation_sanitizer.dfy`: `Sanitize`, a loop version of it, and its properties.
- `registration.dfy`: data model, `Register`, `ConfirmByToken`, the store invariant.
- `registration_properties.dfy`: the register and confirm scenarios as lemmas over all inputs.
- `schema.dfy`: mounting a resource with sanitised operations, and the register field.

Random values (confirmation token, client id, access token) are parameters
(`Fresh`). The lemmas that need them unused say so (`TokenUnused`). The
clock is the `now` parameter of `ConfirmByToken`.

## Model

| member | source | states |
|---|---|---|
| OperationSanitizer.Sanitize | spec/operation_sanitizer_spec.rb:5-37 | result keys are the default keys kept by `only`/`skipped`; each maps to the custom handler if one is given, else the default handler; never a key outside the defaults |
| OperationSanitizer.SanitizeByWalk | spec/operation_sanitizer_spec.rb:5 | walking the default keys one by one builds exactly the sanitised map |
| OperationSanitizer.DefaultsOnlyIsIdentity | spec/operation_sanitizer_spec.rb:17-19 | with empty custom, only and skipped the result equals the defaults |
| OperationSanitizer.CustomOverridesOnlyExistingKeys | spec/operation_sanitizer_spec.rb:21-24 | a custom handler for a default key replaces it; a key absent from the defaults (`bad_operation`) is absent from the result |
| OperationSanitizer.UnmentionedDefaultsKept | spec/operation_sanitizer_spec.rb:24 | a default key with no custom handler keeps its default handler (`operation2` stays `op_class2`) |
| OperationSanitizer.UnknownCustomKeysIgnored | spec/operation_sanitizer_spec.rb:22-24 | dropping the custom entries unknown to the defaults changes nothing |
| OperationSanitizer.OnlyRestrictsToListed | spec/operation_sanitizer_spec.rb:27-30 | a non-empty `only` keeps exactly the listed default keys with their handlers |
| OperationSanitizer.SkippedRemovesListed | spec/operation_sanitizer_spec.rb:33-36 | `skipped` removes the listed keys and keeps every other entry unchanged |
| OperationSanitizer.FilterThenMergeAgrees | spec/operation_sanitizer_spec.rb:5 | filtering the defaults before the custom overlay gives the same map as filtering after it |
| OperationSanitizer.SanitizerScenarios | spec/operation_sanitizer_spec.rb:11-38 | the four contexts of the spec on `operation1`/`operation2` give the expected maps |
| Registration.ValidationErrors | spec/requests/mutations/register_spec.rb:90-105 | no errors exactly when the email is present and unused; a blank email gives the single error "Email can't be blank" |
| Registration.Register | spec/requests/mutations/register_spec.rb:34-107 | registration succeeds iff the redirect is allowed, the email is not blank and not taken; failures change nothing and carry `USER_ERROR`; success appends one account with the normalised email and no confirmation date; credentials are present iff the account may sign in; confirmable resources mail the token, others issue credentials for the new client |
| Registration.FindByConfirmationToken | spec/requests/mutations/register_spec.rb:76 | returns a position holding the token, or none exactly when no account holds it |
| Registration.ConfirmByToken | spec/requests/mutations/register_spec.rb:72-76 | an unknown token is rejected with the store unchanged; otherwise the account holding the token is stamped confirmed, its token spent, and returned |
| RegistrationProperties.RegisterPreservesValid | spec/requests/mutations/register_spec.rb:52-57 | registration with an unused token keeps ids = positions, unique emails and unique pending tokens |
| RegistrationProperties.ConfirmPreservesValid | spec/requests/mutations/register_spec.rb:76 | confirmation keeps that invariant |
| RegistrationProperties.RedirectNotAllowedRejected | spec/requests/mutations/register_spec.rb:34-49 | an unsafelisted confirmation URL gives exactly the error "Redirect to '<url>' not allowed." with code `USER_ERROR`, no new account, no new mail |
| RegistrationProperties.BlankEmailRejected | spec/requests/mutations/register_spec.rb:90-106 | a blank email gives "User couldn't be registered" with detailed errors ["Email can't be blank"], no data, no new account, no new mail |
| RegistrationProperties.ConfirmableRegistration | spec/requests/mutations/register_spec.rb:52-70 | valid parameters on a confirmable resource add one account and one mail; credentials are absent, `confirmed_at` is null, the account cannot sign in, it is the last account, with the normalised email and the given name |
| RegistrationProperties.CaseInsensitiveEmailStored | spec/requests/mutations/register_spec.rb:79-86 | with email case-insensitive, the returned and the stored email are the lower-cased input |
| RegistrationProperties.ConfirmWithMailedToken | spec/requests/mutations/register_spec.rb:72-76 | confirming with the token of the mail just sent returns the account just registered (same id and email), now confirmed |
| RegistrationProperties.ConfirmTwiceRejected | spec/requests/mutations/register_spec.rb:76 | a token that confirmed an account is refused the second time; the specs confirm only once, so this rests on the spent-token rule under "Left out" (Registration.ConfirmByToken) |
| RegistrationProperties.NonConfirmableRegistration | spec/requests/mutations/register_spec.rb:154-163 | a guest registration adds one account, sends no mail, returns credentials whose uid is the stored email and whose client is the only key of the guest's tokens |
| RegistrationProperties.NonConfirmableUidIsEmail | spec/requests/mutations/register_spec.rb:157-161 | for an email without capitals, the credentials' uid is the email exactly as given |
| RegistrationProperties.CaseVariantEmailRejected | spec/requests/mutations/register_spec.rb:79-86 | a second registration whose email differs only in letter case is refused with "Email has already been taken" and changes nothing; the specs register once only, so this combines the lower-casing of lines 79-86 with the duplicate-email rule under "Left out" (Registration.Register) |
| Schema.RegisterMutation | spec/requests/mutations/register_spec.rb:110-133 | without a register operation the mutation fails with "Field '<resource>Register' doesn't exist on type 'Mutation'" and no store change; otherwise it is `Register` |
| Schema.RegisterExposedIff | spec/requests/mutations/register_spec.rb:129-133 | the register field exists iff the defaults have it, `only` allows it and `skipped` does not name it |
| Schema.SkippedRegisterIsMissingField | spec/requests/mutations/register_spec.rb:127-133 | mounting with `register` skipped makes every register call a missing-field failure that leaves the store alone |
| Schema.AdminRegisterSkipped | spec/requests/mutations/register_spec.rb:129-132 | for the admin resource the failure names the field `adminRegister` |
| Text.Downcase | spec/requests/mutations/register_spec.rb:79-86 | the lower-cased string has the same length, and each character is lower-cased if it is an ASCII capital and unchanged otherwise |
| Text.Blank | spec/requests/mutations/register_spec.rb:90-105 | the empty string is blank, and a string is blank exactly when every character in it is whitespace, whitespace being the Unicode White_Space characters (U+0009-U+000D, space, U+0085, U+00A0, U+1680, U+2000-U+200A, U+2028, U+2029, U+202F, U+205F, U+3000) |
| Registration.Normalize | spec/requests/mutations/register_spec.rb:79-86 | a case-insensitive field is stored with no capitals and differs from the input only in letter case; any other field is stored as given |
| Registration.ActiveForAuthentication | spec/requests/mutations/register_spec.rb:61 | an account of a non-confirmable resource may always sign in; an account of a confirmable resource may sign in exactly when it has been confirmed |
| Schema.Mount | spec/requests/mutations/register_spec.rb:110-133 | a mounted resource exposes exactly the default operations that `only` and `skipped` keep; each uses its custom handler when one is given and its default handler otherwise |
| Registration.RedirectAllowed | spec/requests/mutations/register_spec.rb:34-49 | a non-confirmable resource accepts any redirect; a confirmable one refuses a missing confirmation URL and accepts a given one exactly when it is in the safelist |
| Text.DowncasePreservesBlank | spec/requests/mutations/register_spec.rb:91-103 | lower-casing a string does not change whether it is blank, so normalising never hides or creates a blank email |
| Text.MixedCaseEmailExample | spec/requests/mutations/register_spec.rb:80-84 | `miaWallace@wallaceinc.com` lower-cases to `miawallace@wallaceinc.com` |
| Text.DowncaseIdempotent | spec/requests/mutations/register_spec.rb:82-85 | normalising an already normalised email changes nothing |
| Text.DowncaseIgnoresCase | spec/requests/mutations/register_spec.rb:79-86 | strings that, position by position, are the same character or the same letter in the other case normalise to the same email |

## Left out

- GraphQL query text, schema execution and the JSON envelope: only the abstract outcome (`Registered` or `Failed` with message, code and detailed errors) is modelled.
- ActiveRecord persistence: a table is a sequence of accounts; `User.count` is its length and `User.last` its last element. Ids start at 0.
- Password handling (`password`, `passwordConfirmation`, `valid_password?`, Devise password validations): password hashing is Devise's; parameters carry no password.
- Email format validation and whitespace stripping of the email: Devise behaviour not pinned by the specs.
- Mail rendering and extracting the token from the link: a mail is a record of resource, account id, token and redirect.
- Random tokens and client ids, and token expiry and hashing: fresh values are parameters; a token record holds the access token as is.
- Text.Downcase: lower-cases ASCII letters only; Ruby's `downcase` also folds non-ASCII letters, and full Unicode case mapping is a table far larger than the behaviour the specs exercise.
- OperationSanitizer.Sanitize: requires that `only` and `skipped` are not both non-empty. No spec combines them, so no precedence between them is modelled.
- Registration.Register: a confirmable registration without any confirmation URL is refused with a placeholder message; the specs always pass a URL, so the wording is not known.
- Registration.Register: an email already taken is refused with "Email has already been taken"; the specs never register a duplicate, so this message follows Devise's usual wording.
- Registration.ConfirmByToken: confirming spends the token, so a second confirmation with it fails. The specs confirm once only.
- Registration.Register: the error message "User couldn't be registered" is used for every resource; the specs show it for users only.
- Registration.RedirectAllowed: a confirmation URL is accepted only when it is literally an entry of the safelist; matching by scheme and host, or by a configured pattern, is not modelled.
- The redirect safelist check is applied to confirmable resources only. Non-confirmable resources take no confirmation URL in the specs.
- Concurrency and atomicity of the store: the model is sequential.
