# Customer payment portal — a verified Dafny model

This project models the core of a small international-payments portal. Customers submit
payments. Bank employees approve or reject them. Both groups authenticate with bearer
tokens. The model covers four parts:

- **The payment lifecycle**:
  - the input sanitiser;
  - the `/create` validator, which collects every violated rule;
  - the payments collection, with its unique `_id` and `transactionReference` indexes and the pre-validate hook that issues `TXN…` references;
  - the owner listing and the employee listing, both newest first;
  - the `/verify` transition `pending → completed | failed`.
- **The authorisation gate**:
  - the `auth` middleware (token extraction, claim dispatch in priority order, lookup);
  - the two complementary role guards;
  - the employee login handler.
- **The principal stores**:
  - customers, with trimming and lower-casing setters, three unique keys and hash-on-save;
  - employees, with a role enum and defaults, two unique keys and hash-on-save only when the password was modified.
- **The three pages' client logic**:
  - the payment form's checks while typing and on submit, the request it sends, where a rejected request's messages land, and the history filter;
  - the login/sign-up form's patterns, checks, server-error mapping and mode switch;
  - the employee page's filters, owner columns, button actions and logout.

Modules follow the source files:

| file | module | models |
|---|---|---|
| `base.dfy` | `Base` | optional values and JSON values with JavaScript truthiness |
| `text.dfy` | `Text` | `trim`, the bracket strip, ASCII case mapping, `includes`, and decimal numerals |
| `external.dfy` | `External` | bcrypt and jsonwebtoken as records of functions passed in as parameters |
| `documents.dfy` | `Documents` | ObjectId strings and casts, and the ways `save()` fails |
| `patterns.dfy` | `Patterns` | the shared regular expressions, and the exact reading of an amount text as whole cents |
| `payment_schema.dfy` | `PaymentSchema` | the Payment schema and its pre-validate hook (class `PaymentDocument`) |
| `payment_store.dfy` | `PaymentStore` | the payments collection (class `PaymentCollection`) and its queries |
| `user_model.dfy` | `UserModel` | the customer model, its document and its collection |
| `employee_model.dfy` | `EmployeeModel` | the employee model, its document and its collection |
| `auth_middleware.dfy` | `AuthMiddleware` | `auth`, `requireEmployee` and `requireCustomer` |
| `employee_auth.dfy` | `EmployeeAuth` | `POST /login` for employees |
| `payment_routes.dfy` | `PaymentRoutes` | `sanitizeInput` and the four payment routes |
| `form_errors.dfy` | `FormErrors` | the `forEach` that puts a rejected request's messages on the form fields |
| `status_filter.dfy` | `StatusFilter` | the "all or this status" filter both payment lists use |
| `payment_form.dfy` | `PaymentForm` | the customer payment page |
| `login_signup.dfy` | `LoginSignup` | the login / sign-up form |
| `employee_payment_view.dfy` | `EmployeePaymentView` | the employee payments page |

Each route has two forms:

- a function over the stored records (`Create`, `Verify`, `ListUserPayments`, `ListAllPayments`), which gives the response and the records afterwards;
- for the routes that save, a method over the collection class (`CreatePayment`, `VerifyPayment`), proved to produce exactly that function's result while keeping the collection's invariant.

The lemmas state the properties about those functions.

## Behaviour worth knowing

The code behaves as follows in these cases, and the model keeps each behaviour:

- The route's amount rule checks only that the parsed value lies in (0, 1,000,000]. It never applies the two-decimals pattern, so `0.001` passes the route (`PaymentRoutes.AmountRuleBounds`). It then fails the schema minimum and is answered 500, not 400 (`PaymentRoutes.SubCentAmountGives500`).
- The route checks only the three-upper-case-letter shape of the currency, not the eight-code set. So `XYZ` is answered 500 at save, not 400 (`PaymentRoutes.CurrencyOutsideEnumGives500`).
- `/create` runs only the authentication middleware, not the customer guard. An employee can create a payment, and the payment is then owned by the employee's `_id`.
- A reference collision is not retried. The save fails with a duplicate-key error, which is answered 500.
- `/verify` loads the payment and then saves it. It performs no conditional update.
- Employee login answers 400 for bad credentials and 500 for an internal failure. It never answers 404.

## Model

| member | source | states |
|---|---|---|
| Text.Trim | backend/routes/payments.js:18 | `trim()` leaves no whitespace at either end, is no longer than the input, and keeps an input that has no surrounding whitespace |
| Text.TrimDropsOnlySurroundingWhitespace | backend/routes/payments.js:18 | the result of `trim()` is a slice `s[a..b]` of the input with only whitespace before `a` and after `b`, so with the ends above it is exactly the input minus its surrounding whitespace |
| Text.RemoveAngleBrackets | backend/routes/payments.js:18 | the result has no `<` or `>`; every other character keeps its multiplicity; a bracket-free text is unchanged |
| Text.ToUpper | backend/routes/payments.js:31 | each character is upper-cased in place and the length is kept |
| Text.ToLower | backend/models/User.js:21 | each character is lower-cased in place and the length is kept |
| Text.LowerKeepsEnds | backend/models/User.js:20-21 | lower-casing a trimmed text leaves it trimmed |
| Text.LowerIsIdempotent | backend/models/User.js:21 | a lower-cased text has no upper-case letter, and lower-casing it again changes nothing |
| Text.IndexOf | backend/middleware/auth.js:9 | a position is found exactly when the pattern occurs; it is a match, and no earlier position matches |
| Text.NatToDecimal | backend/models/payment.js:53 | an integer is written as a non-empty run of digits without a leading zero |
| Text.DecimalRoundTrip | backend/models/payment.js:53 | reading the numeral of `n` gives back `n` |
| Documents.Cast | backend/routes/payments.js:192 | a query id casts exactly when it is 24 hexadecimal digits, and then to its lower-case spelling, which is canonical |
| Documents.CastCanonical | backend/routes/payments.js:192 | a canonical id and its upper-case spelling both cast to the same id |
| Patterns.AmountCents | frontend/src/Components/Payment/Payment.jsx:22 | a text gets a value in cents exactly when it matches `^\d+(\.\d{1,2})?$` |
| Patterns.FormatCents | frontend/src/Components/Payment/Payment.jsx:22 | every whole number of cents written with two decimals matches the amount pattern |
| Patterns.CentsRoundTrip | frontend/src/Components/Payment/Payment.jsx:22 | reading back a formatted amount gives the same number of cents |
| Patterns.SmallestAmount | frontend/src/Components/Payment/Payment.jsx:134 | "0.01" reads as 1 cent |
| Patterns.LargestAmount | frontend/src/Components/Payment/Payment.jsx:134 | "1000000.00" reads as 100,000,000 cents |
| Patterns.JustAboveLargestAmount | frontend/src/Components/Payment/Payment.jsx:134 | "1000000.01" reads as 100,000,001 cents |
| Patterns.AmountShapes | frontend/src/Components/Payment/Payment.jsx:22 | a whole number reads as hundreds of cents and one decimal as tens; "1.", ".5" and "1.234" do not match |
| Patterns.SwiftExamples | backend/routes/payments.js:11 | the BIC layout accepts "ABSAZAJJ" and "ABSAZAJJ123" and refuses a 7- or 9-character code and a lower-case one |
| PaymentSchema.SwiftCodeRequiredIffSwift | backend/models/payment.js:28-33 | with provider SWIFT a payment lacking a swiftCode is invalid; with any other provider, validity does not depend on the swiftCode |
| PaymentSchema.CurrencyEnumIsClosed | backend/models/payment.js:18-22 | a payment whose currency is not one of the eight listed codes fails validation, whatever the code's shape |
| PaymentSchema.CurrencyEnumIsClosedExample | backend/models/payment.js:18-22 | "XYZ" is not one of the eight codes |
| PaymentSchema.GenerateReference | backend/models/payment.js:51-53 | a generated reference is "TXN" followed by the unpadded timestamp and then the unpadded random number, so only digits follow "TXN" |
| PaymentSchema.ReferenceAssignedOnlyWhenAbsent | backend/models/payment.js:49-56 | after the hook a reference is always set, and an existing one is never overwritten |
| PaymentSchema.ReferenceHookIdempotent | backend/models/payment.js:49-56 | running the hook twice, at any clock readings, equals running it once |
| PaymentSchema.GeneratedReferencesCollide | backend/models/payment.js:53 | unpadded numbers let distinct pairs collide when the timestamps differ in length: (1, 23) and (12, 3) both give "TXN123" |
| PaymentSchema.EqualLengthTimestampsGiveDistinctReferences | backend/models/payment.js:53 | with timestamps of equal length, as every 13-digit millisecond clock reading is, equal references come only from equal (timestamp, random) pairs |
| PaymentSchema.PaymentDocument.constructor | backend/models/payment.js:34-38 | a new document has the given paths, status pending and no reference |
| PaymentSchema.PaymentDocument.Load | backend/routes/payments.js:192 | a loaded document holds exactly the stored record |
| PaymentSchema.PaymentDocument.PreValidate | backend/models/payment.js:49-56 | the hook sets the reference as `EnsureReference` gives it and changes no other path |
| PaymentStore.InsertKeepsKeysUnique | backend/models/payment.js:39-43 | an accepted insert keeps `_id` and `transactionReference` unique, and a reference already stored is refused |
| PaymentStore.IndexOfId | backend/routes/payments.js:192 | the position found holds that id, and there is none exactly when no record has it |
| PaymentStore.FindById | backend/routes/payments.js:192 | a record is found exactly when one has that id, and it is a stored record with that id |
| PaymentStore.OwnedBy | backend/routes/payments.js:123 | the result holds exactly the owner's records, each with its multiplicity |
| PaymentStore.InsertByDate | backend/routes/payments.js:124 | inserting into a newest-first list keeps it newest first and adds exactly one element |
| PaymentStore.NewestFirst | backend/routes/payments.js:124 | the result is a permutation of the input ordered by createdAt descending |
| PaymentStore.PaymentCollection.Insert | backend/routes/payments.js:86 | saving a new document runs the hook, stamps createdAt, appends the record exactly when the checks pass, and keeps both indexes unique |
| PaymentStore.PaymentCollection.Update | backend/routes/payments.js:208 | saving a loaded document replaces only the record with its `_id`, or changes nothing when refused, and keeps the indexes unique |
| UserModel.Normalize | backend/models/User.js:5-28 | fullName, idNumber and accountNumber are the trimmed inputs and username the lower-cased trimmed input, so no key has surrounding whitespace and the username has no upper-case letter; the id and password are kept |
| UserModel.UsernameNormalizationIdempotent | backend/models/User.js:16-22 | normalising a stored username again gives the same key |
| UserModel.SaveKeepsKeysUnique | backend/models/User.js:10-28 | an accepted save keeps `_id`, idNumber, username and accountNumber each unique |
| UserModel.FindById | backend/middleware/auth.js:24 | a customer is found exactly when one has that id, and it is that stored customer |
| UserModel.CustomerDocument.constructor | backend/models/User.js:5-32 | a new document holds the normalised values and its password counts as modified |
| UserModel.CustomerDocument.Load | backend/middleware/auth.js:24 | a loaded document holds the stored record, and its password is not modified |
| UserModel.CustomerDocument.PreSave | backend/models/User.js:39-46 | the password is replaced by its salted hash on every save, modified or not |
| UserModel.CustomerCollection.Save | backend/models/User.js:4-46 | validation runs first, then the hash, then the unique keys; a record is appended exactly when every check passes, and that record is the document with its password replaced by the salted hash, never the plain password; the store stays unique and normalised |
| EmployeeModel.NoEmployeeRole | backend/models/Employee.js:24-28 | no valid employee has the role "employee" |
| EmployeeModel.NoRoleIsEmployee | backend/models/Employee.js:24-28 | none of the role enum's values is "employee" |
| EmployeeModel.DefaultsApply | backend/models/Employee.js:24-32 | a role left out becomes "teller" and passes the enum, and the department becomes "customer service" |
| EmployeeModel.SaveKeepsKeysUnique | backend/models/Employee.js:6-19 | an accepted save keeps `_id`, employeeId and email each unique |
| EmployeeModel.FindByEmployeeId | backend/routes/employeeAuth.js:12 | an employee is found exactly when one has that employeeId, and it is that stored employee |
| EmployeeModel.EmployeeDocument.constructor | backend/models/Employee.js:5-32 | undefined role and department take their defaults, and the password counts as modified |
| EmployeeModel.EmployeeDocument.Load | backend/routes/employeeAuth.js:12 | a loaded document holds the stored record, and its password is not modified |
| EmployeeModel.EmployeeDocument.PreSave | backend/models/Employee.js:38-43 | the password is hashed exactly when it was modified, and is left as it was otherwise |
| EmployeeModel.EmployeeCollection.Save | backend/models/Employee.js:5-43 | validation runs first, then the conditional hash, then the unique keys; a record is appended exactly when every check passes, and the store stays unique |
| AuthMiddleware.BearerHeaderGivesToken | backend/middleware/auth.js:9 | the header "Bearer t" gives the token t |
| AuthMiddleware.BearerRemovedAnywhere | backend/middleware/auth.js:9 | for a header whose first "Bearer " is at position k, the token is the text before k followed by the text after the seven characters, wherever k is |
| AuthMiddleware.BearerRemovedAnywhereExample | backend/middleware/auth.js:9 | the header "xBearer y" gives the token "xy" |
| AuthMiddleware.Dispatch | backend/middleware/auth.js:22-35 | userId wins, then employeeId, then id; the token format is bad exactly when none of them is truthy |
| AuthMiddleware.Authenticate | backend/middleware/auth.js:7-52 | every refusal is a 401 |
| AuthMiddleware.NoTokenIffEmpty | backend/middleware/auth.js:9-15 | the no-token 401 is given exactly when the header is absent or empty once "Bearer " is removed |
| AuthMiddleware.RefusedTokenIsInvalid | backend/middleware/auth.js:46-51 | a token that fails verification gives 401 "Token is not valid" |
| AuthMiddleware.AuthenticatedIsStored | backend/middleware/auth.js:22-45 | a successful principal is a stored customer or employee, without its password, found by the lookup the claims selected |
| AuthMiddleware.StoredCustomerAdmitted | backend/middleware/auth.js:22-45 | a verified token whose claims select a key that casts to a stored customer's id is admitted as a customer with that id |
| AuthMiddleware.StoredEmployeeAdmitted | backend/middleware/auth.js:22-45 | a verified token whose claims select a stored employee's employeeId is admitted as an employee with that employeeId |
| AuthMiddleware.UserIdClaimTakesPriority | backend/middleware/auth.js:22-27 | a token with both a userId and an employeeId never authenticates an employee |
| AuthMiddleware.Auth | backend/middleware/auth.js:7-52 | `next` is called exactly on success, and `req.user` is then the principal; on every refusal the status and message are returned and `req.user` is untouched |
| AuthMiddleware.GuardsAreComplements | backend/middleware/auth.js:55-74 | each principal passes exactly one of the two guards, and a refusal is 403 |
| AuthMiddleware.EmployeeGuardAdmitsExactlyEmployees | backend/middleware/auth.js:55-63 | when every stored role is in the enum, as the employee collection keeps it, the employee guard admits exactly the authenticated employees and the customer guard exactly the customers |
| EmployeeAuth.Login | backend/routes/employeeAuth.js:7-58 | every failure is a 400 or a 500 |
| EmployeeAuth.UnknownIdAndWrongPasswordIndistinguishable | backend/routes/employeeAuth.js:14-27 | an unknown employeeId and a wrong password both give the identical 400 "Invalid employee credentials" |
| EmployeeAuth.NoCompareWithoutEmployee | backend/routes/employeeAuth.js:12-21 | for an unknown employeeId the answer does not depend on bcrypt, the token library or the secret |
| EmployeeAuth.SuccessfulLogin | backend/routes/employeeAuth.js:30-50 | a success is for the stored employee whose hash matches; its token signs exactly employeeId, role and type "employee" for 8 hours; the response shows the five summary fields |
| EmployeeAuth.LoginOkExactlyWhen | backend/routes/employeeAuth.js:12-50 | a login succeeds exactly when the employeeId is stored, a password is sent, it matches that employee's hash, and JWT_SECRET is set |
| EmployeeAuth.LoginTokenAuthenticatesEmployee | backend/routes/employeeAuth.js:30-38 | a login token sent back as a bearer header authenticates the same employee, who passes the employee guard |
| PaymentRoutes.SanitizeInput | backend/routes/payments.js:16-19 | a string becomes its trim with every angle bracket removed, so it has no bracket and a clean string is unchanged; a falsy non-string becomes "" |
| PaymentRoutes.SanitizeIsNotIdempotent | backend/routes/payments.js:18 | trimming before stripping brackets means a second pass can change the result ("a <" → "a " → "a") |
| PaymentRoutes.NonStringKeepsBrackets | backend/routes/payments.js:17 | a truthy non-string becomes its text with the brackets kept |
| PaymentRoutes.ReadBody | backend/routes/payments.js:29-33 | a swiftCode is read exactly when the body's swiftCode is truthy, and upper-casing keeps the currency's length |
| PaymentRoutes.CollectEmptyIff | backend/routes/payments.js:64-70 | the list is empty exactly when none of the checked rules is broken |
| PaymentRoutes.CollectHasMessageIff | backend/routes/payments.js:41-62 | a rule's message is collected exactly when the rule is checked and broken |
| PaymentRoutes.ViolationMessagesUnrolled | backend/routes/payments.js:43-62 | the list is the account, amount, currency, provider and SWIFT checks' pushes, in that order |
| PaymentRoutes.ViolationMessagesAreTheBrokenRules | backend/routes/payments.js:41-62 | the list is empty exactly when every rule passes and holds exactly the broken rules' messages, the account message first and the SWIFT message last |
| PaymentRoutes.AmountRuleBounds | backend/routes/payments.js:47-49 | 1,000,000 and 0.001 pass the amount rule; 1,000,000.01, 0 and NaN fail it |
| PaymentRoutes.ValidatePayment | backend/routes/payments.js:41-62 | the pushes produce exactly the list of broken rules' messages in rule order |
| PaymentRoutes.Create | backend/routes/payments.js:24-109 | every answer other than 201 leaves the records unchanged |
| PaymentRoutes.CreateOutcomes | backend/routes/payments.js:64-100 | 400 comes exactly when some rule is broken, with the full list and nothing stored; a 201 appends one payment owned by the caller, pending, with the sent fields, the swiftCode only for SWIFT, and a reference, and reports it |
| PaymentRoutes.CreatedExactlyWhen | backend/routes/payments.js:64-100 | 201 is answered exactly when every rule passes and the collection accepts the constructed document |
| PaymentRoutes.CurrencyOutsideEnumGives500 | backend/routes/payments.js:51-53 | every input passing the rules whose currency is outside the enum ends in the 500 branch with nothing stored |
| PaymentRoutes.CurrencyOutsideEnumExample | backend/routes/payments.js:51-53 | the currency "XYZ", with a valid account, amount and provider, passes every rule though the enum lacks it |
| PaymentRoutes.SubCentAmountGives500 | backend/routes/payments.js:47-49 | every input passing the rules whose amount is below the schema minimum 0.01 ends in the 500 branch with nothing stored |
| PaymentRoutes.SubCentAmountExample | backend/routes/payments.js:47-49 | the amount 0.005 passes every rule though it is below the schema minimum |
| PaymentRoutes.EnumCurrenciesPassCurrencyRule | backend/routes/payments.js:51-53 | every currency in the enum passes the route's currency check |
| PaymentRoutes.CreatePayment | backend/routes/payments.js:24-109 | the handler's response and the collection afterwards are exactly those of `Create` on the caller's id, and the collection stays valid |
| PaymentRoutes.ListUserPayments | backend/routes/payments.js:112-138 | a refusal is a 403 or a 500 |
| PaymentRoutes.ListUserPaymentsSpec | backend/routes/payments.js:114-125 | 403 comes exactly when the caller is neither the named user nor an employee; the list is given exactly when the caller is admitted and the id casts, and then holds exactly that owner's payments, newest first |
| PaymentRoutes.CustomerSeesOnlyOwnPayments | backend/routes/payments.js:116-121 | a customer only ever receives its own payments |
| PaymentRoutes.PopulateOwner | backend/routes/payments.js:147-152 | the owner is null exactly when no customer has the payment's userId, never the bare id; otherwise it is a stored customer with that id, shown with its fullName, accountNumber, username and idNumber |
| PaymentRoutes.ListAllSpec | backend/routes/payments.js:143-169 | only callers the employee guard admits get the list, which holds every payment exactly once, newest first, each with its populated owner; others get 403 |
| PaymentRoutes.Transition | backend/routes/payments.js:199-217 | a refusal leaves the records unchanged |
| PaymentRoutes.Verify | backend/routes/payments.js:181-225 | every refusal leaves the records unchanged |
| PaymentRoutes.TransitionOfPending | backend/routes/payments.js:206-217 | a stored pending payment is always verified; only its status changes, and the records stay valid |
| PaymentRoutes.VerifyRefusals | backend/routes/payments.js:186-204 | gives 403 for a non-employee, 400 for a bad action before any lookup, 404 for an unknown id, and 400 for a payment that is not pending; none of these changes anything |
| PaymentRoutes.VerifyReachesTransition | backend/routes/payments.js:181-199 | once the guard admits the caller, the action is "complete" or "fail" and the id is found at k, `/verify` is the transition of record k |
| PaymentRoutes.VerifyPendingSucceeds | backend/routes/payments.js:206-217 | an employee's valid action on a pending payment sets it to completed or failed, changes nothing else, and keeps the records valid |
| PaymentRoutes.VerifiedWentThroughTransition | backend/routes/payments.js:192-217 | a successful verify found the payment by its id, it was pending, and the outcome is the transition of that record |
| PaymentRoutes.VerifiedLeavesProcessed | backend/routes/payments.js:206-208 | after a successful verify the payment is still stored under its id and is no longer pending |
| PaymentRoutes.SecondVerifyRejected | backend/routes/payments.js:199-204 | once verified, any later verify of the same payment is refused and changes nothing, whoever asks and whatever the action |
| PaymentRoutes.SetStatus | backend/routes/payments.js:192-217 | once the payment is found, the loaded document is refused unless pending, otherwise its status is set and it is saved, with the response and records exactly those of `Transition`; the collection stays valid |
| PaymentRoutes.VerifyPayment | backend/routes/payments.js:181-225 | the handler's response and the collection afterwards are exactly those of `Verify`, and the collection stays valid |
| FormErrors.FieldErrorsSpec | frontend/src/Components/Payment/Payment.jsx:195-202 | a field has an entry exactly when some message is classified to it, and the entry is the last such message |
| FormErrors.FieldErrorsKeys | frontend/src/Components/Payment/Payment.jsx:195-202 | a field has an entry exactly when some message in the list is classified to it |
| FormErrors.FieldErrorsLast | frontend/src/Components/Payment/Payment.jsx:195-202 | a field's entry is a message classified to it after which no message is classified to that field |
| FormErrors.MapServerErrors | frontend/src/Components/Payment/Payment.jsx:196-201 | the `forEach` loop builds exactly the error object `FieldErrors` specifies |
| StatusFilter.Keep | frontend/src/Components/Payment/Payment.jsx:228 | every kept entry has the named status, and the result is no longer than the list |
| StatusFilter.KeepCounts | frontend/src/Components/Payment/Payment.jsx:228 | the kept entries are exactly those with the named status, each with its multiplicity |
| StatusFilter.KeepDistributes | frontend/src/Components/Payment/Payment.jsx:228 | filtering a concatenation filters each part in order, so list order is kept |
| StatusFilter.FilteredSpec | frontend/src/Components/Payment/Payment.jsx:226-228 | "all" gives the whole list; another value gives exactly the entries with that status, in list order; a value naming no status gives nothing |
| PaymentForm.OptionsAreTheSchemaEnums | frontend/src/Components/Payment/Payment.jsx:27-39 | the currency and provider selects offer exactly the schema's enums |
| PaymentForm.AmountBoundaries | frontend/src/Components/Payment/Payment.jsx:130-137 | "0.01" and "1000000.00" are accepted; "0" and "1000000.01" are refused |
| PaymentForm.Set | frontend/src/Components/Payment/Payment.jsx:84-87 | the named field takes the value and every other field is kept |
| PaymentForm.ValidationErrorsSpec | frontend/src/Components/Payment/Payment.jsx:121-148 | the form passes exactly when the account, the amount and (only under SWIFT) the SWIFT code pass; each field has at most one message, "required" when empty and the format message otherwise; currency and provider never get one |
| PaymentForm.ValidateForm | frontend/src/Components/Payment/Payment.jsx:121-148 | filling `newErrors` field by field gives exactly `ValidationErrors` |
| PaymentForm.ChangeIsLocal | frontend/src/Components/Payment/Payment.jsx:71-118 | a change stores the value in its own field only, and sets that field's error exactly when the live check fails; other errors are untouched |
| PaymentForm.LiveCheckAgreesWithSubmit | frontend/src/Components/Payment/Payment.jsx:89-117 | for a non-empty account, amount, or SWIFT code under SWIFT, the live check flags the field exactly when the submit check would; currency and provider are never flagged |
| PaymentForm.SwiftUppercasedOnlyUnderSwift | frontend/src/Components/Payment/Payment.jsx:107-117 | under SWIFT every typed code is stored upper-cased and flagged exactly when it is non-empty and its upper-cased form is not a BIC; under another provider it is stored as typed and never flagged |
| PaymentForm.SwiftUppercasedExample | frontend/src/Components/Payment/Payment.jsx:107-117 | "absazajj" is stored as "ABSAZAJJ" without an error under SWIFT, and as typed under PayPal |
| PaymentForm.ClassifyPaymentError | frontend/src/Components/Payment/Payment.jsx:198-200 | a message lands on the account, amount or SWIFT field, or nowhere |
| PaymentForm.AccountMessageOnAccount | frontend/src/Components/Payment/Payment.jsx:198 | the route's account message lands on the account field |
| PaymentForm.SwiftMessageOnSwift | frontend/src/Components/Payment/Payment.jsx:200 | the route's SWIFT message lands on the SWIFT field |
| PaymentForm.AmountMessageDropped | frontend/src/Components/Payment/Payment.jsx:199 | the route's capitalised "Amount must be …" message lands nowhere |
| PaymentForm.CurrencyMessageDropped | frontend/src/Components/Payment/Payment.jsx:197-201 | the route's currency message lands nowhere |
| PaymentForm.ProviderMessageDropped | frontend/src/Components/Payment/Payment.jsx:197-201 | the route's provider message lands nowhere |
| PaymentForm.RouteMessageLands | frontend/src/Components/Payment/Payment.jsx:197-201 | only the account message lands on the account field, only the SWIFT message on the SWIFT field, and no route message lands elsewhere |
| PaymentForm.CollectedAreRuleMessages | backend/routes/payments.js:41-62 | every collected message is the message of a checked rule |
| PaymentForm.ViolationMessagesLand | frontend/src/Components/Payment/Payment.jsx:197-201 | each message in a 400 list lands as `RouteMessageLands` says |
| PaymentForm.RouteErrorsOnTheForm | frontend/src/Components/Payment/Payment.jsx:195-202 | after a 400 the account field has an error exactly when the account rule was broken and the SWIFT field exactly when the SWIFT rule was; no other field gets one |
| PaymentForm.PlainTextSurvivesSanitizing | backend/routes/payments.js:18 | letters, digits, points and inner spaces pass the sanitiser unchanged |
| PaymentForm.AmountTextSurvivesSanitizing | backend/routes/payments.js:30 | a text matching the amount pattern passes the sanitiser unchanged |
| PaymentForm.CurrencyOptionSurvives | backend/routes/payments.js:31 | a currency option passes sanitising and upper-casing unchanged and has the currency shape |
| PaymentForm.ProviderOptionSurvives | backend/routes/payments.js:32 | a provider option passes the sanitiser unchanged |
| PaymentForm.ReadAccount | frontend/src/Components/Payment/Payment.jsx:175 | the route reads an accepted account number as typed |
| PaymentForm.ReadAmount | frontend/src/Components/Payment/Payment.jsx:175 | an accepted amount reaches `parseFloat` unchanged, so the route reads it as its value in cents divided by 100 |
| PaymentForm.ReadCurrency | frontend/src/Components/Payment/Payment.jsx:175 | the route reads a selected currency as chosen |
| PaymentForm.ReadProvider | frontend/src/Components/Payment/Payment.jsx:175 | the route reads a selected provider as chosen |
| PaymentForm.ReadSwiftCode | frontend/src/Components/Payment/Payment.jsx:175 | the route reads a valid SWIFT code as typed |
| PaymentForm.AcceptedFields | frontend/src/Components/Payment/Payment.jsx:158-162 | a form with no errors has a valid account, an accepted amount and, under SWIFT, a valid SWIFT code |
| PaymentForm.AcceptedFormPassesRoute | frontend/src/Components/Payment/Payment.jsx:158-175 | a form the page lets through breaks none of the route's five rules |
| PaymentRoutes.PassesEveryRule | backend/routes/payments.js:41-64 | an input meeting all five rules gets an empty list |
| PaymentRoutes.SchemaRefusalGives500 | backend/routes/payments.js:75-108 | a body passing every rule whose document the schema refuses is answered 500 and nothing is stored |
| PaymentForm.PaymentPage.constructor | frontend/src/Components/Payment/Payment.jsx:5-13 | the form starts as ("", "", "ZAR", "SWIFT", "") with no errors |
| PaymentForm.PaymentPage.HandleChange | frontend/src/Components/Payment/Payment.jsx:71-118 | the form data and errors become `AfterChange` of the old ones, and the selects stay among their options |
| PaymentForm.PaymentPage.Submit | frontend/src/Components/Payment/Payment.jsx:157-176 | nothing is sent exactly when validation finds an error, and the errors are then shown; otherwise errors are cleared and the body is the five form fields, with no user id |
| PaymentForm.PaymentPage.Receive | frontend/src/Components/Payment/Payment.jsx:180-206 | a 201 resets the form; a 400 replaces the errors by the mapped server messages; any other failure changes nothing |
| PaymentForm.FilteredHistorySpec | frontend/src/Components/Payment/Payment.jsx:226-228 | "all" shows the whole history; another filter shows exactly the payments with that status, each as often as stored; an unknown filter shows nothing |
| LoginSignup.ValidateFieldSpec | frontend/src/Components/LoginSignup/LoginSignup.jsx:44-47 | a name without a pattern always validates, and no pattern accepts the empty text |
| LoginSignup.PasswordAccepted | frontend/src/Components/LoginSignup/LoginSignup.jsx:32 | a password with both cases, a digit and a special character passes at 9 and at 20 characters |
| LoginSignup.PasswordRefused | frontend/src/Components/LoginSignup/LoginSignup.jsx:32 | a password without an upper-case letter, with a space, or of 21 characters fails |
| LoginSignup.RequiredMessages | frontend/src/Components/LoginSignup/LoginSignup.jsx:69 | the "required" message shows the key as written with only its first letter raised ("FullName is required") |
| LoginSignup.ErrorsOverSpec | frontend/src/Components/LoginSignup/LoginSignup.jsx:64-76 | a key has an entry exactly when it is checked and its value is empty or fails its pattern; the entry is the "required" message or the field's message |
| LoginSignup.ValidateFormSpec | frontend/src/Components/LoginSignup/LoginSignup.jsx:64-76 | sign-up checks all five fields; login never flags fullName or idNumber but checks the other three; the object is empty exactly when every checked field validates |
| LoginSignup.ValidateForm | frontend/src/Components/LoginSignup/LoginSignup.jsx:64-76 | the loop over the keys builds exactly `ErrorsOver` of all five keys |
| LoginSignup.InputChangedSpec | frontend/src/Components/LoginSignup/LoginSignup.jsx:49-62 | the field's entry is set exactly when the value is non-empty and fails its pattern; other entries are untouched; on a checked field this agrees with the submit check |
| LoginSignup.ClassifyLoginError | frontend/src/Components/LoginSignup/LoginSignup.jsx:117-121 | a message lands on one of the five fields or nowhere |
| LoginSignup.UsernameBranchUnreachable | frontend/src/Components/LoginSignup/LoginSignup.jsx:117-119 | no message ever lands on username; one containing "Username" lands on fullName |
| LoginSignup.LoginSignupForm.constructor | frontend/src/Components/LoginSignup/LoginSignup.jsx:12-23 | the form starts in the given mode with five empty fields, no errors and no success message |
| LoginSignup.LoginSignupForm.HandleInputChange | frontend/src/Components/LoginSignup/LoginSignup.jsx:49-62 | the field takes the value and the errors become `InputChanged` of the old ones |
| LoginSignup.LoginSignupForm.Submit | frontend/src/Components/LoginSignup/LoginSignup.jsx:78-90 | nothing is sent exactly when validation finds an error, which is then shown; otherwise errors and success message are cleared and the form is posted to the current mode's endpoint |
| LoginSignup.LoginSignupForm.Succeeded | frontend/src/Components/LoginSignup/LoginSignup.jsx:93-102 | a sign-up shows "Account created successfully!" and empties the form; a login changes neither |
| LoginSignup.LoginSignupForm.Rejected | frontend/src/Components/LoginSignup/LoginSignup.jsx:114-124 | the errors become the mapped server messages, and username never gets one |
| LoginSignup.LoginSignupForm.HandleModeSwitch | frontend/src/Components/LoginSignup/LoginSignup.jsx:130-141 | the new mode, with no errors, no success message and five empty fields |
| EmployeePaymentView.PaymentListsSpec | frontend/src/Components/EmployeePayment/EmployeePayment.jsx:118-123 | the pending list holds exactly the pending payments and is what the "pending" filter shows, whatever filter is selected; "all" shows the list; another filter shows exactly the payments with that status |
| EmployeePaymentView.DisplayName | frontend/src/Components/EmployeePayment/EmployeePayment.jsx:137-141 | the customer cell is never blank |
| EmployeePaymentView.AccountColumn | frontend/src/Components/EmployeePayment/EmployeePayment.jsx:143-147 | the account cell is never blank |
| EmployeePaymentView.UsernameColumn | frontend/src/Components/EmployeePayment/EmployeePayment.jsx:149-153 | the username cell is never blank |
| EmployeePaymentView.OwnerColumnsSpec | frontend/src/Components/EmployeePayment/EmployeePayment.jsx:137-153 | a missing owner shows "Unknown Customer" and "N/A" twice; a bare id shows "Customer (ID: id)" and "N/A" twice |
| EmployeePaymentView.ListedRowsShowStoredCustomer | frontend/src/Components/EmployeePayment/EmployeePayment.jsx:137-153 | on the list `GET /` returns, each row shows the stored customer's non-empty name, account and username, and the fallbacks otherwise; the bare-id form never appears |
| EmployeePaymentView.ActionSurvivesSanitizing | frontend/src/Components/EmployeePayment/EmployeePayment.jsx:66 | the actions "complete" and "fail" pass the route's sanitiser unchanged |
| EmployeePaymentView.ButtonsSetTheStatus | frontend/src/Components/EmployeePayment/EmployeePayment.jsx:53-109 | on a pending payment, approve makes the route complete it and reject makes it fail it, and no other record or field changes |
| EmployeePaymentView.Logout | frontend/src/Components/EmployeePayment/EmployeePayment.jsx:111-116 | exactly token, userData and userType are removed, and every other key keeps its value |

## Left out

- I/O and plumbing are left out: the HTTP server, TLS, the database connection, the CSRF token fetch, logging, `alert`, `window.confirm`, `navigate`, and the React loading and rendering state.
- Networking on the pages is left out: fetching the payment history and the employee list, and the 401/500 answers shown only through `alert`. `Receive` and `Rejected` take the response as a parameter.
- Library and environment collaborators become parameters:
  - jsonwebtoken (`sign`, `verify` and expiry checking) and bcryptjs (`hash`, `compare`, and `genSalt`, whose salt is a parameter) are uninterpreted functions;
  - `Date.now()` and `Math.random()` are the parameters `now` and `random`;
  - the `_id` of a new document is the parameter `newId`;
  - `process.env.JWT_SECRET` is the parameter `env`.
- Floating point is left out:
  - On the server, the amount is the result of `parseFloat`, taken as an optional real supplied by a `parseFloat` parameter.
  - On the pages, the amount is exact whole cents, because it first matches the two-decimals pattern. `PaymentForm.ReadAmount` and `PaymentForm.AcceptedFormPassesRoute` assume that `parseFloat` reads such a text as its value.
- Case mapping covers ASCII letters only.
- The `updatedAt` timestamp that `timestamps: true` sets on every save of a payment, a customer or an employee is not modelled; records carry `createdAt` only. So "nothing else changes" after `/verify` means nothing else among the modelled fields.
- Concurrency is left out: the load-then-save race between two employees verifying the same payment, and reference collisions between concurrent creations. The model is sequential.
- Mongoose mechanics are modelled only as values: queries, `sort` and `populate` are filters, a newest-first insertion sort and a customer lookup over the stored records. The sort keeps ties in stored order, but the database promises no order for ties and nothing proved depends on it.
- `PaymentRoutes.PopulateOwner`: the populated owner leaves out the customer's `_id`, which `populate` also returns with an inclusive field list. Nothing on the employee page reads it.
- `PaymentRoutes.ListUserPayments`: a customer's own listing is stated only for a caller whose id is canonical, which every stored customer's id is.
- `EmployeeAuth.Login`: the body's `employeeId` is taken as a string. A non-string value, which Mongoose would cast or reject, is not modelled.
- `EmployeePaymentView.DisplayName`, `EmployeePaymentView.AccountColumn`, `EmployeePaymentView.UsernameColumn`: their own contracts only say that a cell is never blank. What each cell shows is stated by `OwnerColumnsSpec` and `ListedRowsShowStoredCustomer`.
- `PaymentForm.PaymentPage.HandleChange`, `LoginSignup.LoginSignupForm.HandleInputChange`: the input name is one of the form's fields. A select's value is one of its options.
- Some files are not part of this model:
  - the customer sign-up and login route (`routes/auth`), which the server mounts; it is not modelled;
  - the session-based `logout.js`, `isAuthenticated.js` and `employeePayments.js`, which the server does not mount;
  - the unused `Customer.js` model and the employee seeding script;
  - `App.js`, `Home.jsx` and `EmployeeLogin.jsx` (routing and form wiring);
  - date formatting (`toLocaleDateString`).
- The login page's success path writes `userData` to local storage and navigates away. Only the sign-up success path, which shows a message and empties the form, is modelled.
