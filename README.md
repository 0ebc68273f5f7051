# AgroAssist Hub client logic in Dafny

This project models the client-side logic of the AgroAssist Hub web app: the
shopping cart context, the loan-scheme page and its constant bank table, the
validators of the profile, registration, login and password-reset pages, the
phone normaliser used before an OTP is requested, the six-slot OTP input, the
classification of OTP verification answers, the spoken page announcements,
the two listing schemas, and the crop recommendation page.

One module per source file. The form of each module follows the form of its
source:

- Pages and contexts whose handlers update state are classes. Their fields
  are the page's state. Each handler is a method with a `modifies` clause
  that states the whole new state.
- Pure checks, lookups and string operations are functions with named results
  and lemmas.
- Where the source works step by step on an array or a list, the model does
  too. The cart's `findIndex` is a search loop, and the OTP edit is a fill
  loop over a fresh array followed by a join loop.

Backend answers (sign-in, sign-up, password update, OTP verification) are
parameters of the handlers. So is the clock. Every toast the pages, the cart and the loan
page raise is returned as a value.

The crop recommendation page does no agronomy. The weather readings are fixed
at 25 °C, 65 % humidity and 200 mm of rainfall. The report is a fixed text
that echoes the soil type and pH as typed, then the three readings. The only check is that both fields
are non-empty. No pH, rainfall or temperature range is checked anywhere in
the code. The model follows the code, not a description of a rule-based
recommender.

Shared modules: `Wrappers` holds `Option`, `Result` and the `Toast` record; `Tables` holds the lookup by name used by the bank table and the announcement table.
`Text` holds character classes, `includes`, `trim`, ASCII case mapping and
decimal rendering.

## Model

| member | source | states |
|---|---|---|
| Cart.EntryIndex | src/context/CartContext.tsx:56 | `findIndex` on (id, type): -1 exactly when no entry matches; otherwise the first matching position |
| Cart.FindEntry | src/context/CartContext.tsx:56 | the search loop returns the same first-match position, or -1 exactly when there is none |
| Cart.AddItem | src/context/CartContext.tsx:53-79 | a new (id, type) pair is appended; an existing pair has its quantity raised by one, whatever the new item's quantity, and every other entry and the length are unchanged |
| Cart.RemoveId | src/context/CartContext.tsx:81-92 | the survivors are exactly the entries whose id differs, whatever their type; an absent id leaves the list unchanged |
| Cart.RemoveIdAppend | src/context/CartContext.tsx:90 | removal distributes over concatenation, so survivors keep their order |
| Cart.RemoveIgnoresKind | src/context/CartContext.tsx:90 | a product and a tool that share an id both leave the cart |
| Cart.RemoveIdKeepsUnique | src/context/CartContext.tsx:81-92 | removal preserves the invariant that no (id, type) pair occurs twice |
| Cart.AddItemKeepsUnique | src/context/CartContext.tsx:53-79 | adding preserves the invariant that no (id, type) pair occurs twice |
| Cart.AddExistingTouchesOnlyThatEntry | src/context/CartContext.tsx:56-68 | in a duplicate-free cart, adding an existing pair changes only that entry, by one unit |
| Cart.ItemCountAppend | src/context/CartContext.tsx:102-104 | the item count is additive over concatenation |
| Cart.TotalPriceAppend | src/context/CartContext.tsx:106-111 | the total price is additive over concatenation |
| Cart.ItemCountUpdate | src/context/CartContext.tsx:102-111 | replacing one entry changes the count and the total by that entry's change alone |
| Cart.AddItemCount | src/context/CartContext.tsx:53-79 | adding raises the count by one for an existing pair, or by the new item's quantity |
| Cart.AddItemTotal | src/context/CartContext.tsx:106-111 | adding raises the total by one unit price for an existing pair, or by price times quantity for a new one; an unparseable price counts as zero |
| Cart.ItemCountIsUnits | src/context/CartContext.tsx:102-104 | a single entry counts its quantity, not one: the count sums units, not entries |
| Cart.FirstWithId | src/context/CartContext.tsx:83 | `find` by id alone: -1 exactly when no entry has the id; otherwise the first entry with it, whatever its kind |
| Cart.AddToast | src/context/CartContext.tsx:58-77 | a non-destructive toast naming the new item: "Item quantity updated" when its (id, type) pair is in the cart, "Item added to cart" otherwise |
| Cart.AddToastTellsGrowth | src/context/CartContext.tsx:58-77 | the "added" toast is raised exactly when the cart gains an entry, and the "updated" toast exactly when its length stays |
| Cart.RemoveToast | src/context/CartContext.tsx:83-89 | no toast exactly when no entry has the id; otherwise "Item removed" naming the first entry with that id |
| Cart.RemoveIdShrinks | src/context/CartContext.tsx:90 | removal shortens the cart exactly when some entry has the id |
| Cart.RemoveToastTellsRemoval | src/context/CartContext.tsx:83-90 | the removal toast is raised exactly when the cart shrinks |
| Cart.CartStore.constructor | src/context/CartContext.tsx:37 | an empty cart that holds the uniqueness invariant |
| Cart.CartStore.AddToCart | src/context/CartContext.tsx:53-79 | the list becomes `AddItem` of the old list, the invariant is kept, and the toast is `AddToast` of the old list |
| Cart.CartStore.RemoveFromCart | src/context/CartContext.tsx:81-92 | the list becomes `RemoveId` of the old list, the invariant is kept, and the toast is `RemoveToast` of the old list |
| Cart.CartStore.ClearCart | src/context/CartContext.tsx:94-104 | the list is empty, the count and the total are zero, and the "Cart cleared" toast is raised |
| Tables.Keys | src/components/loans/LoanSchemes.tsx:64 | `Object.keys` lists the property names in order |
| Tables.Find | src/components/loans/LoanSchemes.tsx:31 | property lookup by exact name, shared by the bank table and the announcement table: nothing exactly when no property has that name, otherwise the value of a property with that name |
| Tables.FindIndexed | src/components/loans/LoanSchemes.tsx:31 | with distinct names, looking up property `i`'s name finds property `i` |
| BankSchemes.TableKeys | src/data/bankSchemes.ts:1-222 | the table's keys are exactly SBI, HDFC, ICICI, PNB, BOB, Union, Canara, Indian, KVB, Federal and Axis, in that order and pairwise distinct |
| BankSchemes.Lookup | src/data/bankSchemes.ts:1-222 | a code has schemes exactly when it is one of the eleven codes |
| BankSchemes.OffersListed | src/data/bankSchemes.ts:1-222 | each bank lists exactly two schemes with one bank name, no application data, tenure 24 to 72 months, amount 5 to 15 lakh and rate 7 % to 8.5 % |
| BankSchemes.EveryBankListed | src/data/bankSchemes.ts:1-222 | every property of the table holds such a two-scheme list, so element 0 exists |
| BankSchemes.SchemeIdsDistinct | src/data/bankSchemes.ts:4-215 | the twenty-two scheme ids are pairwise distinct |
| BankSchemes.TableSchemeIds | src/data/bankSchemes.ts:4-215 | scheme `p` of bank `i` carries id number `2i + p` of the id list |
| BankSchemes.SchemeIdsUnique | src/data/bankSchemes.ts:4-215 | no two rows of the table share an id |
| LoanSchemes.SchemesFor | src/components/loans/LoanSchemes.tsx:31 | `bankSchemes[value] \|\| []`: an unknown code gives the empty list, and a known one gives that property's schemes |
| LoanSchemes.SchemesForTable | src/components/loans/LoanSchemes.tsx:29-32 | over the bank table, the `i`-th code selects exactly bank `i`'s two listed schemes, and any other code selects none |
| LoanSchemes.SelectOptions | src/components/loans/LoanSchemes.tsx:64-68 | one option per property, valued by its code and labelled with element 0's bank name |
| LoanSchemes.SelectLabelsNameSchemes | src/components/loans/LoanSchemes.tsx:66 | on the bank table, element 0 exists and each option's label is the bank name of every scheme it selects |
| LoanSchemes.Application | src/components/loans/LoanSchemes.tsx:34-39 | the stored application equals the scheme, except for the given timestamp and the status "Pending" |
| LoanSchemes.WithoutScheme | src/components/loans/LoanSchemes.tsx:47 | the applications left are exactly those whose id differs; an absent id changes nothing |
| LoanSchemes.Restored | src/components/loans/LoanSchemes.tsx:24-27 | nothing saved gives no applications; otherwise the saved list |
| LoanSchemes.WithoutSchemeAppend | src/components/loans/LoanSchemes.tsx:47 | withdrawing distributes over concatenation, so the others keep their order |
| LoanSchemes.ApplyTwiceKeepsBoth | src/components/loans/LoanSchemes.tsx:40 | applying twice for one scheme keeps two applications with that id |
| LoanSchemes.WithdrawUndoesApplications | src/components/loans/LoanSchemes.tsx:40-47 | withdrawing a scheme's id removes every application made for it |
| LoanSchemes.LoanSchemesPage.constructor | src/components/loans/LoanSchemes.tsx:22-27 | no bank selected, no schemes listed, and the applications read back from storage |
| LoanSchemes.LoanSchemesPage.HandleBankChange | src/components/loans/LoanSchemes.tsx:29-32 | the selected code and its schemes are set; the applications and the stored copy are untouched |
| LoanSchemes.LoanSchemesPage.ApplyForScheme | src/components/loans/LoanSchemes.tsx:34-44 | exactly one pending application is appended, the stored copy equals the new list, and the success toast is raised |
| LoanSchemes.LoanSchemesPage.DeleteAppliedScheme | src/components/loans/LoanSchemes.tsx:46-51 | every application with that id is removed, the stored copy equals the new list, and the removal toast is raised even when nothing had that id |
| IdentityFormats.AadharPatternAgrees | src/pages/Profile.tsx:57 | the Aadhar check is exactly the anchored pattern of twelve digits |
| IdentityFormats.PanPatternAgrees | src/pages/Profile.tsx:67 | the PAN check is exactly the anchored pattern of five capitals, four digits and one capital |
| IdentityFormats.CheckIdentity | src/pages/Profile.tsx:56-74 | passes exactly when Aadhar and PAN are each empty or well-formed; Aadhar is checked first, so with both bad only Aadhar is reported |
| IdentityFormats.ErrorToast | src/pages/Profile.tsx:58-72 | each rejection raises a destructive toast titled for its field |
| IdentityFormats.PanHasNoLowercase | src/pages/Register.tsx:72 | a well-formed PAN holds no lower-case letter |
| IdentityFormats.UppercasedPan | src/pages/Profile.tsx:200 | upper-casing a PAN typed in any case yields a well-formed PAN |
| Profile.WithField | src/pages/Profile.tsx:101-106 | the named field takes the value, and every other field is kept |
| Profile.WithFieldSameValue | src/pages/Profile.tsx:101-106 | writing a field's own value back changes nothing |
| Profile.EmailLocalPart | src/pages/Profile.tsx:34 | `split('@')[0]`: a prefix of the email with no '@', followed by '@' when shorter than the email |
| Profile.DisplayName | src/pages/Profile.tsx:34 | the full name if non-empty, else the email's local part if non-empty, else "User"; never empty |
| Profile.NoNameFallsBackToUser | src/pages/Profile.tsx:34 | no full name and an email that is empty or starts with '@' give "User" |
| Profile.LocalPartOfAddress | src/pages/Profile.tsx:34 | the local part of `local@domain` is `local` when `local` holds no '@' |
| Profile.ProfileOf | src/pages/Profile.tsx:28-50 | the loaded profile has the display name, and the account's email, phone, Aadhar and PAN |
| Profile.InputValue | src/pages/Profile.tsx:200 | the PAN input hands on the upper-cased text, of the same length and with no lower-case letter; other inputs pass the text through |
| Profile.TypedPanAccepted | src/pages/Profile.tsx:67 | a PAN typed in lower case passes the check after the input has upper-cased it |
| Profile.ProfilePage.constructor | src/pages/Profile.tsx:15-24 | an empty profile, no edited copy, not editing |
| Profile.ProfilePage.LoadUser | src/pages/Profile.tsx:28-50 | a signed-in user fills both copies; loading ends either way |
| Profile.ProfilePage.BeginEdit | src/pages/Profile.tsx:121 | editing starts, and nothing else changes |
| Profile.ProfilePage.HandleSave | src/pages/Profile.tsx:52-94 | a failed check (or no edited copy) leaves the profile and the editing flag unchanged; success copies the edited profile and ends editing; loading is off on every path |
| Profile.ProfilePage.HandleCancel | src/pages/Profile.tsx:96-99 | the edited copy is reset to the profile, editing ends, and the profile is untouched |
| Profile.ProfilePage.HandleChange | src/pages/Profile.tsx:101-106 | exactly one field of the edited copy changes |
| Profile.EditThenCancel | src/pages/Profile.tsx:96-106 | an edit followed by cancel leaves the profile as it was |
| Profile.EditThenSave | src/pages/Profile.tsx:52-106 | an edit that passes both checks, when saved, changes exactly that field of the profile |
| Register.SetField | src/pages/Register.tsx:36-42 | the named input takes the value, and every other input is kept |
| Register.ValidateRegistration | src/pages/Register.tsx:44-95 | a password mismatch rejects first, then Aadhar, then PAN; a pass yields the sign-up request whose metadata copies the form verbatim |
| Register.MismatchFirst | src/pages/Register.tsx:50-58 | a mismatch rejects whatever Aadhar and PAN hold |
| Register.LowercasePanRejected | src/pages/Register.tsx:72 | a PAN with any lower-case letter is rejected, because nothing upper-cases it here |
| Register.RegisterErrorToast | src/pages/Register.tsx:50-80 | each rejection raises its destructive toast |
| Register.OutcomeToast | src/pages/Register.tsx:97-117 | only a created user gives a non-destructive toast; a backend error shows its message; no user shows "User creation failed" |
| Register.RegisterPage.constructor | src/pages/Register.tsx:14-23 | an empty form, not loading |
| Register.RegisterPage.HandleChange | src/pages/Register.tsx:36-42 | only the named input changes |
| Register.RegisterPage.HandleRegister | src/pages/Register.tsx:44-121 | a failed check makes no sign-up call and raises its toast; a pass makes exactly the validated call; the page moves to the login page exactly when the checks pass and a user was created, which is exactly when the toast is not destructive; loading is off afterwards |
| Login.FirstAt | src/pages/Login.tsx:62 | the first '@' of a string, or its length |
| Login.EmailCheckAgrees | src/pages/Login.tsx:62-66 | the scan accepts exactly the strings the email pattern `^[^\s@]+@[^\s@]+\.[^\s@]+$` matches |
| Login.ValidEmailIsTrimmed | src/pages/Login.tsx:82 | an accepted email has nothing to trim |
| Login.LeadingSpaceRejected | src/pages/Login.tsx:63 | the untrimmed check rejects an email with leading whitespace |
| Login.ValidateForm | src/pages/Login.tsx:48-69 | empty email first, then empty password, then the email pattern; no error exactly when all pass |
| Login.SignInErrorMessage | src/pages/Login.tsx:86-96 | "Invalid login credentials" is tested before "Email not confirmed"; otherwise the raw message, or the fallback when it is empty |
| Login.CredentialsTestedFirst | src/pages/Login.tsx:90-93 | a message with both texts gets the credentials text, whichever comes first in it |
| Login.UnknownMessageShown | src/pages/Login.tsx:95 | an unknown non-empty message is shown verbatim |
| Login.ValidateWithHook | src/pages/Login.tsx:48-49 | without the error state, validation throws; with it, validation is `ValidateForm` |
| Login.SignInRequest | src/pages/Login.tsx:73-82 | the sign-in call is made exactly when the hook provides the error state and the form passes, with the trimmed email and the password |
| Login.AsWrittenNeverSignsIn | src/hooks/useLoginState.ts:4-17 | with the hook as written no submit makes the sign-in call, although "farmer@agro.in" / "secret" passes the check and is sent when the hook provides the error state |
| Login.IntendedHookChecks | src/pages/Login.tsx:48-69 | with the error state provided, a well-formed submit passes the check |
| Login.SignInEffects | src/pages/Login.tsx:86-117 | the error, toast and navigation after each kind of sign-in answer; navigation happens exactly on a signed-in user |
| Login.LoginPage.constructor | src/pages/Login.tsx:15-26 | empty fields, no error, not loading |
| Login.LoginPage.HandleLogin | src/pages/Login.tsx:71-121 | the sign-in call is `SignInRequest` with the error state provided: made, with the trimmed email, exactly when the form passes; otherwise its error is shown and loading is untouched |
| ResetPassword.CheckReset | src/pages/ResetPassword.tsx:36-49 | mismatch first, then length below six, then a missing token; no error exactly when all pass |
| ResetPassword.SixIsEnough | src/pages/ResetPassword.tsx:41 | a password of exactly six characters passes the length check |
| ResetPassword.TokenCheckedLast | src/pages/ResetPassword.tsx:46-49 | a bad password pair hides a missing token |
| ResetPassword.ResetPasswordPage.constructor | src/pages/ResetPassword.tsx:15-30 | the link's token is kept, and a missing one sets the "not found in URL" error |
| ResetPassword.ResetPasswordPage.HandleResetPassword | src/pages/ResetPassword.tsx:32-80 | the error is cleared first; the update is attempted exactly when the checks pass; the toast and navigation follow the answer; loading ends |
| Phone.DigitsOf | src/hooks/useRegistration.ts:19 | the result is all ASCII digits and no longer than the input; a string of digits is unchanged |
| Phone.DigitsOfSplit | src/hooks/useRegistration.ts:19 | each character stays, at its place among the digits, exactly when it is a digit, and is dropped otherwise |
| Phone.DigitsOfAppend | src/hooks/useRegistration.ts:19 | digit extraction distributes over concatenation |
| Phone.FormatPhoneNumber | src/hooks/useRegistration.ts:18-24 | '+' and then digits beginning with 91: "+" and the digits when they start with 91, else "+91" and the digits |
| Phone.FormattedDigits | src/hooks/useRegistration.ts:18-24 | the digits of a formatted number are everything after its '+' |
| Phone.FormatIdempotent | src/hooks/useRegistration.ts:18-24 | formatting a formatted number changes nothing |
| Phone.NoDigitsGivesCountryCode | src/hooks/useRegistration.ts:19-21 | input with no digits formats to "+91" |
| Phone.SeparatorIgnored | src/hooks/useRegistration.ts:19 | inserting a non-digit anywhere does not change the result |
| OtpForm.Cut | src/components/auth/OTPForm.tsx:29 | a value longer than one character is cut to its first character |
| OtpForm.Slots | src/components/auth/OTPForm.tsx:31-32 | the array after split and assignment holds the value at the index |
| OtpForm.EditSlot | src/components/auth/OTPForm.tsx:31-33 | inside the OTP, a character replaces that position and the empty value deletes it, shifting later digits; past the end, the value is appended |
| OtpForm.JoinSlots | src/components/auth/OTPForm.tsx:31-33 | split, assign and join give exactly `EditSlot` |
| OtpForm.NextFocus | src/components/auth/OTPForm.tsx:36-38 | focus moves to the next slot exactly when a value was entered below slot 5 |
| OtpForm.SplitAssign | src/components/auth/OTPForm.tsx:31-32 | the fresh array holds the split OTP with the value assigned at the index |
| OtpForm.JoinAll | src/components/auth/OTPForm.tsx:33 | the join loop concatenates the array's elements in order |
| OtpForm.HandleChange | src/components/auth/OTPForm.tsx:28-39 | the new OTP is `EditSlot` of the cut value, and the focus is `NextFocus` |
| OtpForm.SlotValue | src/components/auth/OTPForm.tsx:66 | a slot shows its character, or nothing past the end |
| OtpForm.EditShowsInSlot | src/components/auth/OTPForm.tsx:31-66 | after an edit inside the OTP, the slot shows the character and the other slots are unchanged |
| OtpForm.ClearingShifts | src/components/auth/OTPForm.tsx:31-33 | clearing slot 2 of "123456" gives "12456" |
| OtpForm.TypingPastTheEndAppends | src/components/auth/OTPForm.tsx:31-33 | typing 7 into slot 4 of "12" gives "127", and slot 4 stays empty |
| OtpForm.BackspaceFocus | src/components/auth/OTPForm.tsx:41-45 | Backspace moves focus back exactly when the slot is empty and not the first |
| OtpForm.CanSubmit | src/components/auth/OTPForm.tsx:74 | submit is enabled exactly when not loading and six characters are in |
| OtpForm.CanResend | src/components/auth/OTPForm.tsx:92 | resend is enabled exactly when not loading and the timer is not running |
| OtpForm.ClearingDisablesSubmit | src/components/auth/OTPForm.tsx:31-74 | clearing a slot of a full OTP disables submit |
| OtpVerification.ClassifyError | src/utils/auth.ts:13-21 | on the lower-cased message, "expired" wins over "invalid", and anything else gets the generic text |
| OtpVerification.HandleOtpVerification | src/utils/auth.ts:3-33 | an error always rejects with its classified text; no error and a user verifies with that user; no user rejects; an exception gives the unexpected-error text |
| OtpVerification.ErrorWinsOverUser | src/utils/auth.ts:11-26 | an error rejects even when a user came with it |
| OtpVerification.ToLowerIdempotent | src/utils/auth.ts:13 | lower-casing twice is lower-casing once |
| OtpVerification.CaseInsensitive | src/utils/auth.ts:13 | a message and its lower-cased form are classified alike |
| OtpVerification.ExpiredTestedFirst | src/utils/auth.ts:15-18 | a message holding "EXPIRED" and "Invalid" in any case gets the expiry text |
| Speech.AnnouncementsWellFormed | src/hooks/useSpeech.ts:6-14 | every sentence is longer than the default and no path is listed twice |
| Speech.PageAnnouncement | src/hooks/useSpeech.ts:5-17 | never empty: the listed sentence for a listed path, and "Page not found" otherwise |
| Speech.ListedPathsAnnounced | src/hooks/useSpeech.ts:6-14 | each of the seven paths gets its own sentence, never the default |
| Speech.UnlistedPathNotFound | src/hooks/useSpeech.ts:16 | any other path gets "Page not found" |
| Speech.NearMissesNotListed | src/hooks/useSpeech.ts:6-16 | "/dashboard/", "/Profile", "/login", "/register" and "/reset-password" are not listed |
| ListingSchemas.SchemaIssues | src/components/marketplace/types.ts:3-12 | no issues exactly when every field meets its minimum length |
| ListingSchemas.FailingFieldReported | src/components/marketplace/types.ts:3-12 | every field that is too short is reported with its own message |
| ListingSchemas.IssueExplained | src/components/marketplace/types.ts:3-12 | every reported issue belongs to a field that is too short |
| ListingSchemas.ProductValidIff | src/components/marketplace/types.ts:3-12 | a product listing is valid exactly when the name and location have two characters, the description ten, and the other fields one |
| ListingSchemas.ImageIrrelevant | src/components/marketplace/types.ts:11 | the image, present or absent, never changes the issues |
| ListingSchemas.NoNumericCheck | src/components/marketplace/types.ts:6-8 | quantity "0" and price "abc" pass |
| ListingSchemas.ToolValidIff | src/components/rent-tools/types.ts:3-10 | a tool listing is valid exactly when the name and location have two characters, the description ten, and the other fields one |
| ListingSchemas.ToolNoNumericCheck | src/components/rent-tools/types.ts:6-7 | rental duration "0" and price per day "abc" pass |
| ListingSchemas.ShortDescriptionReported | src/components/rent-tools/types.ts:8 | a nine-character description is reported with its message |
| CropRecommendation.WeatherLines | src/pages/CropRecommendation.tsx:65-67 | the temperature, humidity and rainfall appear in decimal, each right after its label |
| CropRecommendation.Report | src/pages/CropRecommendation.tsx:62-74 | the report starts with the soil label, then holds the soil type and the pH exactly as typed, and ends with the template's crop list |
| CropRecommendation.WeatherInReport | src/pages/CropRecommendation.tsx:64-65 | the weather lines follow the pH directly: whatever they hold at a position, the report holds that far past the pH |
| CropRecommendation.MockReadings | src/pages/CropRecommendation.tsx:28-32 | the fixed readings render as "25", "65" and "200" |
| CropRecommendation.InputsEchoed | src/pages/CropRecommendation.tsx:62-64 | with the same weather, equal reports mean the same soil type (when it has no line break) and the same pH |
| CropRecommendation.SameCropsForAnyInput | src/pages/CropRecommendation.tsx:69-74 | the crop list is the same whatever the soil, pH and weather |
| CropRecommendation.MissingInformation | src/pages/CropRecommendation.tsx:47 | the guard trips exactly when the soil type or the pH is empty |
| CropRecommendation.PhNotParsed | src/pages/CropRecommendation.tsx:47-64 | pH values of "15", "-3" and "acidic" all pass the guard |
| CropRecommendation.CropRecommendationPage.constructor | src/pages/CropRecommendation.tsx:18-22 | empty inputs, no weather, no report, not loading |
| CropRecommendation.CropRecommendationPage.SetSoilType | src/pages/CropRecommendation.tsx:114 | only the soil type changes |
| CropRecommendation.CropRecommendationPage.SetPh | src/pages/CropRecommendation.tsx:123 | only the pH text changes |
| CropRecommendation.CropRecommendationPage.GenerateRecommendation | src/pages/CropRecommendation.tsx:46-91 | a missing field raises only the warning toast and leaves loading untouched; otherwise the fixed weather and the report are stored, the success toast is raised, and loading ends off |
| CropRecommendation.GenerateThenShow | src/pages/CropRecommendation.tsx:28-76 | after a successful generation the page shows the report of the typed values with the fixed readings: non-empty and holding the typed soil type |
| Text.Contains | src/utils/auth.ts:15 | `includes`: true exactly when the text occurs at some position |
| Text.TrimNoSpace | src/pages/Login.tsx:82 | trimming a string with no whitespace leaves it unchanged |
| Text.NatToStringRoundTrip | src/pages/CropRecommendation.tsx:65-67 | reading a rendered number back gives the number |

## Left out

- Backend calls (Supabase sign-in, sign-up, sign-out, password update, OTP verification and session checks) are not modelled. Their answers are parameters of the handlers.
- Toasts are returned as values. Navigation is a boolean result. Focus moves are returned as the slot to focus.
- Local storage and JSON serialisation are left out. The stored cart is not modelled. The loan page's stored applications are an optional list field; nothing saved is `None`.
- Floating point is left out:
  - the EMI calculator is not part of this model;
  - a cart price is an optional integer, where `None` stands for a price `parseFloat` cannot read (counted as 0);
  - interest rates are in tenths of a percent.
- Cart.CartStore.AddToCart: the source increments the quantity in place on an entry shared with the previous array, and raises its toast inside the state updater, so React's strict mode can apply the increment and the toast twice. The model states one increment and one toast, on values.
- Case mapping and whitespace: upper- and lower-casing are ASCII only. Whitespace is the set JavaScript's `\s` and `trim` use. String lengths count code points, not UTF-16 units.
- `new Date().toISOString()` is a timestamp parameter. The URL hash parsing of the reset link is an optional token parameter.
- Lookups on JavaScript objects ignore inherited properties such as `constructor`. A bank code or path that names one is treated as absent.
- Absent account metadata reads as the empty string in `Profile.User`, matching the `|| ""` defaults of the page.
- Text-to-speech output, the weather widget and the page layouts are not modelled.
- The inline schemas of the selling and renting forms are not part of this model; `ListingSchemas` follows the schemas in the two `types.ts` files.
- Login.LoginPage.HandleLogin: models the handler with the error state it expects from its hook. The hook as written lacks that state, which is the finding below.

## Findings

| source | as written | input that shows it | evidently intended | confidence | as-written member | corrected member |
|---|---|---|---|---|---|---|
| src/pages/Login.tsx:49 | `validateForm` first calls `clearError`, but `useLoginState` (src/hooks/useLoginState.ts:4-17) returns no `error`, `setError` or `clearError`, so the call throws a TypeError before any check or sign-in | email "farmer@agro.in", password "secret" | the hook provides the error state; the form is checked and a well-formed submit signs in | high (not executed) | Login.AsWrittenNeverSignsIn | Login.IntendedHookChecks |
