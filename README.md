# Guide2Umrah front end: page logic in Dafny

A model of the client-side logic of the Guide2Umrah web site, a React front
end for an Umrah travel agency. It covers the state the pages keep and the
rules their handlers follow:

- **Custom package request.** A three-step wizard over one form, with two list
  editors: extra stops, which are trimmed on entry and removed by index, and
  extra services, which are toggled by id. Before the request is sent, an
  ordered validation runs: required fields, the email pattern, the phone
  pattern, then the date order.
- **Admin dashboard.** The package list and a modal that either creates a
  package (POST) or updates the one being edited (PUT). The form is sent as a
  multipart body whose photo part is optional. A confirmed delete filters the
  list.
- **Contact page.** A form whose handler posts it without checks of its own
  and empties it on success.
- **Coming-soon page.** A newsletter form. The handler checks the email
  pattern first. The message shown afterwards is coloured by whether it contains
  "Bedankt".
- **Service detail page.** The fetch of one service, the view chosen from
  loading / error / data, and the price label.
- **Umrah package page.** A fixed table of four packages, looked up with
  `parseInt` of the route parameter.
- **Background images.** The `useBackgroundImage` hook, which fetches and
  uploads a page's override image (a 404 means there is none), and the
  `<BackgroundImage>` container, which draws that image or a fallback.

Each React state hook becomes a field of a Dafny class. Each handler becomes a
method with a `modifies this` frame, and its `ensures` give the whole new
state in terms of the old one. An asynchronous handler that changes state
before its `await` is split in two: one method runs up to the `await` and
another after it. A handler that changes nothing before its `await` (the
dashboard's delete, and the fetch effects) is one method that runs after it.
The outcome of the network request is a parameter of the method that runs
after the `await`:

- `Fetch.Outcome` is one of `Ok(body)`, `HttpStatus(code)` for a non-2xx
  status, or `Transport(message)` for a thrown error.
- `ComingSoon.Reply` also carries the JSON body's `message`.

The pure parts are functions with lemmas about them: validation, the list
editors, the save request, the view selection, the price label and the table
lookup.

The JavaScript built-ins that the pages rely on are modelled as ECMA-262
defines them:

- the `\s` / `String.prototype.trim` white-space set, which is WhiteSpace plus
  LineTerminator, including the Unicode Zs characters;
- truthiness of strings and of `null`;
- `a || b` on strings;
- `String.prototype.includes`;
- `Number.prototype.toString` on integers;
- the global `parseInt` with no radix (section 19.2.5 of ECMA-262): leading
  white space, a sign, a `0x` prefix, and the longest digit prefix.

Each regular expression is given twice: once as the language it denotes and
once as a direct check, with a lemma proving that the two agree.

Modules: `Wrappers` (Option), `Fetch` (request outcomes), `JsString`,
`JsNumber`, `Patterns` (the two regular expressions), and one module per page,
hook or component: `CustomPackage`, `Dashboard`, `Contact`, `ComingSoon`,
`ServiceDetails`, `UmrahPackage`, `UseBackgroundImage`, `BackgroundImage`.

## Model

| member | source | states |
|---|---|---|
| JsString.TrimStartSlice | src/pages/CustomPackage.tsx:69 | `trimStart` drops a white-space prefix and stops at the first other character |
| JsString.TrimEndSlice | src/pages/CustomPackage.tsx:69 | `trimEnd` drops a white-space suffix and stops at the last other character |
| JsString.TrimKeepsCore | src/pages/CustomPackage.tsx:69-72 | `trim` returns a slice of its input; everything cut off on either side is white space, and the result neither starts nor ends with white space |
| JsString.TrimEmptyIff | src/pages/CustomPackage.tsx:69 | `newStop.trim()` is falsy exactly when the text is white space only |
| JsString.TrimIdempotent | src/pages/CustomPackage.tsx:72 | trimming a trimmed stop changes nothing |
| JsString.IncludesInfix | src/pages/ComingSoon.tsx:112 | a string includes every infix it was built from |
| JsNumber.DigitsShape | src/pages/Dashboard.tsx:133 | the decimal form of a natural number is non-empty, all digits, and has no leading zero |
| JsNumber.ValueOfDigits | src/pages/Dashboard.tsx:133 | reading the decimal form back as digits gives the number |
| JsNumber.DigitPrefixStops | src/pages/UmrahPackage.tsx:65 | `parseInt` reads digits up to the first non-digit and no further |
| JsNumber.UnsignedLeadingInteger | src/pages/UmrahPackage.tsx:65 | the unsigned part of `parseInt` reads a number's decimal form followed by a non-digit back as that number |
| JsNumber.ParseIntNegative | src/pages/UmrahPackage.tsx:65 | after a minus sign, `parseInt` reads the digits as a negative number |
| JsNumber.ParseIntFromDigit | src/pages/UmrahPackage.tsx:65 | a string that starts with a digit is read with no white space skipped and no sign |
| JsNumber.ParseIntLeadingInteger | src/pages/UmrahPackage.tsx:65 | `parseInt(n.toString() + rest)` is `n` for any integer `n` when `rest` does not continue the digits |
| JsNumber.ParseIntRoundTrip | src/pages/Dashboard.tsx:133 | `parseInt(n.toString()) == n` for every integer |
| Patterns.IndexOf | src/pages/CustomPackage.tsx:96 | the index of the first occurrence, or the length when there is none |
| Patterns.EmailValidMatches | src/pages/CustomPackage.tsx:96-97 | a string the direct check accepts is in the language of `^[^\s@]+@[^\s@]+\.[^\s@]+$` |
| Patterns.MatchesEmailValid | src/pages/CustomPackage.tsx:96-97 | every string in that language passes the direct check |
| Patterns.EmailValidIffRegex | src/pages/ComingSoon.tsx:20 | the email check and the regular expression accept the same strings |
| Patterns.PhoneValidIffRegex | src/pages/CustomPackage.tsx:103-104 | the phone check accepts exactly the strings of `^[0-9+\-\s()]*$`, the empty string included |
| Patterns.EmailAccepts | src/pages/CustomPackage.tsx:96 | "a@b.nl" and "a@b.c.d" pass |
| Patterns.EmailRejects | src/pages/ComingSoon.tsx:20 | the empty string, a missing dot, an empty part, a second `@` and a space are each refused |
| Patterns.PhoneExamples | src/pages/CustomPackage.tsx:103 | spaces, `+`, `-` and brackets are allowed, and so is the empty number; a dot or a letter is refused |
| CustomPackage.BeforeIsStrictTotalOrder | src/pages/CustomPackage.tsx:110-112 | comparing two days is a strict total order |
| CustomPackage.SameDayAccepted | src/pages/CustomPackage.tsx:112 | an end date equal to the start date passes the date check |
| CustomPackage.IsoRoundTrip | src/pages/CustomPackage.tsx:110-111 | every calendar day with a four-digit year, written `YYYY-MM-DD` as a date input writes it, is read back as that day |
| CustomPackage.ParsedIsValidAndCanonical | src/pages/CustomPackage.tsx:110-111 | a string is read as a date only when it names a real calendar day and is exactly that day's `YYYY-MM-DD` text |
| CustomPackage.IsoOrder | src/pages/CustomPackage.tsx:110-114 | on real dates, the submit check refuses the end date exactly when it is an earlier day than the start date |
| CustomPackage.LeapDayExamples | src/pages/CustomPackage.tsx:110-111 | a leap day is a date and a non-leap 29 February is not; the empty string is no date |
| CustomPackage.DateOrderExamples | src/pages/CustomPackage.tsx:110-114 | an earlier end date is refused, a later one accepted, and an unparsable end date compares as NaN and is accepted |
| CustomPackage.With | src/pages/CustomPackage.tsx:52-57 | the named field takes the value; every other field and both lists keep theirs |
| CustomPackage.RemoveAllMembers | src/pages/CustomPackage.tsx:63 | after the filter, the members are exactly the old members other than the id |
| CustomPackage.RemoveAllAbsent | src/pages/CustomPackage.tsx:63 | filtering out an id that is not there returns the list unchanged |
| CustomPackage.RemoveAllAppend | src/pages/CustomPackage.tsx:63 | the filter distributes over concatenation and keeps the order |
| CustomPackage.RemoveAllDistinct | src/pages/CustomPackage.tsx:63 | the filter keeps a duplicate-free list duplicate-free |
| CustomPackage.ToggleFlipsOnlyThatId | src/pages/CustomPackage.tsx:59-66 | a toggle flips the membership of that service id and of no other |
| CustomPackage.ToggleTwiceFromAbsent | src/pages/CustomPackage.tsx:59-66 | ticking then unticking an absent id restores the list exactly |
| CustomPackage.ToggleKeepsDistinct | src/pages/CustomPackage.tsx:62-64 | no service id is ever listed twice |
| CustomPackage.DropIndexRemovesExactlyOne | src/pages/CustomPackage.tsx:78-83 | removing stop `index` drops exactly that element and keeps the rest in order; an index out of range changes nothing |
| CustomPackage.DropIndexKeepsTrimmed | src/pages/CustomPackage.tsx:78-83 | after a removal, every stop is still non-empty and trimmed |
| CustomPackage.MessagesDiffer | src/pages/CustomPackage.tsx:89-115 | the four validation messages are pairwise different, so the message names the failed check |
| CustomPackage.RequiredCheckedFirst | src/pages/CustomPackage.tsx:89-93 | the required-field message is given exactly when one of the seven required fields is empty |
| CustomPackage.EmailCheckedSecond | src/pages/CustomPackage.tsx:95-100 | the email message is given exactly when all required fields are filled and the email fails the pattern |
| CustomPackage.PhoneCheckedThird | src/pages/CustomPackage.tsx:102-107 | the phone message is given exactly when the earlier checks pass and the phone fails the pattern |
| CustomPackage.DatesCheckedLast | src/pages/CustomPackage.tsx:109-115 | the date message is given exactly when the earlier checks pass and the end date is before the start date |
| CustomPackage.AcceptedIffAllChecksPass | src/pages/CustomPackage.tsx:89-119 | the request is sent exactly when every check passes |
| CustomPackage.OptionalFieldsUnchecked | src/pages/CustomPackage.tsx:89-115 | the people count, the preferences, the stops, the services and the special requests do not affect validation |
| CustomPackage.WhitespaceCountsAsFilled | src/pages/CustomPackage.tsx:89-90 | a required field holding only a space counts as filled in |
| CustomPackage.CustomPackagePage.constructor | src/pages/CustomPackage.tsx:23-42 | the page starts on step 1, with an empty stop box, the initial form (one person, comfort, comfort) and no messages |
| CustomPackage.CustomPackagePage.InputChange | src/pages/CustomPackage.tsx:52-57 | only the named field changes, and the invariant is kept |
| CustomPackage.CustomPackagePage.NewStopChange | src/pages/CustomPackage.tsx:210-211 | the stop box takes the typed text and nothing else changes |
| CustomPackage.CustomPackagePage.CheckboxChange | src/pages/CustomPackage.tsx:59-66 | the services list becomes the toggle of the old one, with no duplicates, and nothing else changes |
| CustomPackage.CustomPackagePage.AddStop | src/pages/CustomPackage.tsx:68-76 | a stop that is not white space only is appended trimmed and the box is cleared; otherwise nothing changes; every stop stays trimmed and non-empty |
| CustomPackage.CustomPackagePage.RemoveStop | src/pages/CustomPackage.tsx:78-83 | the stops become the old ones without entry `index`, and nothing else changes |
| CustomPackage.CustomPackagePage.NextStep | src/pages/CustomPackage.tsx:460-463 | "Volgende", offered only before step 3, moves one step forward and keeps the step within 1..3 |
| CustomPackage.CustomPackagePage.PreviousStep | src/pages/CustomPackage.tsx:451-454 | "Vorige", offered only after step 1, moves one step back and keeps the step within 1..3 |
| CustomPackage.CustomPackagePage.BeginSubmit | src/pages/CustomPackage.tsx:85-119 | the request is made exactly when validation passes; otherwise the first failed check's message is set and nothing else changes; a request starts loading and clears both messages |
| CustomPackage.CustomPackagePage.CompleteSubmit | src/pages/CustomPackage.tsx:121-149 | success sets the fixed success message; a non-2xx status sets the fixed send-failure message; a thrown error sets its own message; loading ends; the form is kept |
| Dashboard.With | src/pages/Dashboard.tsx:48-56 | the named text field takes the value; the other fields and the photo keep theirs |
| Dashboard.EditedPriceReadsBack | src/pages/Dashboard.tsx:133 | the price text that the edit form is filled with parses back to the package's price |
| Dashboard.PutIffEditing | src/pages/Dashboard.tsx:82-93 | PUT to `/api/packages/{id}` exactly when `editPackageId` is truthy, POST to `/api/packages` otherwise |
| Dashboard.PhotoPartIffChosen | src/pages/Dashboard.tsx:72-79 | the four text parts are always sent, in order; the photo part is sent exactly when a photo is chosen, and it is that photo |
| Dashboard.CancelledEditSavesAsNew | src/pages/Dashboard.tsx:127-137 | after an edit is cancelled, which keeps the form, saving posts the edited package's fields as a new package |
| Dashboard.RemoveByIdMembers | src/pages/Dashboard.tsx:155 | after a delete, the packages left are exactly those with another id |
| Dashboard.RemoveByIdAppend | src/pages/Dashboard.tsx:155 | the filter distributes over concatenation and keeps the order |
| Dashboard.RemoveByIdAbsent | src/pages/Dashboard.tsx:155 | deleting an id that is not listed leaves the list as it is |
| Dashboard.RemoveByIdLength | src/pages/Dashboard.tsx:155 | one entry is dropped for each package carrying the id |
| Dashboard.TitleMatchesVerb | src/pages/Dashboard.tsx:228 | the modal is titled "Pakket Bewerken" exactly when saving sends a PUT |
| Dashboard.DashboardPage.constructor | src/pages/Dashboard.tsx:14-25 | the modal is closed, the form and the list are empty, nothing is being edited, and there is no error |
| Dashboard.DashboardPage.CompleteInitialFetch | src/pages/Dashboard.tsx:28-46 | the fetched list replaces the list; any failure sets the fixed message and keeps the list |
| Dashboard.DashboardPage.InputChange | src/pages/Dashboard.tsx:48-56 | only the named field of the form changes |
| Dashboard.DashboardPage.FileChange | src/pages/Dashboard.tsx:58-66 | a chosen file replaces the photo; no file changes nothing |
| Dashboard.DashboardPage.OpenNew | src/pages/Dashboard.tsx:177-178 | "Nieuw Pakket Toevoegen" only opens the modal, and it keeps any edit target and form contents |
| Dashboard.DashboardPage.Edit | src/pages/Dashboard.tsx:127-137 | the edit target is the package's id, the form carries its fields with the price as text and no photo, and the modal opens |
| Dashboard.DashboardPage.Cancel | src/pages/Dashboard.tsx:318-321 | "Annuleren" closes the modal and clears the edit target but keeps the form |
| Dashboard.DashboardPage.BeginSave | src/pages/Dashboard.tsx:68-93 | loading starts and the request sent is the one built from the edit target and the form |
| Dashboard.DashboardPage.CompleteSave | src/pages/Dashboard.tsx:95-124 | a saved package gives the added or updated alert, closes the modal, empties the form, clears the edit target and takes the refetched list; a failed refetch adds the failure alert and keeps the list; a failed save gives only the failure alert and changes nothing; loading ends |
| Dashboard.DashboardPage.Delete | src/pages/Dashboard.tsx:139-160 | no request is sent without confirmation; a successful delete filters out the id and gives the deleted alert; a failure keeps the list and gives the failure alert |
| Contact.With | src/pages/Contact.tsx:29-34 | the named field takes the value and the others keep theirs |
| Contact.WithOwnValue | src/pages/Contact.tsx:33 | writing a field's own value back changes nothing |
| Contact.WithTwice | src/pages/Contact.tsx:33 | of two edits to the same field, only the last counts |
| Contact.ContactPage.constructor | src/pages/Contact.tsx:16-27 | empty form, no status, not loading |
| Contact.ContactPage.InputChange | src/pages/Contact.tsx:29-34 | only the named field changes |
| Contact.ContactPage.BeginSubmit | src/pages/Contact.tsx:36-46 | with no check, loading starts and the form is sent as it is |
| Contact.ContactPage.CompleteSubmit | src/pages/Contact.tsx:48-70 | success sets the fixed success status and empties the form; any failure sets the fixed error status and keeps the form; loading ends |
| ComingSoon.ThanksAnywhereIsGreen | src/pages/ComingSoon.tsx:110-112 | a message with "Bedankt" anywhere in it is drawn green, whatever surrounds it |
| ComingSoon.DefaultThanksIsGreen | src/pages/ComingSoon.tsx:45 | a success without a server message shows the default thanks, in green |
| ComingSoon.DefaultFailureIsRed | src/pages/ComingSoon.tsx:40 | a failure without a server message shows the default failure, in red |
| ComingSoon.ColourIgnoresOutcome | src/pages/ComingSoon.tsx:110-112 | the colour follows the text, not the outcome: a failure with a thanking message is green, and a success with another message is red |
| ComingSoon.ComingSoonPage.constructor | src/pages/ComingSoon.tsx:8-10 | empty email, no message, not submitting |
| ComingSoon.ComingSoonPage.EmailChange | src/pages/ComingSoon.tsx:94 | the email takes the typed text |
| ComingSoon.ComingSoonPage.BeginSubmit | src/pages/ComingSoon.tsx:16-26 | the request is made exactly when the email passes the pattern; otherwise the fixed message is shown; a request clears the message and starts submitting |
| ComingSoon.ComingSoonPage.CompleteSubmit | src/pages/ComingSoon.tsx:37-52 | success clears the email and shows the server's message or the default thanks; a failure keeps the email and shows the server's, the default or the thrown message; submitting ends |
| ServiceDetails.FreeWhateverPrice | src/pages/ServiceDetails.tsx:153-154 | a free service is labelled "Gratis" whatever its price |
| ServiceDetails.PricedLabelReadsBack | src/pages/ServiceDetails.tsx:156-157 | a non-free service with a truthy price is labelled "Vanaf €" followed by the price, and the price parses back from the label |
| ServiceDetails.NoPriceOnRequest | src/pages/ServiceDetails.tsx:157 | a non-free service with price `null` or 0 is labelled "Prijs op aanvraag" |
| ServiceDetails.PriceLabelIff | src/pages/ServiceDetails.tsx:153-159 | each of the three labels is produced exactly in its own case |
| ServiceDetails.ViewPrecedence | src/pages/ServiceDetails.tsx:50-71 | loading wins, then a non-empty error, then "No service found." for no data, and only then the details of that service; each view exactly in its case |
| ServiceDetails.FailedFetchShowsError | src/pages/ServiceDetails.tsx:54-58 | after a failed fetch, the error view shows the fixed message whatever the data |
| ServiceDetails.ServiceDetailsPage.constructor | src/pages/ServiceDetails.tsx:26-29 | no data, loading, no error |
| ServiceDetails.ServiceDetailsPage.CompleteFetch | src/pages/ServiceDetails.tsx:32-71 | a body, possibly `null`, replaces the data; any failure sets "Error fetching service" and keeps the data; an earlier error is never cleared; loading ends. After a failure the page shows the error view; after a success with no earlier error it shows the details, or "No service found." for `null` |
| UmrahPackage.EmptyIdInvalid | src/pages/UmrahPackage.tsx:65-66 | an undefined or empty id gives the invalid-id view |
| UmrahPackage.LeadingIntegerSelects | src/pages/UmrahPackage.tsx:65 | an integer followed by anything that does not continue it selects exactly that entry of the four when it is 0 to 3, and nothing otherwise, negatives included |
| UmrahPackage.DecimalIdSelects | src/pages/UmrahPackage.tsx:22-59 | the decimal forms of 0 to 3 select those entries of the table, and the decimal form of every other integer selects nothing |
| UmrahPackage.FoundIsInTable | src/pages/UmrahPackage.tsx:65 | whatever is found is an entry of the table, reached only through a truthy id that parses |
| UmrahPackage.NonNumericInvalid | src/pages/UmrahPackage.tsx:65-66 | "abc" parses to NaN and gives the invalid view |
| UmrahPackage.DigitPrefixExamples | src/pages/UmrahPackage.tsx:65 | "1x" selects entry 1; "4" and "-1" select nothing |
| UmrahPackage.MinusZeroSelectsFirst | src/pages/UmrahPackage.tsx:65 | "-0" selects entry 0 |
| UmrahPackage.WhitespaceAndHexIds | src/pages/UmrahPackage.tsx:65 | " 2" selects entry 2 and "0x3" selects entry 3, because `parseInt` skips white space and reads hexadecimal |
| UseBackgroundImage.BackgroundImageHook.constructor | src/hooks/useBackgroundImage.ts:20-22 | no image, loading, no error |
| UseBackgroundImage.BackgroundImageHook.CompleteFetch | src/hooks/useBackgroundImage.ts:25-43 | success stores the URL and clears the error; a 404 means no override, with no error; any other failure sets the fixed message and keeps the image; loading ends |
| UseBackgroundImage.BackgroundImageHook.BeginUpload | src/hooks/useBackgroundImage.ts:49 | loading starts and nothing else changes |
| UseBackgroundImage.BackgroundImageHook.CompleteUpload | src/hooks/useBackgroundImage.ts:50-72 | success shows the returned URL at once and clears the error; any failure, a 404 included, keeps the image and sets the fixed message; loading ends |
| BackgroundImage.OverrideWins | src/components/BackgroundImage.tsx:20 | a non-empty override is drawn whatever the fallback |
| BackgroundImage.FallbackWhenNoOverride | src/components/BackgroundImage.tsx:20-27 | with no override, or an empty one, a non-empty fallback is drawn |
| BackgroundImage.NoStyleIffNoImage | src/components/BackgroundImage.tsx:26-27 | no inline style exactly when neither image is a non-empty string |
| BackgroundImage.StyledUrlIsAnImage | src/components/BackgroundImage.tsx:19-27 | when a style is applied, it draws the non-empty one of the two images and never `url(undefined)` |
| BackgroundImage.LoadingIgnoredAndClassFixed | src/components/BackgroundImage.tsx:17-30 | the loading flag changes nothing, and the class is "relative " followed by the given class, empty by default |

## Left out

- Network I/O (`fetch`, `axios`), JSON (de)serialisation, `FormData`
  encoding, environment URLs and the hard-coded host: each request is a
  parameter carrying its outcome.
- Console logging, `window.alert`, and the 3-second redirect after a
  successful custom-package request: these are timing, routing and output.
  Alerts are returned as values, and `window.confirm` is a boolean parameter.
- Rendering other than the choices modelled: markup, carousels, SEO
  descriptions, WhatsApp links and image `alt` texts.
- The `isVisible` fade-in flag of the coming-soon page: it only drives a CSS
  transition.
- Concurrency between overlapping requests: each handler's two halves are
  modelled as running in order, with no interleaving.
- Floating-point numbers:
  - `ServiceDetails.Service` prices and `Dashboard.Package` prices are
    integers, so `toString` of fractional or very large prices (exponent
    notation) is not modelled.
  - `parseInt` yields the exact integer, with no rounding to a double. In the
    package lookup this changes nothing: every value of 4 or more stays out of
    the table.
- `new Date(...)`: a date is modelled as a `YYYY-MM-DD` string, which is what a
  date input yields. Any other string is treated as an invalid date, which
  compares false. Time zones and the other formats `Date` accepts are not
  modelled.
- Dashboard.DashboardPage.CompleteSave: the refetch after a save does not
  check `res.ok` in the source. The model's refetch outcome is either a list
  or a failure, so an error body that parses as JSON and replaces the list is
  not modelled.
- ServiceDetails.ServiceDetailsPage.CompleteFetch: the fetch effect runs again
  when `serviceId` changes, and the route change itself is not modelled.
  The method has no precondition on `loading`, so it also describes a re-run:
  as in the source, a re-run does not set `loading` back to true and does not
  clear an earlier `error`.
- The photo file is modelled by its name only.
- The browser's own checks of `required` and `type="email"`/`type="number"`
  inputs can stop the submit before the handler runs. They are not modelled:
  every Begin* method may be called on any form. For example, "a@b..c"
  passes the handler's email pattern but not the browser's `type="email"`
  check.
- CustomPackage.ParseIsoDate: a browser's `new Date` may roll an impossible
  day such as "2023-02-29" over into the next month. The model treats such a
  string as an invalid date, so the date check accepts it. A date input never
  yields such a string.
- CustomPackage.CustomPackagePage.CompleteSubmit and
  ComingSoon.ComingSoonPage.CompleteSubmit: the `catch` fallback for a thrown
  value that is not an `Error` is not modelled. `Transport(message)` and
  `Thrown(message)` always carry a message.
