# MedYordam diagnosis core in Dafny

MedYordam lets emergency doctors look up a patient's medical history by passport
number. This project models the part of it that has real rules:

- **Error taxonomy** (`errors.dfy`, module `Errors`). These are the backend's
  application errors: validation, not found, unauthorized, forbidden, conflict,
  internal. The root class takes its status, operational flag and code as
  arguments. Validation and conflict errors fix their status and flag but take
  the code as an argument. Not-found, unauthorized, forbidden and internal
  errors fix all three. The
  module also holds the classifier that maps raw storage error codes onto these
  kinds, and the renderer that builds the JSON error body and hides the detail
  of unexpected failures.
- **Patient routes** (`patients.dfy`, module `PatientRoutes`). These are the
  backend handlers for passport lookup, listing a patient's diagnoses and
  immunizations, and creating a diagnosis. They run over a class `PatientStore`
  whose tables are sequences of rows.
- **One-time-disease rule** (`one_time_rule.dfy`, module `OneTimeRule`). This is
  the hard-coded list measles, mumps and chickenpox, plus name matching after
  lower-casing. Backend and front end both use it.
- **Patient page** (`patient_detail.dfy`, module `PatientDetail`). This is the
  front-end page state as a class `PatientDetailPage`. It covers the initial
  load, the realtime prepend of new diagnoses, the add-diagnosis form and its
  submission. Submission is the one place a repeated one-time diagnosis is
  actually refused.
- **Recent searches** (`recent_searches.dfy`, module `RecentSearches`). This is
  a most-recent-first list of patients, keyed by passport. Every `addSearch`
  leaves at most five entries, while the list loaded from storage on mount is
  taken as stored, with no bound. It lives in a class `RecentSearchHistory` that mirrors the list into browser
  storage.
- **Page metadata** (`seo.dfy`, module `Seo`). These are the title suffix, the
  canonical URL, the absolute image URL, the `og:locale` mapping and the
  property defaults.

`records.dfy` holds the shared records: Patient, Diagnosis (with the optional
`doctors.full_name`), Immunization, Gender, and the storage client's error
object. `text.dfy` holds the string operations used: `toLowerCase`,
`startsWith` and `includes`.

What the storage service, the clock, the signed-in user and the realtime
re-fetch decide is passed in as parameters:

- a query failure is an `Option<StoreError>`;
- diagnosis timestamps are `Timestamp` (a `nat` instant);
- a new row's id and creation instant are arguments;
- the record fetched after a realtime event is an argument;
- the timestamp of a recent search is an argument.

Where the code disagrees with what its comments and tests describe, the model
follows the code. The comments are at `backend/src/routes/patients.ts:99-101`
and `frontend/src/pages/PatientDetail.tsx:89` ("also enforced on backend"):

- The backend never answers 400 `REDUNDANT_DIAGNOSIS`. The lookup result in the
  create handler is discarded and the row is always inserted. The test at
  `backend/src/routes/__tests__/patients.test.ts:133-136` expects 400 with
  `warning=true`. The reply type of the model has no 400 case at all, and
  `PatientRoutes.PatientStore.CreateDiagnosis` proves that every reply is 200
  or 500. `PatientRoutes.RepeatedOneTimeDiagnosisIsStored` shows that two
  measles rows end up stored. This is a known divergence of the code
  from its test. The model does not change it.
- The classifier is not idempotent (see "## Findings").
- No handler validates that the name and description are non-empty. The route
  schema only asks for strings.
- Storage failures of the list and create routes are sent back raw with status
  500. They are not passed through the classifier.

## Model

| member | source | states |
|---|---|---|
| `Errors.NewAppError` | backend/src/utils/errors.ts:5-16 | A root-class error carries exactly the status, message, operational flag and code it was given. |
| `Errors.ValidationError` | backend/src/utils/errors.ts:18-28 | A validation error is 400 and operational. It keeps the given code, warning flag and existing diagnosis. |
| `Errors.NotFoundError` | backend/src/utils/errors.ts:30-35 | A not-found error is 404, operational, with code NOT_FOUND. The default message is "Resource not found". |
| `Errors.UnauthorizedError` | backend/src/utils/errors.ts:37-42 | An unauthorized error is 401, operational, with code UNAUTHORIZED. |
| `Errors.ForbiddenError` | backend/src/utils/errors.ts:44-49 | A forbidden error is 403, operational, with code FORBIDDEN. |
| `Errors.ConflictError` | backend/src/utils/errors.ts:51-56 | A conflict error is 409 and operational, with the given code. |
| `Errors.InternalServerError` | backend/src/utils/errors.ts:58-63 | An internal error is 500, not operational, with code INTERNAL_ERROR. |
| `Errors.ConstructorFields` | backend/src/utils/__tests__/errors.test.ts:16-46 | The field values the tests expect of each freshly built error. |
| `Errors.ErrorForCode` | backend/src/utils/errors.ts:108-119 | The switch agrees with the reference code table: PGRST116 gives 404 NOT_FOUND, 23505 gives 409 DUPLICATE_ENTRY, 23503 gives 400 FOREIGN_KEY_VIOLATION, 23502 gives 400 NOT_NULL_VIOLATION, each with the table's message ("Resource not found", "Resource already exists", "Invalid reference", "Required field is missing"). Any other code gives Internal 500 "Database error occurred". |
| `Errors.HandleSupabaseError` | backend/src/utils/errors.ts:101-129 | No error gives Internal "Unknown error occurred". A truthy code follows the table, including on an application error. A code-less application error comes back unchanged. A code-less plain error becomes Internal with its own message, or "An error occurred" when it has none. Well-formedness is preserved. |
| `Errors.ClassificationStatuses` | backend/src/utils/errors.ts:101-129 | Every input is classified. The status is 400, 404, 409 or 500, unless a root-class error is passed through as it was. |
| `Errors.ClassificationExamples` | backend/src/utils/__tests__/errors.test.ts:72-101 | The classification outcomes the tests expect for PGRST116, 23505, 23503, 23502, an unknown code and no error. |
| `Errors.ReclassificationNotIdempotent` | backend/src/utils/errors.ts:107-125 | As written, a not-found error reclassifies as 500. An unauthorized error reclassifies as Internal. Classifying a classified PGRST116 error changes it. |
| `Errors.HandleSupabaseErrorPassThrough` | backend/src/utils/errors.ts:122-125 | This is the corrected classifier. It returns any application error unchanged and otherwise agrees with the written one. |
| `Errors.PassThroughIdempotent` | backend/src/utils/errors.ts:122-125 | Classifying twice with the corrected classifier is the same as classifying once. |
| `Errors.PassThroughAgrees` | backend/src/utils/errors.ts:101-129 | The correction changes nothing except for application errors that carry a code. |
| `Errors.FormatErrorResponse` | backend/src/utils/errors.ts:68-96 | An operational application error renders its own message, status and code. `warning` and `existing_diagnosis` are added only for a validation error that has them. Anything else renders exactly as the generic Internal body. |
| `Errors.FormatExamples` | backend/src/utils/__tests__/errors.test.ts:48-70 | The two rendering examples of the tests. |
| `Errors.StoreMessageNeverRendered` | backend/src/utils/errors.ts:90-95 | Classifying a storage error and then rendering it gives a body that does not depend on the storage error's message. |
| `Errors.WarningOnlyForValidation` | backend/src/utils/errors.ts:77-85 | A rendered body carries a warning or an existing diagnosis only for a validation error. |
| `Text.Lower` | frontend/src/pages/PatientDetail.tsx:92 | Lower-casing keeps the length and folds every character. |
| `Text.LowerIdempotent` | frontend/src/pages/PatientDetail.tsx:92 | Lower-casing twice is the same as lower-casing once. |
| `Text.StartsWith` | frontend/src/components/SEO.tsx:25 | `startsWith` holds exactly when the prefix is no longer than the string and agrees with it position by position. |
| `Text.Contains` | frontend/src/pages/PatientDetail.tsx:112 | `includes` holds whenever the string starts with the substring, and only when the substring is no longer than the string. |
| `Text.ContainsIff` | frontend/src/pages/PatientDetail.tsx:112 | `includes` holds exactly when the substring starts at some position. |
| `OneTimeRule.IsOneTimeDisease` | backend/src/routes/patients.ts:89-90 | A one-time name has the length of a listed name: 5, 7 or 10 characters. The same test is written at frontend/src/pages/PatientDetail.tsx:90-91. |
| `OneTimeRule.SameDisease` | frontend/src/pages/PatientDetail.tsx:92 | Equal names are the same disease, and names of the same disease have the same length. |
| `OneTimeRule.SomeSameDisease` | frontend/src/pages/PatientDetail.tsx:92 | The `some` scan succeeds on some position holding exactly the name, and never on an empty list. |
| `OneTimeRule.IsOneTimeDiseaseExact` | backend/src/routes/patients.ts:89-90 | A name is one-time exactly when it has the length of a listed name and matches it letter by letter up to case. There is no trimming and no partial match. |
| `OneTimeRule.IsOneTimeDiseaseCaseInsensitive` | frontend/src/pages/PatientDetail.tsx:90-91 | Names equal up to case are both one-time or both not. |
| `OneTimeRule.MeaslesSpellings` | backend/src/routes/patients.ts:89-90 | "Measles", "MEASLES" and "measles" are all one-time and are the same disease. |
| `OneTimeRule.NotOneTimeSpellings` | backend/src/routes/patients.ts:89-90 | " measles", "measles vaccine" and "Influenza" are not one-time. |
| `OneTimeRule.OtherLengthNotOneTime` | backend/src/routes/patients.ts:89-90 | A name whose length is not 5, 7 or 10 is never one-time. |
| `OneTimeRule.SomeSameDiseaseIff` | frontend/src/pages/PatientDetail.tsx:92 | The `some` scan finds a match exactly when some position holds a name equal up to case. |
| `OneTimeRule.MatchingDiagnoses` | backend/src/routes/patients.ts:91-96 | The redundancy lookup returns exactly the patient's rows whose name is equal up to case. |
| `PatientRoutes.InsertNewestFirst` | backend/src/routes/patients.ts:59 | Inserting a row into a newest-first list keeps it newest first and adds exactly that row. The new head is that row or the old head. |
| `PatientRoutes.SortNewestFirst` | backend/src/routes/patients.ts:59 | The ordering by created_at descending gives a newest-first permutation of the rows. |
| `PatientRoutes.DiagnosesOf` | backend/src/routes/patients.ts:55-58 | The patient filter keeps exactly the patient's rows, each as often as in the table. |
| `PatientRoutes.ImmunizationsOf` | backend/src/routes/patients.ts:137-140 | The patient filter keeps exactly the patient's immunizations, each as often as in the table. |
| `PatientRoutes.PatientsWithPassport` | backend/src/routes/patients.ts:28-31 | The passport filter keeps exactly the patients with that passport, each as often as in the table. |
| `PatientRoutes.PassportMatchesOne` | backend/src/routes/patients.ts:28-32 | With unique passports, the query finds one row when the passport is known and none otherwise. |
| `PatientRoutes.PatientStore.constructor` | backend/src/routes/patients.ts:26-146 | A store holds exactly the given tables. Its passports and diagnosis ids are unique. |
| `PatientRoutes.PatientStore.GetByPassport` | backend/src/routes/patients.ts:26-38 | The reply is 200 with the patient exactly when the query succeeds and the passport is known. Otherwise it is 404 "Patient not found". |
| `PatientRoutes.PatientStore.ListDiagnoses` | backend/src/routes/patients.ts:53-65 | A store error gives 500 with that error. Otherwise the reply holds exactly the patient's diagnoses, with their multiplicities, newest first. |
| `PatientRoutes.PatientStore.ListImmunizations` | backend/src/routes/patients.ts:135-146 | A store error gives 500 with that error. Otherwise the reply holds exactly the patient's immunizations, each as often as in the table. |
| `PatientRoutes.PatientStore.CreateDiagnosis` | backend/src/routes/patients.ts:84-120 | The lookup runs exactly for one-time names, and its result is unused. An insert error gives 500 and leaves the table unchanged. Otherwise exactly one row is appended with the path id, name, description and user id, and that row is answered. Every reply is 200 or 500. |
| `PatientRoutes.RepeatedOneTimeDiagnosisIsStored` | backend/src/routes/patients.ts:88-120 | A second create of measles (spelled "MEASLES") for the same patient answers 200. Two matching rows end up stored. |
| `PatientDetail.IsBlocked` | frontend/src/pages/PatientDetail.tsx:90-93 | Blocking needs a one-time name and a non-empty shown list. A one-time name that is shown exactly as typed is always blocked. |
| `PatientDetail.IsRedundantError` | frontend/src/pages/PatientDetail.tsx:112 | The code REDUNDANT_DIAGNOSIS, or a message that starts with "one-time disease", is a redundancy error. Otherwise the code is REDUNDANT_DIAGNOSIS or the message is long enough to contain the phrase. |
| `PatientDetail.WarningFor` | frontend/src/pages/PatientDetail.tsx:113 | The warning shown is never empty. It is the error's message, or the repeated-test warning when the message is empty. |
| `PatientDetail.IsBlockedIff` | frontend/src/pages/PatientDetail.tsx:90-93 | Submission is blocked exactly when the name is one-time and some shown diagnosis has the same name up to case. |
| `PatientDetail.OtherDiseasesNeverBlocked` | frontend/src/pages/PatientDetail.tsx:90-91 | A name outside the list is never blocked, whatever is shown. |
| `PatientDetail.Prepended` | frontend/src/pages/PatientDetail.tsx:72-74 | A fetched record goes in front and the prior entries follow in order. No record leaves the list unchanged. |
| `PatientDetail.PrependedCountsAndBlocks` | frontend/src/pages/PatientDetail.tsx:66-74 | There is no de-duplication: the delivered record is counted once more. A delivered one-time diagnosis blocks a repeat of it. |
| `PatientDetail.PatientDetailPage.constructor` | frontend/src/pages/PatientDetail.tsx:14-27 | The initial component state: nothing loaded, loading, modal closed, empty form, no warning. |
| `PatientDetail.PatientDetailPage.LoadInitial` | frontend/src/pages/PatientDetail.tsx:29-47 | Without a route id nothing changes. Otherwise each piece of state is replaced only by data that came back, a found patient is added to the recent searches, and loading ends. |
| `PatientDetail.PatientDetailPage.OnRealtimeInsert` | frontend/src/pages/PatientDetail.tsx:62-75 | The fetched record is prepended. Nothing else changes. |
| `PatientDetail.PatientDetailPage.OpenAddModal` | frontend/src/pages/PatientDetail.tsx:249 | Only the modal opens. |
| `PatientDetail.PatientDetailPage.EditName` | frontend/src/pages/PatientDetail.tsx:337 | Only the form's name changes. |
| `PatientDetail.PatientDetailPage.EditDescription` | frontend/src/pages/PatientDetail.tsx:347 | Only the form's description changes. |
| `PatientDetail.PatientDetailPage.CancelAddModal` | frontend/src/pages/PatientDetail.tsx:356 | The modal closes and the warning clears. Nothing else changes. |
| `PatientDetail.PatientDetailPage.HandleAddDiagnosis` | frontend/src/pages/PatientDetail.tsx:84-123 | A blocked name sends nothing and sets the repeated-test warning. Otherwise the form is sent. Success closes the modal, empties the form and clears the warning. A REDUNDANT_DIAGNOSIS or "one-time disease" error sets the warning. Any other error adds an alert. Submitting ends false on every path. |
| `PatientDetail.RepeatBlockedOnPage` | frontend/src/pages/PatientDetail.tsx:84-123 | After measles is recorded and delivered over the realtime channel, "MEASLES" is refused on the page and nothing is sent. |
| `RecentSearches.WithoutPassport` | node_modules/@ems/frontend/src/hooks/useRecentSearches.ts:60 | Removal keeps exactly the entries of other passports. |
| `RecentSearches.WithoutPassportCounts` | node_modules/@ems/frontend/src/hooks/useRecentSearches.ts:60 | Removal keeps each entry of another passport as often as the list holds it, so duplicates in a mounted list survive. |
| `RecentSearches.Take` | node_modules/@ems/frontend/src/hooks/useRecentSearches.ts:42 | `slice(0, n)` gives the first min(n, length) entries. |
| `RecentSearches.WithSearch` | node_modules/@ems/frontend/src/hooks/useRecentSearches.ts:29-48 | After an add, the list has between one and five entries, and the new entry is first. |
| `RecentSearches.WithSearchShape` | node_modules/@ems/frontend/src/hooks/useRecentSearches.ts:32-42 | After an add, the passport occurs only first. The rest is the old list without that passport, in its order, cut to four. |
| `RecentSearches.WithSearchUnique` | node_modules/@ems/frontend/src/hooks/useRecentSearches.ts:32-42 | An add preserves unique passports. |
| `RecentSearches.WithoutPassportKeepsOrder` | node_modules/@ems/frontend/src/hooks/useRecentSearches.ts:60 | Removal yields a subsequence of the old list. |
| `RecentSearches.WithoutAbsentPassport` | node_modules/@ems/frontend/src/hooks/useRecentSearches.ts:58-63 | Removing an absent passport changes nothing. |
| `RecentSearches.WithoutPassportUnique` | node_modules/@ems/frontend/src/hooks/useRecentSearches.ts:60 | Removal preserves unique passports. |
| `RecentSearches.PrefixOfSubsequence` | node_modules/@ems/frontend/src/hooks/useRecentSearches.ts:42 | Cutting a subsequence short leaves a subsequence. |
| `RecentSearches.Mounted` | node_modules/@ems/frontend/src/hooks/useRecentSearches.ts:16-25 | A parsed stored list is taken as it is. A non-empty list comes only from a parsed stored value. |
| `RecentSearches.RecentSearchHistory.constructor` | node_modules/@ems/frontend/src/hooks/useRecentSearches.ts:13-26 | A parsed stored list is loaded as it is. An unparseable one is removed. Afterwards a reload agrees with the held list. |
| `RecentSearches.RecentSearchHistory.AddSearch` | node_modules/@ems/frontend/src/hooks/useRecentSearches.ts:29-49 | The list becomes the add result, the stored copy equals it, and unique passports stay unique. |
| `RecentSearches.RecentSearchHistory.RemoveSearch` | node_modules/@ems/frontend/src/hooks/useRecentSearches.ts:58-64 | The list loses the passport, the stored copy equals it, unique passports stay unique, and removing an absent passport changes nothing. |
| `RecentSearches.RecentSearchHistory.ClearSearches` | node_modules/@ems/frontend/src/hooks/useRecentSearches.ts:52-55 | The list is empty and nothing is stored. |
| `Seo.SiteTitle` | frontend/src/components/SEO.tsx:23 | The site title is the page title followed by the site suffix: a space, a vertical bar, a space and "MedYordam". |
| `Seo.SiteTitleInjective` | frontend/src/components/SEO.tsx:23 | Different page titles give different site titles. |
| `Seo.CanonicalUrl` | frontend/src/components/SEO.tsx:24 | A truthy `url` is used. Otherwise the page's address is used, or https://medyordam.uz when there is no window. |
| `Seo.FullImageUrl` | frontend/src/components/SEO.tsx:25 | An image starting with "http" is unchanged. Any other image is prefixed with https://medyordam.uz. The result always starts with "http". |
| `Seo.FullImageUrlIdempotent` | frontend/src/components/SEO.tsx:25 | Making an image URL absolute twice is the same as doing it once. |
| `Seo.OgLocale` | frontend/src/components/SEO.tsx:47 | uz maps to uz_UZ, ru maps to ru_RU, and anything else to en_US. |
| `Seo.Head` | frontend/src/components/SEO.tsx:14-56 | title, og:title and twitter:title are the site title. The image, URL and description tags share one value each. Left-out properties take their defaults. robots, og:site_name, og:image:width/height and twitter:card are the fixed "index, follow", "MedYordam", 1200 by 630 and "summary_large_image". |
| `Seo.HeadDefaults` | frontend/src/components/SEO.tsx:14-21 | A title-only page gets the default description, keywords, image and type. An empty-string property is kept. |

## Findings

| source | as written | input that shows it | evidently intended | confidence | as-written member | corrected member |
|---|---|---|---|---|---|---|
| backend/src/utils/errors.ts:107-125 | The `code` switch runs before the application-error pass-through, so an application error that already has a code is classified again | `handleSupabaseError(new NotFoundError())` returns an InternalServerError (500). `new UnauthorizedError()` becomes a non-operational 500 | An application error is returned as it is, as the comment at line 122 says | medium, not executed | `Errors.ReclassificationNotIdempotent` (on `Errors.HandleSupabaseError`) | `Errors.HandleSupabaseErrorPassThrough` with `Errors.PassThroughIdempotent` |

## Left out

- Authentication: the login routes, the JWT hook of the patient routes and the token types. They wrap the auth provider.
- Server bootstrap, routing, JSX rendering, the quick search on the patient page, navigation and printing. These are framework and UI glue.
- Localisation: the translation tables and the language selector.
- Date formatting for display.
- Request schema validation by the route schemas (a body without string fields is refused by the framework before the handler runs).
- The browser's `required` check on the form fields, which keeps an empty form from being submitted.
- The storage client itself. Query failures, the ids and instants the store assigns, and any constraint violation on insert (such as an unknown patient id) are parameters of the methods.
- `.single()` is modelled only for the passport lookup (exactly one row, else an error). For the discarded redundancy lookup, the matching rows are returned without the single-row reduction.
- The `doctors(full_name)` join of the diagnosis list and of the realtime re-fetch: listed rows carry whatever doctor reference the row holds, and a created row has none.
- `ilike` wildcards (`%`, `_`) and database collation. Case-insensitive matching is lower-casing both sides.
- `Text.Lower`: does not model Unicode case mapping; only ASCII A-Z are folded, while `toLowerCase` also folds other scripts.
- The realtime channel, its subscription and teardown, delivery order and concurrent delivery. A delivery is one call of `OnRealtimeInsert` with the re-fetched record.
- The check-then-insert race between concurrent submissions. Its point is concurrency.
- `PatientDetail.PatientDetailPage.HandleAddDiagnosis`: the state while the insert is awaited is not modelled; the method is one atomic step. The page does render that state (submitting true, so the submit button is disabled and reads "Saving...", and the warning box is gone), and a realtime delivery may arrive during the await; neither is captured.
- Clock and browser storage parsing: the time of a recent search is an argument, and the stored value is either parsed entries or unparseable. An empty stored string is treated as nothing stored.
- `PatientDetail.PatientDetailPage.HandleAddDiagnosis`: an absent `error.message` is modelled as the empty string, so the alert reads "Error adding diagnosis: " where the browser shows "Error adding diagnosis: undefined". The storage client's error object is `Records.StoreError`, with "" for an absent field.
- `Errors.AppError`: does not distinguish an unset `warning` from `false`, because only its truthiness is ever read.
- The one-time-disease list is hard-coded at `backend/src/routes/patients.ts:89` and `frontend/src/pages/PatientDetail.tsx:90`, and the model keeps it fixed. A backend rejection of redundant diagnoses does not exist in the code. Only the test at `backend/src/routes/__tests__/patients.test.ts:133-136` and the comments at `backend/src/routes/patients.ts:99-101` and `frontend/src/pages/PatientDetail.tsx:89` describe it.
- The Doctor record type is declared in the shared types but used by none of the modelled code.
