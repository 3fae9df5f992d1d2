# Charity events front-ends: a Dafny model

The repository is a small charity-events platform. It has a public site
(`charity-client`), an admin console (`charity-admin`), both Angular, and an
Express backend (`charity-api`). The backend file holds only middleware, a
database configuration and `listen`. No request handler is in it, so it has no
logic to model. This project models the logic that does exist, in the two
front-ends:

- **Title search** on the public home page (`Home`). This is a case-insensitive
  substring filter over the loaded events.
- **Weather-code labels** (`ClientApi`, `AdminApi`). Each service has its own
  copy of the table from WMO weather interpretation codes, as used by the
  Open-Meteo forecast service, to labels. Unlisted codes get a default label.
- **Admin registrations page** (`AdminRegistrations`):
  - looking up an event title by id;
  - loading one selected event's registrations;
  - the unfiltered load, which appends each event's registrations into one
    list and re-sorts it newest first;
  - deleting a registration after confirmation.
- **Admin events page** (`AdminActivities`). A state machine over the add/edit
  modal, the form, the id being edited and the toast message. Save dispatches
  to create or update. Delete asks for confirmation first. The category list
  for the form's drop-down is stored as it arrives.
- **Public registration page** (`ClientRegistration`). The route-id check, the
  event load, and the submit / success / error cycle of the form.
- **Admin dashboard** (`AdminDashboard`). The event count, and the running
  registration total summed as the per-event details arrive.

Shared pieces:
- `Models` holds the records. `Activity` and `Category` follow
  `charity-client/src/app/models/activity.ts`. `Registration` follows
  `charity-admin/src/app/models/registration.ts`, with `registration_date`
  taken as an integer timestamp. `Models` also holds the form shapes and a
  `Request` datatype that names the HTTP call a step issues.
- `Text` holds ASCII lower-casing, `includes`, and the `s || fallback` idiom.
- `Http` holds the per-activity detail fan-out that both admin pages perform.

Each component is a class. Its fields are the component's signals and fields,
plus two locals that the subscription closures capture, lifted to fields: the
accumulator `allRegistrations` of the unfiltered registrations load and the
running `total` of the dashboard's `ngOnInit`. A lifted local stands for the
latest load, so one such load (or one `ngOnInit`) is live at a time.
Its methods are the component's methods and subscription callbacks. Outside
effects are passed in as parameters:
- each HTTP response, either a payload or a failure with an optional server
  message;
- each `confirm()` answer;
- the numeric value JavaScript's `Number(...)` gives for an id string.

Where a callback closure in the source captures which branch issued the
request (save, delete), the request and its callback are modelled as one
step. Elsewhere each callback is its own method. The caller picks the order of
those methods, with one constraint: the dashboard's detail callbacks
(`OnDetailLoaded`) come after its counting `getActivities` callback
(`OnActivitiesForTotal`), and they require it.

## Model

| member | source | states |
|---|---|---|
| Text.IncludesIff | charity-client/src/app/pages/home.component.ts:161 | `includes` holds exactly when the needle occurs at some position of the haystack (both directions) |
| Text.OccursInTail | charity-client/src/app/pages/home.component.ts:161 | an occurrence of the needle in the haystack without its first character is exactly an occurrence in the whole haystack one position later (both directions) |
| Text.CaseVariantSameLower | charity-client/src/app/pages/home.component.ts:159-161 | two strings that differ only in the case of ASCII letters lower-case to the same string |
| Text.OrDefault | charity-client/src/app/services/api.service.ts:84 | the JavaScript or-fallback on a string: a present non-empty string is kept; an absent or empty one becomes the fallback; a non-empty fallback makes the result non-empty |
| ClientApi.WeatherDescription | charity-client/src/app/services/api.service.ts:65-85 | total on all integer codes; never empty; differs from 'Unknown weather' exactly for the codes {0,1,2,3,45,48,51,53,55,61,63,65,80,81,82,95}; each of those gets its table label |
| ClientApi.WeatherDescriptionExamples | charity-client/src/app/services/api.service.ts:66-84 | 0 gives 'Clear sky', 3 'Overcast', 95 'Thunderstorm'; 4, 56, 71, 96 and 99 give 'Unknown weather' |
| AdminApi.WeatherDescription | charity-admin/src/app/services/api.service.ts:66-76 | total and never empty; differs from 'Unknown weather' exactly for the same sixteen codes; each listed code gets its table label |
| AdminApi.WeatherDescriptionExamples | charity-admin/src/app/services/api.service.ts:67-75 | 45 gives 'Fog', 82 'Violent rain showers', 4 'Unknown weather' |
| AdminApi.AgreesWithClient | charity-admin/src/app/services/api.service.ts:67-75 | for every integer code the admin and the client descriptions are equal |
| Home.FilteredEmptyQuery | charity-client/src/app/pages/home.component.ts:153-156 | an empty query shows exactly the loaded list |
| Home.FilteredSound | charity-client/src/app/pages/home.component.ts:159-162 | every shown activity's lower-cased title includes the lower-cased query (for every query, the empty one included) |
| Home.FilteredCounts | charity-client/src/app/pages/home.component.ts:158-162 | occurrence by occurrence: an activity whose title matches appears as many times as in the loaded list, and one that does not match appears zero times; with `FilteredIsSubsequence` this fixes the shown list exactly, duplicates included |
| Home.FilteredComplete | charity-client/src/app/pages/home.component.ts:160-162 | every loaded activity whose lower-cased title includes the lower-cased query is shown |
| Home.FilteredIsSubsequence | charity-client/src/app/pages/home.component.ts:160 | the shown list is a subsequence of the loaded list: order kept, nothing added |
| Home.FilteredCaseInsensitive | charity-client/src/app/pages/home.component.ts:159-161 | changing the letter case of the query does not change the shown list |
| Home.FilteredIdempotent | charity-client/src/app/pages/home.component.ts:160-162 | filtering the shown list again with the same query gives the same list |
| Home.HomeComponent.constructor | charity-client/src/app/pages/home.component.ts:129-131 | both lists start empty and the query starts empty |
| Home.HomeComponent.OnActivitiesLoaded | charity-client/src/app/pages/home.component.ts:140-143 | after the list loads, both `activities` and `filteredActivities` are that list; the query is untouched |
| Home.HomeComponent.FilterActivities | charity-client/src/app/pages/home.component.ts:152-164 | `filteredActivities` becomes the filter of `activities` by `searchQuery` (the whole list for an empty query); only `filteredActivities` changes, so a second call gives the same result |
| Home.HomeComponent.OnSearchInput | charity-client/src/app/pages/home.component.ts:29-31 | typing stores the text as the query and shows the filter of the list by it |
| AdminRegistrations.FindById | charity-admin/src/app/pages/admin-registrations.component.ts:155 | `find`: the index of the first activity with the id, or none exactly when no activity has it |
| AdminRegistrations.AdminRegistrationsComponent.GetActivityTitle | charity-admin/src/app/pages/admin-registrations.component.ts:154-157 | the title of the first activity with the id; 'Unknown Event' when none has it or that title is empty; never empty; reads only the activity list and changes nothing |
| AdminRegistrations.SortPermutes | charity-admin/src/app/pages/admin-registrations.component.ts:143-145 | sorting keeps exactly the same registrations, with their multiplicities |
| AdminRegistrations.SortSorted | charity-admin/src/app/pages/admin-registrations.component.ts:143-145 | the sorted list is ordered by registration date, newest first |
| AdminRegistrations.SortStable | charity-admin/src/app/pages/admin-registrations.component.ts:143-145 | registrations with the same date keep their relative order (the sort is stable) |
| AdminRegistrations.MergeStep | charity-admin/src/app/pages/admin-registrations.component.ts:141-146 | a merge step's result is newest first; it is a permutation of the old list plus the batch; its length is their sum; for equal dates, the old entries come first and each part keeps its order |
| AdminRegistrations.AdminRegistrationsComponent.constructor | charity-admin/src/app/pages/admin-registrations.component.ts:105-109 | empty lists, no selection, empty 'success' message |
| AdminRegistrations.AdminRegistrationsComponent.OnActivitiesLoaded | charity-admin/src/app/pages/admin-registrations.component.ts:119-123 | the loaded list becomes `activities` |
| AdminRegistrations.AdminRegistrationsComponent.LoadRegistrations | charity-admin/src/app/pages/admin-registrations.component.ts:126-151 | with a selection, requests that event's detail and leaves the accumulator alone; without one, empties the accumulator and requests the activity list |
| AdminRegistrations.AdminRegistrationsComponent.OnSelectionChange | charity-admin/src/app/pages/admin-registrations.component.ts:21-25 | choosing in the drop-down stores the value, then loads as above |
| AdminRegistrations.AdminRegistrationsComponent.OnSelectedDetailLoaded | charity-admin/src/app/pages/admin-registrations.component.ts:130-132 | with an event selected, `registrations` becomes exactly its returned registrations |
| AdminRegistrations.AdminRegistrationsComponent.OnSelectedDetailFailed | charity-admin/src/app/pages/admin-registrations.component.ts:133 | a failed detail shows the 'Failed to load registrations' error |
| AdminRegistrations.AdminRegistrationsComponent.OnAllActivitiesLoaded | charity-admin/src/app/pages/admin-registrations.component.ts:138-140 | one detail request per activity, in list order |
| AdminRegistrations.AdminRegistrationsComponent.OnBatchLoaded | charity-admin/src/app/pages/admin-registrations.component.ts:140-147 | the accumulator becomes the sorted old list plus the batch and is published; it is newest first, a permutation of old plus batch, of length old plus batch |
| AdminRegistrations.AdminRegistrationsComponent.DeleteRegistration | charity-admin/src/app/pages/admin-registrations.component.ts:160-170 | declining the confirmation sends no request and leaves the message as it was; confirming sends the delete for that id, then shows ('Registration deleted successfully', success) and reloads, or shows ('Failed to delete registration', error) and does not reload |
| AdminRegistrations.AdminRegistrationsComponent.ShowMessage | charity-admin/src/app/pages/admin-registrations.component.ts:173-177 | sets both text and type |
| AdminRegistrations.AdminRegistrationsComponent.ClearMessage | charity-admin/src/app/pages/admin-registrations.component.ts:180-182 | empties the text and keeps the type |
| Http.RequestEachDetail | charity-admin/src/app/pages/admin-dashboard.component.ts:55-56 | the `forEach` fan-out: exactly one detail request per activity, for that activity's id, in list order |
| AdminActivities.AdminActivitiesComponent.constructor | charity-admin/src/app/pages/admin-activities.component.ts:179-194 | no events or categories, closed modal, add mode, empty 'success' message, blank form, current id 0 |
| AdminActivities.AdminActivitiesComponent.OnActivitiesLoaded | charity-admin/src/app/pages/admin-activities.component.ts:204-208 | the loaded list becomes `activities` |
| AdminActivities.AdminActivitiesComponent.OnCategoriesLoaded | charity-admin/src/app/pages/admin-activities.component.ts:211-215 | the loaded categories become `categories`, the options of the form's category drop-down |
| AdminActivities.AdminActivitiesComponent.OpenAddModal | charity-admin/src/app/pages/admin-activities.component.ts:218-222 | add mode, blank form (empty strings, category 0), modal open; the remembered id is untouched |
| AdminActivities.AdminActivitiesComponent.OpenEditModal | charity-admin/src/app/pages/admin-activities.component.ts:225-236 | edit mode, current id is the event's id, its title, description, date, location and category copied into the form, modal open |
| AdminActivities.AdminActivitiesComponent.CloseModal | charity-admin/src/app/pages/admin-activities.component.ts:239-241 | only `isModalOpen` changes, to false; form, mode and id stay |
| AdminActivities.AdminActivitiesComponent.SaveActivity | charity-admin/src/app/pages/admin-activities.component.ts:244-266 | edit mode issues an update of the current id with the form, add mode a create; success closes the modal, shows the matching 'success' text and reloads the list; failure shows the matching 'error' text and leaves the modal as it was; form, mode and id do not change |
| AdminActivities.AdminActivitiesComponent.DeleteActivity | charity-admin/src/app/pages/admin-activities.component.ts:269-279 | a declined confirmation issues no request and changes nothing; a confirmed one issues the delete, then shows 'Event deleted successfully' and reloads, or shows 'Failed to delete event' |
| AdminActivities.AdminActivitiesComponent.ShowMessage | charity-admin/src/app/pages/admin-activities.component.ts:282-287 | sets both text and type |
| AdminActivities.AdminActivitiesComponent.ClearMessage | charity-admin/src/app/pages/admin-activities.component.ts:290-292 | empties the text and keeps the type |
| ClientRegistration.RegistrationComponent.constructor | charity-client/src/app/pages/registration.component.ts:136-149 | form with activity 0, empty name, email and phone, one ticket; no event; loading; not submitting; no messages |
| ClientRegistration.RegistrationComponent.NgOnInit | charity-client/src/app/pages/registration.component.ts:157-170 | a missing or empty route id sets 'Invalid event ID', stops loading, issues no request and keeps the form; a present id puts its numeric value in `activity_id` and requests that event's detail |
| ClientRegistration.RegistrationComponent.OnLoadSucceeded | charity-client/src/app/pages/registration.component.ts:171-174 | the event is stored and loading stops |
| ClientRegistration.RegistrationComponent.OnLoadFailed | charity-client/src/app/pages/registration.component.ts:175-179 | 'Failed to load event information' is shown and loading stops |
| ClientRegistration.RegistrationComponent.SubmitForm | charity-client/src/app/pages/registration.component.ts:184-190 | submitting starts, both messages are cleared, and the form is sent |
| ClientRegistration.RegistrationComponent.OnSubmitSucceeded | charity-client/src/app/pages/registration.component.ts:191-199 | the response message is shown and submitting stops; name, email and phone are emptied and tickets reset to 1; `activity_id` is kept |
| ClientRegistration.RegistrationComponent.OnSubmitFailed | charity-client/src/app/pages/registration.component.ts:200-204 | the error text is shown, submitting stops, and the form is kept |
| ClientRegistration.SubmitErrorText | charity-client/src/app/pages/registration.component.ts:202 | the server's message when present and non-empty, otherwise 'Registration failed. Please try again.'; never empty |
| AdminDashboard.SumLengthsPermutation | charity-admin/src/app/pages/admin-dashboard.component.ts:55-59 | the summed registration count does not depend on the order in which the detail responses arrive |
| AdminDashboard.TotalOnceAllCounted | charity-admin/src/app/pages/admin-dashboard.component.ts:53-60 | once the counted responses are the details of every activity, in any order, the published total is the sum of their registration counts |
| AdminDashboard.AdminDashboardComponent.constructor | charity-admin/src/app/pages/admin-dashboard.component.ts:41-42 | both counters start at 0 |
| AdminDashboard.AdminDashboardComponent.OnEventsLoaded | charity-admin/src/app/pages/admin-dashboard.component.ts:48-50 | `totalEvents` is the number of activities returned |
| AdminDashboard.AdminDashboardComponent.OnActivitiesForTotal | charity-admin/src/app/pages/admin-dashboard.component.ts:53-56 | the running total starts at 0 and one detail request goes out per activity |
| AdminDashboard.AdminDashboardComponent.OnDetailLoaded | charity-admin/src/app/pages/admin-dashboard.component.ts:56-59 | the total grows by that detail's registration count and is published; it never decreases and always equals the sum over the responses counted so far |

## Left out

- The backend (`charity-api/server.js`). It has no request handlers, so there is no CRUD, validation or duplicate-key logic to model.
- The one-line HTTP wrappers of both API services. A step returns the `Request` it issues, and responses come back as method parameters.
- `getWeather` and the temperatures. The call goes to an outside service and the values are floating point.
- Subscription ordering and interleaving. Each callback is one sequential step, and the caller picks the order. A stale callback of an earlier unfiltered load that lands after a later load is not modelled.
- The in-place `sort` of the accumulator array. It is modelled on values as a stable insertion sort of a sequence. Aliasing of the array is not captured.
- `new Date(...)` parsing of registration dates. Dates are integer timestamps, so invalid dates (NaN in the comparator) are not modelled.
- `toLowerCase` is modelled on ASCII letters only. Unicode case mapping is not modelled.
- `Number(...)` on a route or drop-down id. Its result comes in as the `idNumber` argument, so JavaScript's numeric grammar, NaN and fractional ids are not modelled.
- Weather codes are integers. A fractional or NaN code, which also gets the default label in JavaScript, is not modelled.
- The dashboard counts in unbounded integers. JavaScript numbers are exact only up to 2^53.
- The `setTimeout` auto-clear of messages. `ClearMessage` is the step it would run.
- Template `[(ngModel)]` edits of `formData` on the events page (charity-admin/src/app/pages/admin-activities.component.ts:69-120) and on the registration page (charity-client/src/app/pages/registration.component.ts:37-80). A caller models a user's edit by writing the field directly. The category `<select>` binds `value="{{ category.id }}"` (admin-activities.component.ts:111-121), so after a pick JavaScript stores a string in `category_id`, and the create or update request carries that string. `ActivityForm.categoryId` is an `int` and cannot represent it.
- `console.error` logging in the registration page. This is I/O.
- `AdminDashboard.AdminDashboardComponent.OnActivitiesForTotal`: requires that counting has not started yet, because Angular runs `ngOnInit` once per component.
- The `ngOnInit` of the registrations page (charity-admin/src/app/pages/admin-registrations.component.ts:113-116) and of the events page (charity-admin/src/app/pages/admin-activities.component.ts:198-201) have no methods of their own. Each is the caller's sequence of the modelled steps: `LoadRegistrations` and `OnActivitiesLoaded`, or `OnActivitiesLoaded` and `OnCategoriesLoaded`.
- Not modelled: `activity-detail.component.ts`, the navbar, footer and app components, the route tables, `weather.ts`, and the templates and styles. They are display and routing glue. Only the template bindings that drive the modelled methods are cited.
