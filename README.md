# practi-log-hub: a Dafny model of the portal's logic

practi-log-hub is a client-side portal where students browse internship
listings ("prácticas"), apply to them, follow their applications on a
dashboard and keep daily logs for a placement. Almost all of it is
presentation. This project models the thin layer of logic underneath and
proves its properties:

- **the application store** (`ApplicationContext`): a class holding the
  applications in insertion order. It is seeded from the bundled `data.json` file.
  `Add` appends one record with the caller's title, company and location,
  status `under_review`, progress 25 and the id `(length + 1).toString()`.
  `UseApplications` fails when no provider is present.
- **the listing page** (`Practices`): the 12-listing catalog, the
  case-insensitive search over title and company, the type filter where
  `"all"` matches every type, and the page state for apply, close and
  clear-filters.
- **the application form** (`ApplicationForm`): the Practice record, the
  13-field draft with its single-field update, the gate on four required
  fields, and the two-phase submit. Pressing submit marks the form busy.
  When the delay elapses, the application is appended to the store, the
  form stops being busy and the draft is reset. `getTypeLabel` is here too.
- **the dashboard** (`Dashboard`): total, under-review and accepted counts,
  and which per-application sections are rendered.
- **the daily logs page** (`DailyLogs`): the practice lookup, the logs of
  the selected practice, the count label, and the entry form. Its submit
  only hides the form and resets the draft.

Three helper modules hold what these share. `Wrappers` holds Option and
Result. `Seqs` holds `filter`, counting, `find` and "is a subsequence of",
with their lemmas. `Text` holds ASCII lowercasing, `includes` (proved equal
to a reference "occurs at some position" definition) and the decimal
rendering of a number (proved to read back to the same number).

The code has no review/confirm step,
no persistence to storage, no sorting on the dashboard and no cancel. The
dashboard counts a constant list of its own, not the store. The daily-log
submit records nothing.

Effects the code asks of React or the browser are returned as values. The
form's toasts and its `onClose` call are the `Effect` values its methods
return. The current date is a parameter (`appliedDate`, `today`).

## Model

| member | source | states |
|---|---|---|
| `ApplicationContext.SeedApplications` | src/contexts/ApplicationContext.tsx:22-27 | seeding keeps the seed's length and order and copies every field, status included (the cast does not change the value) |
| `ApplicationContext.NewRecord` | src/contexts/ApplicationContext.tsx:29-40 | the new record copies title, company and location, has status `under_review`, progress 25, the given date, and as id exactly the decimal rendering of the previous length plus one, which reads back as that number |
| `ApplicationContext.Appended` | src/contexts/ApplicationContext.tsx:42 | the collection grows by exactly one; every earlier record keeps its position and value; the new record is last and carries the caller's fields, the forced status and progress, and as id exactly the decimal rendering of the previous length plus one |
| `ApplicationContext.AppendedKeepsSequentialIds` | src/contexts/ApplicationContext.tsx:32 | appending keeps every record after the seed at the id its position gives it |
| `ApplicationContext.SequentialIdsDistinct` | src/contexts/ApplicationContext.tsx:32 | records added after the seed have pairwise different ids (nothing is claimed about the seed's ids) |
| `ApplicationContext.UseApplications` | src/contexts/ApplicationContext.tsx:52-58 | fails with the provider error exactly when no context value is present, otherwise returns that value unchanged |
| `ApplicationContext.ApplicationStore.constructor` | src/contexts/ApplicationContext.tsx:21-27 | the store starts as the mapped seed |
| `ApplicationContext.ApplicationStore.Add` | src/contexts/ApplicationContext.tsx:29-43 | the store becomes `Appended` of its old contents and keeps its invariant that ids after the seed are sequential |
| `Text.Lower` | src/pages/Practices.tsx:166-167 | lowercasing keeps the length, maps each character through ASCII lowercasing and leaves no upper-case ASCII letter |
| `Text.LowerIdempotent` | src/pages/Practices.tsx:166-167 | lowercasing twice equals lowercasing once |
| `Text.IncludesIsSubstring` | src/pages/Practices.tsx:166-167 | `includes` holds if and only if the term occurs at some position of the string |
| `Text.IncludesEmpty` | src/pages/Practices.tsx:166-167 | every string includes the empty term |
| `Text.NatToString` | src/contexts/ApplicationContext.tsx:32 | the decimal rendering is non-empty, all digits, without a leading zero |
| `Text.ParseNatToString` | src/contexts/ApplicationContext.tsx:32 | reading the decimal rendering of `n` gives back `n` |
| `Text.NatToStringInjective` | src/contexts/ApplicationContext.tsx:32 | different numbers render as different id strings |
| `Seqs.Filter` | src/pages/Practices.tsx:165-170 | a filter result is no longer than its input, all its elements satisfy the predicate and come from the input |
| `Seqs.FilterComplete` | src/pages/Practices.tsx:165-170 | every input element that satisfies the predicate is in the result |
| `Seqs.FilterIsSubsequence` | src/pages/Practices.tsx:165-170 | a filter result is an order-preserving subsequence of its input |
| `Seqs.SubsequenceLength` | src/pages/Practices.tsx:225 | a subsequence is never longer than the sequence it was taken from |
| `Seqs.FilterKeepsAll` | src/pages/Practices.tsx:166-168 | a predicate true everywhere keeps the whole input |
| `Seqs.FilterKeepsNone` | src/pages/DailyLogs.tsx:82 | a predicate true nowhere keeps nothing |
| `Seqs.FilterLength` | src/pages/Dashboard.tsx:62 | `filter(p).length` equals the number of elements satisfying `p`, counted one by one |
| `Seqs.CountDisjoint` | src/pages/Dashboard.tsx:61-63 | two predicates that never hold together count at most every element once |
| `Seqs.FilterAgreeing` | src/pages/Practices.tsx:165-170 | predicates that agree on every element filter the same way |
| `Seqs.FirstIndex` | src/pages/Practices.tsx:173 | the index found is the first whose element satisfies the predicate; none is found exactly when no element does |
| `Seqs.Find` | src/pages/Practices.tsx:173 | `find` returns the first satisfying element, and nothing exactly when no element satisfies the predicate |
| `ApplicationForm.TypeLabelCases` | src/components/ApplicationForm.tsx:137-148 | the three known types map to their fixed labels; every other input is returned unchanged |
| `ApplicationForm.Set` | src/components/ApplicationForm.tsx:69-71 | the updated field holds the new value and every other field keeps its value |
| `ApplicationForm.EmptyDraft` | src/components/ApplicationForm.tsx:106-120 | the initial and reset draft has every field empty |
| `ApplicationForm.RequiredFilledIff` | src/components/ApplicationForm.tsx:77 | the gate passes exactly when full name, email, phone and motivation are all non-empty |
| `ApplicationForm.OptionalFieldKeepsGate` | src/components/ApplicationForm.tsx:77 | editing a field other than the four required ones never changes the gate's verdict |
| `ApplicationForm.RequestFor` | src/components/ApplicationForm.tsx:92-96 | the submitted application carries the listing's title, company and location |
| `ApplicationForm.ApplicationFormState.constructor` | src/components/ApplicationForm.tsx:52-67 | the form starts with an empty draft and not submitting |
| `ApplicationForm.ApplicationFormState.SetPractice` | src/components/ApplicationForm.tsx:27-31 | a new `practice` prop changes nothing else of the form |
| `ApplicationForm.ApplicationFormState.HandleInputChange` | src/components/ApplicationForm.tsx:69-71 | the draft becomes `Set` of the old draft; the submit state is unchanged |
| `ApplicationForm.ApplicationFormState.PressSubmit` | src/components/ApplicationForm.tsx:73-89 | while submitting the disabled button does nothing; an incomplete draft raises the validation toast and changes neither draft, flag nor store; a complete one sets `isSubmitting` and starts the delay holding the current listing; nothing is appended at this point |
| `ApplicationForm.ApplicationFormState.CompleteSubmit` | src/components/ApplicationForm.tsx:89-121 | with a captured listing exactly one application with its fields is appended, with none the store is unchanged; afterwards `isSubmitting` is false, the draft is empty, and the success toast and the close request are raised |
| `Practices.FilterMenuAgreesWithTypeLabel` | src/pages/Practices.tsx:213-218 | the type menu labels each type as `getTypeLabel` does |
| `Practices.FilteredSound` | src/pages/Practices.tsx:165-170 | every listing shown contains the lowercased term in its lowercased title or company, and has the chosen type unless the filter is `"all"` |
| `Practices.FilteredComplete` | src/pages/Practices.tsx:165-170 | every catalog listing meeting both conditions is shown |
| `Practices.FilteredSubsequence` | src/pages/Practices.tsx:165-170 | the listings shown are an order-preserving subsequence of the catalog, so at most the catalog's count |
| `Practices.ClearedFiltersShowAll` | src/pages/Practices.tsx:244-247 | an empty search with `"all"` shows the whole catalog |
| `Practices.SearchIgnoresCase` | src/pages/Practices.tsx:166-167 | lowercasing the term first shows the same listings |
| `Practices.PracticeByIdFirst` | src/pages/Practices.tsx:173 | the lookup yields the first listing with the id, or nothing when there is none |
| `Practices.PracticesPage.constructor` | src/pages/Practices.tsx:158-162 | the page starts with an empty search, type `"all"`, nothing selected and the form closed |
| `Practices.PracticesPage.SetSearchTerm` | src/pages/Practices.tsx:202 | only the search term changes |
| `Practices.PracticesPage.SetTypeFilter` | src/pages/Practices.tsx:209 | only the type filter changes |
| `Practices.PracticesPage.HandleApply` | src/pages/Practices.tsx:172-178 | a known id selects its first listing and opens the form; an unknown id changes nothing |
| `Practices.PracticesPage.HandleCloseApplicationForm` | src/pages/Practices.tsx:180-183 | the form closes and the selection becomes none |
| `Practices.PracticesPage.ClearFilters` | src/pages/Practices.tsx:244-247 | the search becomes `""`, the filter `"all"`, and the whole catalog is shown |
| `Dashboard.DashboardStats` | src/pages/Dashboard.tsx:61-63 | total is the list length; under-review and accepted are the numbers of records with those statuses; "active practices" equals accepted; under-review plus accepted never exceed the total |
| `Dashboard.StatusCountsPartition` | src/pages/Dashboard.tsx:61-63 | when every status is one of the three known ones, the accepted, under-review and rejected counts add up to the total |
| `Dashboard.SectionsFollowStatus` | src/pages/Dashboard.tsx:155-178 | the log action is rendered exactly for the records in the accepted filter, the progress bar exactly for the records in the under-review filter, never both |
| `Dashboard.MockDashboardStats` | src/pages/Dashboard.tsx:17-45 | the dashboard's own list shows 3 applications, 1 under review, 1 accepted, 1 active |
| `DailyLogs.SetDraft` | src/pages/DailyLogs.tsx:180-245 | each input sets its own draft field and leaves the others unchanged |
| `DailyLogs.FreshDraft` | src/pages/DailyLogs.tsx:91-98 | the reset draft holds today's date and every other field empty |
| `DailyLogs.SelectedPracticeInfoFirst` | src/pages/DailyLogs.tsx:81 | the lookup yields the first practice with the selected id, or none when no practice has it |
| `DailyLogs.FilteredLogsExact` | src/pages/DailyLogs.tsx:82 | the logs shown all belong to the selected practice, keep their order, number as many as the logs that belong to it, and miss none of them |
| `DailyLogs.NoSelectionShowsNoLogs` | src/pages/DailyLogs.tsx:82 | with no selection no log is shown when every log names its practice |
| `DailyLogs.MockLogsNamePractices` | src/pages/DailyLogs.tsx:21-66 | every recorded log names a non-empty practice id |
| `DailyLogs.MockNoSelectionShowsNoLogs` | src/pages/DailyLogs.tsx:82 | with no practice selected, none of the page's own logs is shown |
| `DailyLogs.CountLabelReads` | src/pages/DailyLogs.tsx:268 | the header shows the number of the practice's logs followed by "entry" exactly when there is one, "entries" otherwise |
| `DailyLogs.DailyLogsPage.constructor` | src/pages/DailyLogs.tsx:68-78 | the page starts with no selection, the form hidden and a fresh draft |
| `DailyLogs.DailyLogsPage.SelectPractice` | src/pages/DailyLogs.tsx:133 | only the selection changes |
| `DailyLogs.DailyLogsPage.OpenForm` | src/pages/DailyLogs.tsx:156 | the form is shown; selection and draft are kept |
| `DailyLogs.DailyLogsPage.CancelForm` | src/pages/DailyLogs.tsx:253 | the form hides and the draft is kept |
| `DailyLogs.DailyLogsPage.SetDraftField` | src/pages/DailyLogs.tsx:180-245 | the draft becomes `SetDraft` of the old draft; nothing else changes |
| `DailyLogs.DailyLogsPage.HandleSubmit` | src/pages/DailyLogs.tsx:84-99 | the form hides and the draft is reset; the selection and the logs shown are unchanged, so nothing is recorded |

## Left out

- Rendering: JSX, CSS classes, icons and dialogs. This includes `getTypeColor`, `getStatusBadge` and `getMoodBadge`.
- Toasts and `onClose` are foreign UI calls. They appear only as the `Effect` values the form's methods return. The daily-log submit's toast is not modelled.
- The 2000 ms `setTimeout` is not modelled as time. Only its order is kept: `PressSubmit` starts the delay and `CompleteSubmit` ends it.
- Dates are parameters: the `toLocaleDateString("es-ES", …)` applied date, and `toISOString` for the daily-log draft. Formatting them depends on the locale and the clock.
- `Text.Lower`: lowercases the ASCII letters only. JavaScript's `toLowerCase` also lowercases other letters (for example "Á"), so a search for "á" does not find "Á" in the model.
- The bundled `data.json` file (`@/pages/Practices/data.json`) behind the seed is not part of this model. The seed is a constructor parameter, and nothing is claimed about its ids.
- React batching is not modelled: the `applications.length` read at line 32 comes from a render closure, while line 42 uses `prev`. The model does one add per step, where the two agree.
- Browser constraint validation is not modelled: `required`, `type="email"`, and `min`/`max`/`step` on the hours input. Only the code's own check on the four fields is modelled; the daily-log submit checks nothing in code.
- Fractional hours appear only as `real` values in the recorded logs. The hours input stays the string the browser supplies.
- `window.location.href` navigation from the dashboard, routing and providers (`src/App.tsx`), `src/components/Header.tsx`, `src/components/PracticeCard.tsx`, `src/components/HeroSection.tsx` and `src/pages/Index.tsx` are presentation or navigation. They are not part of this model.
- `Practices.PracticesPage.ClearFilters`: can be pressed in any state, while the page renders the button only when no listing is shown (src/pages/Practices.tsx:239-253).
- Persistence, dashboard sorting, a review/confirm step and application cancelling do not exist in this code, so they are not modelled.
