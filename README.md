# Accounts dashboard summary

A Dafny model of how the Settings app's Accounts dashboard builds its one-line
summary (`AccountDashboardFragment.SummaryProvider.setListening`). When the
dashboard entry starts listening, the callback does the following:

- It asks the authenticator helper for the enabled account types.
- If there are none, whether the array is null or empty, it formats the default
  summary alone.
- Otherwise it scans the types in order and looks up each type's label. A null
  or empty label is skipped and does not use up one of the slots. Each other
  label is bidi-wrapped and appended. The scan stops once `min(3, types.length)`
  labels have been added.
- It hands the list to the ICU list formatter and publishes the result as the
  summary.

Everything is in `account_dashboard.dfy`, module `AccountDashboard`:

- `Selected` is the specification of the scanning loop. It is recursive and
  follows the loop's shape: a count of slots left, a skip on empty labels, a
  wrapped append otherwise.
- `Lookups` counts how many labels the loop looks up before it stops.
- `SummaryList` is the list handed to the formatter, including the default
  branch.
- `NonEmptyLabels`, `Take` and `Wrapped` give an independent reference
  definition: "the wrapped first three non-empty labels".
- `CollectSummaries` is the loop itself. It has the counter `accountToAdd`, the
  growing list `summaries` and a `continue` on empty labels. It is proved equal
  to `SummaryList`, and a ghost count of its label lookups is proved equal to
  `Lookups`.
- `SetListening` is the callback. Its result is the argument of the one
  `setSummary` call: `None` when it is not listening, which means no call.

The run-time collaborators are parameters:

- the enabled account types, as `Option<seq<AccountType>>`, where `None` is a
  null array;
- the label lookup, as `AccountType -> Option<string>`, where `None` is a null
  label;
- the bidi wrapper, as `string -> string`;
- the list formatter, as `seq<string> -> string`;
- the default summary string.

With no account types, the published summary is `format([defaultSummary])`
(lines 112 and 127 of
`src/com/android/settings/accounts/AccountDashboardFragment.java`). The default
string goes through the list formatter like any list of labels, so it is not
published as it is.

## Model

| member | source | states |
|---|---|---|
| `AccountDashboard.Selected` | src/com/android/settings/accounts/AccountDashboardFragment.java:115-125 | the loop never collects more entries than it has slots, nor more than there are types |
| `AccountDashboard.Lookups` | src/com/android/settings/accounts/AccountDashboardFragment.java:117-118 | the number of label lookups is at most the number of types, and it is zero when no slot is available |
| `AccountDashboard.SummaryList` | src/com/android/settings/accounts/AccountDashboardFragment.java:109-126 | a null or empty types array gives exactly the one-element list holding the default summary; otherwise the list has at most 3 entries and no more entries than types |
| `AccountDashboard.NonEmptyLabels` | src/com/android/settings/accounts/AccountDashboardFragment.java:118-121 | reference filter: every label it keeps is non-empty, and it keeps no more labels than there are types |
| `AccountDashboard.SelectedIsFirstNonEmpty` | src/com/android/settings/accounts/AccountDashboardFragment.java:114-125 | with `cap` slots the loop collects exactly the wrapped first `min(cap, #non-empty)` non-empty labels, in input order |
| `AccountDashboard.SummaryIsFirstThreeNonEmpty` | src/com/android/settings/accounts/AccountDashboardFragment.java:111-126 | for a non-empty types array, the list is the wrapped first `min(3, #non-empty)` non-empty labels; the `min(3, types.length)` cap is the same as a cap of 3 |
| `AccountDashboard.EmptyLabelUsesNoSlot` | src/com/android/settings/accounts/AccountDashboardFragment.java:118-121 | a type with a null or empty label can be removed from any position without changing what is selected, so it uses no slot |
| `AccountDashboard.NoNonEmptyLabels` | src/com/android/settings/accounts/AccountDashboardFragment.java:118-121 | if every label is empty, the filter keeps nothing |
| `AccountDashboard.AllEmptySelectsNothing` | src/com/android/settings/accounts/AccountDashboardFragment.java:111-126 | a non-empty types array whose labels are all empty gives an empty list, and the default summary is not used |
| `AccountDashboard.SelectedComesFromTypes` | src/com/android/settings/accounts/AccountDashboardFragment.java:117-125 | each collected entry is the bidi wrap of the non-empty label of some type, and the entries' source types strictly increase in index, so input order is kept |
| `AccountDashboard.FullSelectionIgnoresRest` | src/com/android/settings/accounts/AccountDashboardFragment.java:115-117 | once every slot is used, appending any further types changes nothing, so a fourth label never appears |
| `AccountDashboard.LookupsStopAtLastSlot` | src/com/android/settings/accounts/AccountDashboardFragment.java:117-124 | the types that are looked up already determine the result; the loop stops before the end of the array only when all slots are used, and then right after the label that filled the last slot: before that last lookup, fewer labels than slots had been selected |
| `AccountDashboard.CollectSummaries` | src/com/android/settings/accounts/AccountDashboardFragment.java:107-126 | the list built in place with the decrementing `accountToAdd` counter and `continue` equals `SummaryList`, and its ghost count of label lookups equals `Lookups` |
| `AccountDashboard.SetListening` | src/com/android/settings/accounts/AccountDashboardFragment.java:103-129 | when not listening, no summary is published; when listening, exactly one summary is published, and it is the formatted `SummaryList` |

## Left out

- The fragment overrides `getMetricsCategory`, `getLogTag`, `getPreferenceScreenResId` and `getHelpResource` are left out. They return constant identifiers and contain no logic.
- `createPreferenceControllers` and `buildPreferenceControllers` are left out. They construct UI controller objects and register a lifecycle observer.
- `SUMMARY_PROVIDER_FACTORY` and `SEARCH_INDEX_DATA_PROVIDER` are left out. They are static registration hooks for the host framework.
- `AuthenticatorHelper` is not modelled internally. Its account enumeration and label lookup are parameters: a possibly-null array and a label function.
- `BidiFormatter.unicodeWrap` is not modelled internally. It is an uninterpreted `string -> string` parameter, so nothing is assumed about directionality marks.
- ICU `ListFormatter.format` is not modelled internally. It is an uninterpreted `seq<string> -> string` parameter, so its locale-dependent conjunction rules and its output for an empty list are not modelled.
- `SummaryLoader.setSummary` and the visibility callback mechanism are not modelled. The model gives only the value passed to `setSummary`, as `SetListening`'s result.
- The Android `Context` and `UserHandle` plumbing is left out. The current user's account types are whatever the types parameter holds.
- `CharSequence` labels are modelled as strings. Character spans and styling are not represented.
