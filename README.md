# Workout tracker bookkeeping, modelled in Dafny

This project models the bookkeeping core of a browser-based workout tracker. The user clicks a map and fills a form with the type, distance, duration, and cadence or elevation gain. The app then keeps a list of running and cycling workouts, lets the user edit or delete entries, and persists the list in the browser's local storage. The source is one JavaScript file, `script.js`.

Modules:

- `Wrappers` (wrappers.dfy): `Option`. It is used for the storage slot and for the form rule's three-valued result.
- `Validation` (validation.dfy): JavaScript numbers as they come out of the form fields (finite, NaN, or an infinity). It models `App._validate`, built from two `every` predicates, and states exactly which forms it accepts.
- `Labels` (labels.dfy): the description label "Running on March 5", built from the capitalised type, the month name and the day of the month. There is a decimal writer with its parser as partner. A lemma proves that a label determines the type, month and day it was built from.
- `Workouts` (workouts.dfy): the `Running`/`Cycling` record as one tagged datatype. Its two constructors compute pace (min/km) or speed (km/h) and the description once. `WellFormed` holds for every record that validated construction produces.
- `Tracker` (app.dfy): the `App` controller as a class. Its fields are the workout list (`#workouts`), the edit mode, the remembered index and coordinates, and the storage slot under the key "workout". It has methods for loading, saving, find-by-id, entering edit mode, submitting a new workout, submitting an edit, delete, reset and the page reload.

Behaviours of the source that shape the model:

- A run needs `cadence > 0` (script.js:272); a ride's elevation may have any sign (script.js:284).
- An edit gives the record a new id and a new date, so its label is new too. It does keep the old entry's coordinates (`script.js:155-156`, `338-345`). The id and date are parameters of the model, so a caller passes fresh ones.
- `location.reload()` follows every edit, delete and reset. The model treats it as what it does to the state: a fresh `App` is built from the storage slot. This is why edit mode is off after an edit or a delete, and why the list is empty after a reset.
- `JSON.parse` of a stored empty list gives `[]`, which is truthy. So any stored list replaces the current one, including an empty one. Only an empty slot keeps the current list.

Inputs taken as parameters: the clicked coordinates (from the map event), the workout id (from `Date.now()`), the month and day of the creation date (from `new Date()`), and the storage slot's contents at start-up.

## Model

| member | source | states |
|---|---|---|
| `Validation.AllFinite` | script.js:264-265 | true exactly when every number in the list is finite (`every(Number.isFinite)`) |
| `Validation.AllPositive` | script.js:267 | true exactly when every number compares greater than zero under JavaScript rules (NaN and -Infinity do not, +Infinity does) |
| `Validation.Validate` | script.js:261-293 | the result is undefined (None) exactly when the type is neither "running" nor "cycling" |
| `Validation.Accepted` | script.js:340 | a truthy verdict implies a known type and a distance and duration that compare greater than zero |
| `Validation.FormAcceptance` | script.js:320-325 | on the raw form, with cadence checked for a run and elevation for a ride, the form is accepted if and only if it is a run with all three numbers finite and positive, or a ride with all three finite and positive distance and duration |
| `Validation.RunningAcceptance` | script.js:269-280 | a "running" form is accepted if and only if distance, duration and cadence are all finite and all strictly positive |
| `Validation.CyclingAcceptance` | script.js:281-292 | a "cycling" form is accepted if and only if all three numbers are finite and distance and duration are strictly positive; elevation is unconstrained in sign |
| `Validation.OtherKindsRejected` | script.js:261-293 | any other type yields undefined (None) and is rejected |
| `Validation.AcceptedMeansUsable` | script.js:261-293 | an accepted form has a known type, finite numbers, positive distance and duration, and a positive cadence for a run |
| `Labels.CaseRoundTrip` | script.js:43 | upper-casing turns a lower-case ASCII letter into an upper-case one that lower-casing turns back; other characters are left alone |
| `Labels.Capitalize` | script.js:43 | same length; first character upper-cased, so a lower-case first letter becomes the upper-case letter that lower-cases back to it; the rest unchanged |
| `Labels.Decimal` | script.js:45 | the day of month is written as a non-empty string of decimal digits in canonical form: it starts with '0' only for zero, and it is one digit long exactly for numbers below ten |
| `Labels.DecimalRoundTrip` | script.js:45 | reading the written digits back gives the number that was written |
| `Labels.MonthNamesDistinct` | script.js:28-41 | the twelve month names are pairwise different and contain no space |
| `Labels.SplitAtSpace` | script.js:43-45 | a space-free head followed by a space splits back into the same head and tail |
| `Labels.Describe` | script.js:27-45 | the label starts with "Running on " for a run and "Cycling on " for a ride, followed by the month name, a space and the day's decimal text |
| `Labels.DescribeExample` | script.js:27-45 | a run on month index 2, day 5 is described as "Running on March 5" |
| `Labels.DescriptionDeterminesKindAndDay` | script.js:27-45 | two equal descriptions come from the same type, month and day |
| `Workouts.NewRunning` | script.js:51-65 | keeps id, date, coordinates, distance, duration and cadence; the pace satisfies pace × distance = duration and is positive for positive inputs; the description is the run's label for the date |
| `Workouts.NewCycling` | script.js:67-83 | keeps id, date, coordinates, distance, duration and elevation; the speed satisfies speed × duration = 60 × distance and is positive for positive inputs; the description is the ride's label for the date |
| `Workouts.PaceDetermined` | script.js:61-64 | two well-formed runs with equal distance and duration have equal pace |
| `Workouts.SpeedDetermined` | script.js:79-82 | two well-formed rides with equal distance and duration have equal speed |
| `Workouts.DescriptionIdentifiesDay` | script.js:27-45 | two well-formed records with equal descriptions share type and date |
| `Workouts.RunningPaceExample` | script.js:61-64 | 30 minutes over 5 km gives a pace of 6 min/km |
| `Tracker.IndexOfId` | script.js:171-179 | the result is the first index whose id matches, or -1 exactly when no entry has the id |
| `Tracker.RemoveAt` | script.js:163 | one entry shorter; entries before the index unchanged; entries after it shifted down by one, in order |
| `Tracker.RemoveAtMultiset` | script.js:163 | removing entry i takes exactly that entry out of the multiset of entries |
| `Tracker.BuildWorkout` | script.js:327-334 | an accepted form yields a well-formed record with the given id, date and coordinates; it is a run exactly when the type is "running"; it carries the form's numbers |
| `Tracker.DeleteRemovesFoundEntry` | script.js:160-164 | deleting at the found index removes one entry, which has the id; the multiset of entries loses exactly that entry |
| `Tracker.DeleteWithDistinctIds` | script.js:160-164 | with distinct ids, after the delete no entry has the deleted id, ids stay distinct, and every other id is still found |
| `Tracker.MutationsKeepWellFormed` | script.js:338-361 | appending, replacing or removing keeps a list of well-formed records well-formed |
| `Tracker.App.constructor` | script.js:93-102 | the list starts as the stored list, or empty when the slot holds nothing; edit mode is off |
| `Tracker.App.SaveToStorage` | script.js:457-459 | the slot then holds exactly the current list |
| `Tracker.App.LoadFromStorage` | script.js:461-470 | a stored list replaces the current one; an empty slot leaves it unchanged |
| `Tracker.App.Reload` | script.js:167 | the state after a page reload is a fresh start from the storage slot |
| `Tracker.App.FindWorkoutIndex` | script.js:171-179 | the scan returns `IndexOfId` of the current list |
| `Tracker.App.EnableEdit` | script.js:117-158 | edit mode on; the remembered index is the id's index and the remembered coordinates are that entry's; the list and slot are unchanged |
| `Tracker.App.SubmitNew` | script.js:353-377 | returns whether the form was accepted; if rejected, nothing changes; if accepted, exactly one new workout at the clicked point is appended after the unchanged earlier entries and the list is saved |
| `Tracker.App.SubmitEdit` | script.js:336-351 | if rejected, nothing changes; if accepted, only the remembered entry is replaced, by a new workout at that entry's coordinates; the length is unchanged; the list is saved and edit mode ends |
| `Tracker.App.NewWorkout` | script.js:308-377 | takes the edit path in edit mode and the add path otherwise, with the outcomes of each; a well-formed list stays well-formed |
| `Tracker.App.Delete` | script.js:160-169 | the list loses exactly the first entry with the id, the others keep their order, and the slot holds the new list |
| `Tracker.App.Reset` | script.js:472-479 | the slot is emptied and the reloaded list is empty |

## Left out

- DOM queries, HTML rendering (`_renderWorkout`), the workout menu (`_workoutMenu`), the error box, the form show/hide and the reset button: these are user interface only.
- The map library and geolocation (`_loadMap`, `_renderWorkoutMarker`, `_moveToPopup`, `_getPosition`, `_toggleElevationField`): these are foreign library and browser calls. The clicked coordinates are a parameter instead.
- `console.log(this)` in the cycling constructor (script.js:76): console output only.
- Tracker.App.SaveToStorage: a failing save (script.js:458, when `localStorage.setItem` throws because the quota is exceeded or storage is disabled) is not modelled. In the source the list has already been changed by `push` or `splice`, so it stays changed but unsaved, and on the edit path no reload follows, so edit mode stays on. The model assumes every save succeeds: after an accepted submission or a delete the slot holds the new list.
- `setTimeout` delays: browser event-loop effects with no bearing on the list.
- JSON serialisation and `localStorage` itself: the slot is an `Option<seq<Workout>>` holding exactly what was saved. Corrupt or hand-edited storage is not modelled.
- Parsing of the field text (`+input.value`): the form arrives as JavaScript numbers.
- IEEE-754 arithmetic, and the one-decimal rounding of `toFixed(1)`, which only affects display: pace and speed are exact `real` quotients.
- Workouts.NewRunning: the constructor requires a non-zero distance, where JavaScript would store an infinite or NaN pace; the form rule always excludes that case first.
- Workouts.NewCycling: the constructor requires a non-zero duration, for the same reason.
- `Date` and `Date.now()`: the id, month and day are parameters. The rest of the timestamp, and whether ids are unique, are not modelled. `DistinctIds` is an assumption of the lemma that uses it, not an invariant of the list.
- Tracker.App.Delete: requires the id to be present. JavaScript's `splice(-1, 1)` would silently delete the last entry for an unknown id. The interface only offers ids of rendered entries, so -1 does not occur.
- Tracker.App.EnableEdit: requires the id to be present. For an unknown id, JavaScript turns edit mode on and then throws on `undefined.type`.
- `toUpperCase` is modelled for ASCII letters only. The only strings it is applied to are the two type names.
