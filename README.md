# Profile editor: the edit-form state machine

This project models the core of a single-profile Android editor. One `User` record has a first
name, a last name, an address and a phone number, and is kept in a local store behind `UserDao`.
It models two view models:

- `EditProfileViewModel` holds an `EditProfileUiState` with the four fields, four nullable error
  messages and the aggregate flag `isFormValid`. It also holds `currentUser`, the last record the
  store emitted. Each store emission seeds the form. Each `updateX` setter sets one field,
  re-validates that field and recomputes the flag. `saveProfile` re-validates all four fields and
  then inserts or updates the record.
- `ProfileViewModel` publishes each emitted record. When the store is empty it inserts a fixed
  default profile (first-run bootstrap).

Layout, one module per component:

- `wrappers.dfy`: `Option`, standing for Kotlin's nullable values.
- `text.dfy`: Kotlin's `isBlank`, `trim` and the regex digit class.
- `data.dfy`: the `User` record and `UserDao`. The DAO is reduced to the log of calls made to it.
- `edit_profile.dfy`: the UI state, the validators, one pure function per step, and the class
  `EditProfileViewModel`. Each method of the class is proved to perform its step's function.
- `profile.dfy`: `ProfileViewModel` and its default record.
- `first_run.dfy`: how the two view models interact, plus three end-to-end runs written as client
  methods.

Store emissions become explicit calls to `OnEmission`. The `onSuccess` callback becomes the
boolean that `SaveProfile` returns; it is true only after the store call has been logged.
`EditProfileViewModel` follows the code as written, so the two gaps under "## Findings" stay
visible. The corrected definitions sit beside it as pure functions.

Where the code's own comments and its statements disagree, the model follows the statements:

- The comment on line 48 of `EditProfileViewModel.kt` says the form is validated after loading.
  The statements only recompute `isFormValid`; the four error fields are not recomputed.
- The comment on line 136 calls the four checks in `saveProfile` additional validation before
  saving. The save decision still reads the flag from the snapshot taken before those checks.
- There is no failure path for the store writes, so none is modelled.

## Model

| member | source | states |
|---|---|---|
| Text.IsBlank | app/src/main/java/com/example/pr35/EditProfileViewModel.kt:98 | Kotlin's `isBlank`: the string is empty or every character is whitespace |
| Text.BlankIffTrimmedEmpty | app/src/main/java/com/example/pr35/EditProfileViewModel.kt:98 | `isBlank` (every character is whitespace) holds exactly when `trim` leaves nothing, both directions |
| EditProfile.RequiredError | app/src/main/java/com/example/pr35/EditProfileViewModel.kt:96-112 | a required-field check gives its fixed message iff nothing is left after trimming, and null iff something is |
| EditProfile.InitialUiState | app/src/main/java/com/example/pr35/EditProfileViewModel.kt:16-31 | the default `EditProfileUiState()`: id 0, every field empty, no error, and a false flag that equals what `validateForm` would compute |
| EditProfile.MatchesPhonePattern | app/src/main/java/com/example/pr35/EditProfileViewModel.kt:118 | the whole string matches `^\+?\d{10,15}$`; a match has 10 to 16 characters, each a digit except a leading `+` |
| EditProfile.PhonePatternNotBlank | app/src/main/java/com/example/pr35/EditProfileViewModel.kt:116-118 | a string matching `^\+?\d{10,15}$` is never blank |
| EditProfile.PhoneNumberError | app/src/main/java/com/example/pr35/EditProfileViewModel.kt:114-122 | blank gives the "required" message, and this wins over the format check; non-blank but non-matching gives the format message; no error iff the whole string matches the pattern |
| EditProfile.FieldError | app/src/main/java/com/example/pr35/EditProfileViewModel.kt:96-122 | each field's validator reports no error exactly when the field satisfies its rule (non-empty after trimming; the phone pattern for the phone), and no error implies not blank |
| EditProfile.FormValidityByField | app/src/main/java/com/example/pr35/EditProfileViewModel.kt:124-132 | the flag condition over all fields equals the field-by-field conjunction that `validateForm` writes |
| EditProfile.WithFormValidity | app/src/main/java/com/example/pr35/EditProfileViewModel.kt:124-132 | `validateForm` changes only `isFormValid`, and afterwards the flag holds iff all four errors are null and all four fields are non-blank |
| EditProfile.FormValidityReflectsFields | app/src/main/java/com/example/pr35/EditProfileViewModel.kt:124-132 | when every error is its validator's verdict on its field, the flag condition holds iff every field satisfies its rule |
| EditProfile.Updated | app/src/main/java/com/example/pr35/EditProfileViewModel.kt:72-94 | `updateX(v)` sets that field to `v` and its error to the validator's result on `v`; every other field and error and the id stay unchanged; the flag is recomputed |
| EditProfile.EditsSettleFields | app/src/main/java/com/example/pr35/EditProfileViewModel.kt:72-94 | after any run of setter calls, every edited field's error is its validator's verdict on the current value; unedited fields and their errors are unchanged; the id is unchanged; after at least one edit the flag is consistent |
| EditProfile.AllFieldsEditedValidity | app/src/main/java/com/example/pr35/EditProfileViewModel.kt:72-132 | once all four fields have been edited, `isFormValid` holds exactly when every field satisfies its rule |
| EditProfile.Seeded | app/src/main/java/com/example/pr35/EditProfileViewModel.kt:39-48 | an emission copies the id (0 if none) and the four strings ("" if none) verbatim, leaves all four errors as they were, and recomputes the flag from those stale errors |
| EditProfile.StaleErrorSurvivesSeeding | app/src/main/java/com/example/pr35/EditProfileViewModel.kt:41-48 | after the first name is cleared, seeding a fully valid record keeps the "required" error, so the form is not savable |
| EditProfile.SeededRevalidated | app/src/main/java/com/example/pr35/EditProfileViewModel.kt:39-48 | corrected seeding: same copy, the errors agree with the fields, and the flag holds iff every field satisfies its rule |
| EditProfile.Revalidated | app/src/main/java/com/example/pr35/EditProfileViewModel.kt:135-140 | the validations in `saveProfile` rewrite all four errors from the snapshot's values; the id, the fields and the (now possibly stale) flag are unchanged |
| EditProfile.RecordToSave | app/src/main/java/com/example/pr35/EditProfileViewModel.kt:144-150 | the record to save has `currentUser`'s id (0 without one) and the snapshot's four strings |
| EditProfile.SaveCall | app/src/main/java/com/example/pr35/EditProfileViewModel.kt:142-155 | a store call happens iff the snapshot's flag is set; it is an insert iff `currentUser` is null, otherwise an update; the record has `currentUser`'s id (or 0) and the snapshot's four strings |
| EditProfile.SaveCallRevalidated | app/src/main/java/com/example/pr35/EditProfileViewModel.kt:135-155 | corrected save decision: a store call happens iff every field satisfies its rule; the saved record satisfies every rule, carries the state's four strings and `currentUser`'s id (or 0), and is inserted iff `currentUser` is null |
| EditProfile.SnapshotDecisionSoundWhenSettled | app/src/main/java/com/example/pr35/EditProfileViewModel.kt:135-142 | when the errors agree with the fields and the flag is consistent, deciding on the snapshot gives the same result as the corrected decision |
| EditProfile.RepeatedSaveRepeatsCall | app/src/main/java/com/example/pr35/EditProfileViewModel.kt:134-158 | a second save with no edit or emission in between makes the same call again |
| EditProfile.EditProfileViewModel.constructor | app/src/main/java/com/example/pr35/EditProfileViewModel.kt:31-34 | the form starts at the default `EditProfileUiState()` and `currentUser` starts null |
| EditProfile.EditProfileViewModel.OnEmission | app/src/main/java/com/example/pr35/EditProfileViewModel.kt:39-49 | `currentUser` becomes the emitted value; the form state becomes `Seeded` of the old state |
| EditProfile.EditProfileViewModel.UpdateFirstName | app/src/main/java/com/example/pr35/EditProfileViewModel.kt:72-76 | the form state becomes `Updated(old, FirstName, name)`; `currentUser` is unchanged |
| EditProfile.EditProfileViewModel.UpdateLastName | app/src/main/java/com/example/pr35/EditProfileViewModel.kt:78-82 | the form state becomes `Updated(old, LastName, name)`; `currentUser` is unchanged |
| EditProfile.EditProfileViewModel.UpdateAddress | app/src/main/java/com/example/pr35/EditProfileViewModel.kt:84-88 | the form state becomes `Updated(old, Address, address)`; `currentUser` is unchanged |
| EditProfile.EditProfileViewModel.UpdatePhoneNumber | app/src/main/java/com/example/pr35/EditProfileViewModel.kt:90-94 | the form state becomes `Updated(old, PhoneNumber, phone)`; `currentUser` is unchanged |
| EditProfile.EditProfileViewModel.ValidateFirstName | app/src/main/java/com/example/pr35/EditProfileViewModel.kt:96-100 | only `firstNameError` changes, to the validator's verdict |
| EditProfile.EditProfileViewModel.ValidateLastName | app/src/main/java/com/example/pr35/EditProfileViewModel.kt:102-106 | only `lastNameError` changes, to the validator's verdict |
| EditProfile.EditProfileViewModel.ValidateAddress | app/src/main/java/com/example/pr35/EditProfileViewModel.kt:108-112 | only `addressError` changes, to the validator's verdict |
| EditProfile.EditProfileViewModel.ValidatePhoneNumber | app/src/main/java/com/example/pr35/EditProfileViewModel.kt:114-122 | only `phoneNumberError` changes, to the phone validator's verdict |
| EditProfile.EditProfileViewModel.ValidateForm | app/src/main/java/com/example/pr35/EditProfileViewModel.kt:124-132 | the form state becomes `WithFormValidity` of the old state |
| EditProfile.EditProfileViewModel.SaveProfile | app/src/main/java/com/example/pr35/EditProfileViewModel.kt:134-158 | the errors are rewritten and nothing else in the form changes; `currentUser` is unchanged; the DAO log grows by exactly the `SaveCall` of the pre-validation snapshot, or by nothing; `onSuccess` runs iff the snapshot's flag was set |
| Data.UserDao.InsertUser | app/src/main/java/com/example/pr35/data/UserDao.kt:14-15 | an insert of the record is appended to the call log |
| Data.UserDao.UpdateUser | app/src/main/java/com/example/pr35/data/UserDao.kt:17-18 | an update of the record is appended to the call log |
| Profile.ProfileViewModel.constructor | app/src/main/java/com/example/pr35/ProfileViewModel.kt:15-16 | the observed user starts null |
| Profile.ProfileViewModel.OnEmission | app/src/main/java/com/example/pr35/ProfileViewModel.kt:21-31 | the observed user becomes exactly the emitted value; a null emission causes exactly one insert of the default record; a non-null emission causes no store write |
| FirstRun.DefaultPhoneRejected | app/src/main/java/com/example/pr35/EditProfileViewModel.kt:114-122 | the default phone "+7 811-732-5298" fails the form's phone pattern and gets the format message |
| Profile.DefaultUser | app/src/main/java/com/example/pr35/ProfileViewModel.kt:25-30 | the default record "Emmanuel", "Oyiboke", "Nigeria", "+7 811-732-5298" with the entity's default id; none of its four strings is blank |
| FirstRun.DefaultRecordSavedUnchanged | app/src/main/java/com/example/pr35/EditProfileViewModel.kt:135-155 | seeding the default record into a form with no errors makes it savable; `saveProfile` then writes it back unchanged as an update, shows the phone format error but keeps the flag set; the corrected decision refuses it |
| FirstRun.SaveSeededDefault | app/src/main/java/com/example/pr35/EditProfileViewModel.kt:39-157 | an edit form seeded from the stored default record saves it back as exactly one update and signals success |
| FirstRun.FirstRunSavesDefault | app/src/main/java/com/example/pr35/ProfileViewModel.kt:21-31 | first run end to end: the default profile is inserted, and after the store re-emits it the edit form saves it as an update although its phone fails the pattern |
| FirstRun.NewProfileInserted | app/src/main/java/com/example/pr35/EditProfileViewModel.kt:134-157 | empty store: after four valid edits, saving makes exactly one insert with id 0 and the typed values, and then signals success |
| FirstRun.BadPhoneRefused | app/src/main/java/com/example/pr35/EditProfileViewModel.kt:114-142 | the phone "abc" gets the format message (not "required"); saving then makes no store call and gives no success |

## Left out

- Coroutines and Flow (`viewModelScope.launch`, `collect`, `MutableStateFlow`): emissions and saves are sequential method calls, and observers of the state are not modelled.
- Compose screens, navigation and theming (`EditProfileScreen.kt`, `ProfileScreen.kt`, `MainActivity.kt`): they only render state and forward calls.
- The unused `combine` and `collectIn` helpers and both `Factory` classes: they have no behaviour.
- Data.UserDao: keeps only the log of calls. The stored row, Room's REPLACE conflict strategy and the query's `LIMIT 1` are not modelled, because the `User` entity and the database are not part of this model. How ids are assigned is therefore unknown.
- Profile.DefaultUser: the default record is built without an id, so its id takes the entity's default. That default is not part of this model, so it is a parameter (`unsetId`).
- Storage failures: the code has no failure path, so none is modelled.
- Text.IsWhitespace: the whitespace set is written out as the JVM's `Character.isWhitespace` or `Character.isSpaceChar` as understood here, not derived from Unicode tables.
- EditProfile.MatchesPhonePattern: the regular expression is given as a predicate with its meaning (an optional `+`, then 10 to 15 digits, whole string). The regex engine is not modelled. `\d` is assumed to mean the ASCII digits `0`-`9`, as in the desktop JVM's engine. Android's engine is built on ICU, which documents `\d` as any Unicode decimal digit; with that reading, phones written in other scripts' digits would also match.
- Kotlin's 32-bit `Int` for ids: ids are only copied, never computed, so unbounded `int` loses nothing.
- The package and import mismatch in `ProfileViewModel.kt`: a build concern, not behaviour.

## Findings

| source | as written | input that shows it | evidently intended | confidence | as-written member | corrected member |
|---|---|---|---|---|---|---|
| app/src/main/java/com/example/pr35/EditProfileViewModel.kt:41-48 | an emission copies the fields and runs only `validateForm`, so the error fields keep the values they had before the emission | clear the first name (error "Имя не может быть пустым"), then let the store emit `User(7, "Bob", "Lee", "1 Main", "5551234567")`: the stale error stays and `isFormValid` is false; or seed the default record: its bad phone shows no error | run the four field validators after copying, then `validateForm` (the comment on line 48 says the form is validated after loading) | not executed | EditProfile.StaleErrorSurvivesSeeding | EditProfile.SeededRevalidated |
| app/src/main/java/com/example/pr35/EditProfileViewModel.kt:135-142 | the save decision reads `isFormValid` from the snapshot taken before the four validations, and those validations never recompute the flag | the store holds the default profile (phone "+7 811-732-5298"), the form is seeded from it, and `saveProfile` writes it back as an update | decide on the flag recomputed after re-validation | not executed | FirstRun.DefaultRecordSavedUnchanged | EditProfile.SaveCallRevalidated |
