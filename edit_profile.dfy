/**
 * The edit-profile form: its UI state record, the four field validators, the
 * aggregate `isFormValid` flag, seeding from the store, the per-field setters
 * and `saveProfile`.  The pure functions below specify one step each; the
 * class `EditProfileViewModel` performs those steps on its mutable state the
 * way the view model does, and is proved against them.
 */
module EditProfile {
  import opened Wrappers
  import opened Text
  import opened Data

  /** `EditProfileUiState`: id (0 for a new profile), the four fields, their errors, the aggregate flag. */
  datatype UiState = UiState(
    id: int,
    firstName: string,
    lastName: string,
    address: string,
    phoneNumber: string,
    firstNameError: Option<string>,
    lastNameError: Option<string>,
    addressError: Option<string>,
    phoneNumberError: Option<string>,
    isFormValid: bool)

  /** The default-constructed `EditProfileUiState()`: id 0, every field empty, no error shown, and a flag
      that is already what `validateForm` would compute (false, as every field is blank). */
  function InitialUiState(): (r: UiState)
    ensures r.id == 0
    ensures forall f: Field :: Value(r, f) == "" && Error(r, f) == None
    ensures !r.isFormValid && Consistent(r)
  {
    var r := UiState(0, "", "", "", "", None, None, None, None, false);
    FormValidityByField(r);
    r
  }

  const FirstNameRequired: string := "Имя не может быть пустым"
  const LastNameRequired: string := "Фамилия не может быть пустой"
  const AddressRequired: string := "Адрес не может быть пустым"
  const PhoneRequired: string := "Телефон не может быть пустым"
  const PhoneInvalidFormat: string := "Некорректный формат телефона"

  /** The four editable fields, used to state field-by-field facts once. */
  datatype Field = FirstName | LastName | Address | PhoneNumber

  function Value(st: UiState, f: Field): string {
    match f
    case FirstName => st.firstName
    case LastName => st.lastName
    case Address => st.address
    case PhoneNumber => st.phoneNumber
  }

  function Error(st: UiState, f: Field): Option<string> {
    match f
    case FirstName => st.firstNameError
    case LastName => st.lastNameError
    case Address => st.addressError
    case PhoneNumber => st.phoneNumberError
  }

  function UserValue(u: User, f: Field): string {
    match f
    case FirstName => u.firstName
    case LastName => u.lastName
    case Address => u.address
    case PhoneNumber => u.phoneNumber
  }

  /** `copy(<field> = v)`. */
  function WithValue(st: UiState, f: Field, v: string): UiState {
    match f
    case FirstName => st.(firstName := v)
    case LastName => st.(lastName := v)
    case Address => st.(address := v)
    case PhoneNumber => st.(phoneNumber := v)
  }

  /** `copy(<field>Error = e)`. */
  function WithError(st: UiState, f: Field, e: Option<string>): UiState {
    match f
    case FirstName => st.(firstNameError := e)
    case LastName => st.(lastNameError := e)
    case Address => st.(addressError := e)
    case PhoneNumber => st.(phoneNumberError := e)
  }

  // ---------------------------------------------------------------------------
  // Field validators

  /** A required-field check: its message exactly when nothing is left after trimming. */
  function RequiredError(value: string, message: string): (r: Option<string>)
    ensures r == Some(message) <==> Trim(value) == []
    ensures r == None <==> Trim(value) != []
  {
    BlankIffTrimmedEmpty(value);
    if IsBlank(value) then Some(message) else None
  }

  /** The whole string matches `^\+?\d{10,15}$`: an optional `+`, then 10 to 15 digits. */
  predicate MatchesPhonePattern(s: string): (b: bool)
    ensures b ==> 10 <= |s| <= 16
    ensures b ==> forall i | 0 <= i < |s| :: IsDigit(s[i]) || (i == 0 && s[i] == '+')
  {
    var digits := if |s| > 0 && s[0] == '+' then s[1..] else s;
    10 <= |digits| <= 15 && AllDigits(digits)
  }

  /** A phone that matches the pattern is never blank: so the blank check and the format check never compete. */
  lemma PhonePatternNotBlank(s: string)
    ensures MatchesPhonePattern(s) ==> !IsBlank(s)
  {
  }

  /** `validatePhoneNumber`'s message choice: blank first, then format, else none. */
  function PhoneNumberError(phone: string): (r: Option<string>)
    ensures IsBlank(phone) ==> r == Some(PhoneRequired)
    ensures !IsBlank(phone) && !MatchesPhonePattern(phone) ==> r == Some(PhoneInvalidFormat)
    ensures r == None <==> MatchesPhonePattern(phone)
  {
    PhonePatternNotBlank(phone);
    if IsBlank(phone) then Some(PhoneRequired)
    else if !MatchesPhonePattern(phone) then Some(PhoneInvalidFormat)
    else None
  }

  /** The rule each field is meant to enforce, stated independently of the messages. */
  predicate Accepts(f: Field, v: string) {
    if f == PhoneNumber then MatchesPhonePattern(v) else Trim(v) != []
  }

  /** The validator of field `f` (`validateFirstName` … `validatePhoneNumber`). */
  function FieldError(f: Field, v: string): (r: Option<string>)
    ensures r == None <==> Accepts(f, v)
    ensures r == None ==> !IsBlank(v)
  {
    BlankIffTrimmedEmpty(v);
    match f
    case FirstName => RequiredError(v, FirstNameRequired)
    case LastName => RequiredError(v, LastNameRequired)
    case Address => RequiredError(v, AddressRequired)
    case PhoneNumber => PhoneNumberError(v)
  }

  // ---------------------------------------------------------------------------
  // The aggregate flag

  /** What `validateForm` computes: no field has an error and no field is blank. */
  ghost predicate FormValidity(st: UiState) {
    forall f: Field :: Error(st, f) == None && !IsBlank(Value(st, f))
  }

  /** The flag agrees with the errors and fields currently held. */
  ghost predicate Consistent(st: UiState) {
    st.isFormValid == FormValidity(st)
  }

  /** Every error is its validator's verdict on the field's current value. */
  ghost predicate ErrorsAgree(st: UiState) {
    forall f: Field :: Error(st, f) == FieldError(f, Value(st, f))
  }

  /** Every field satisfies its rule. */
  ghost predicate AllAccepted(st: UiState) {
    forall f: Field :: Accepts(f, Value(st, f))
  }

  /** `FormValidity` spelled out field by field, as `validateForm` writes it. */
  lemma FormValidityByField(st: UiState)
    ensures FormValidity(st) <==>
      st.firstNameError == None && st.lastNameError == None &&
      st.addressError == None && st.phoneNumberError == None &&
      !IsBlank(st.firstName) && !IsBlank(st.lastName) &&
      !IsBlank(st.address) && !IsBlank(st.phoneNumber)
  {
    if FormValidity(st) {
      assert Error(st, FirstName) == None && !IsBlank(Value(st, FirstName));
      assert Error(st, LastName) == None && !IsBlank(Value(st, LastName));
      assert Error(st, Address) == None && !IsBlank(Value(st, Address));
      assert Error(st, PhoneNumber) == None && !IsBlank(Value(st, PhoneNumber));
    }
  }

  /** `validateForm`: rewrites only `isFormValid`, from the errors and the fields. */
  function WithFormValidity(st: UiState): (r: UiState)
    ensures r == st.(isFormValid := r.isFormValid)
    ensures Consistent(r)
  {
    var r := st.(isFormValid :=
      st.firstNameError == None && st.lastNameError == None &&
      st.addressError == None && st.phoneNumberError == None &&
      !IsBlank(st.firstName) && !IsBlank(st.lastName) &&
      !IsBlank(st.address) && !IsBlank(st.phoneNumber));
    FormValidityByField(r);
    r
  }

  /** When the errors agree with the fields, the flag `validateForm` computes means "every field satisfies its rule". */
  lemma FormValidityReflectsFields(st: UiState)
    requires ErrorsAgree(st)
    ensures FormValidity(st) <==> AllAccepted(st)
  {
  }

  // ---------------------------------------------------------------------------
  // Setters

  /** `updateX(v)`: field `f` becomes `v`, its error its validator's verdict, the flag is recomputed; nothing else changes. */
  function Updated(st: UiState, f: Field, v: string): (r: UiState)
    ensures Value(r, f) == v && Error(r, f) == FieldError(f, v)
    ensures forall g: Field | g != f :: Value(r, g) == Value(st, g) && Error(r, g) == Error(st, g)
    ensures r.id == st.id
    ensures Consistent(r)
  {
    WithFormValidity(WithError(WithValue(st, f, v), f, FieldError(f, v)))
  }

  /** One user edit: a call of the setter of `field` with `value`. */
  datatype Edit = Edit(field: Field, value: string)

  function ApplyEdits(st: UiState, es: seq<Edit>): UiState
    decreases |es|
  {
    if es == [] then st else ApplyEdits(Updated(st, es[0].field, es[0].value), es[1..])
  }

  function EditedFields(es: seq<Edit>): set<Field>
    decreases |es|
  {
    if es == [] then {} else {es[0].field} + EditedFields(es[1..])
  }

  /** After a run of setter calls, an edited field's error is its validator's verdict on its value,
      an unedited field and its error are as before, and (if anything was edited) the flag is consistent. */
  lemma {:induction false} EditsSettleFields(st: UiState, es: seq<Edit>, f: Field)
    ensures f in EditedFields(es) ==> Error(ApplyEdits(st, es), f) == FieldError(f, Value(ApplyEdits(st, es), f))
    ensures f !in EditedFields(es) ==>
      Value(ApplyEdits(st, es), f) == Value(st, f) && Error(ApplyEdits(st, es), f) == Error(st, f)
    ensures es != [] ==> Consistent(ApplyEdits(st, es))
    ensures ApplyEdits(st, es).id == st.id
    decreases |es|
  {
    if es != [] {
      var next := Updated(st, es[0].field, es[0].value);
      EditsSettleFields(next, es[1..], f);
      if es[1..] == [] {
        assert ApplyEdits(next, es[1..]) == next;
      }
    }
  }

  /** Once every field has been edited since the last emission, `isFormValid` holds exactly when every field satisfies its rule. */
  lemma AllFieldsEditedValidity(st: UiState, es: seq<Edit>)
    requires forall f: Field :: f in EditedFields(es)
    ensures ApplyEdits(st, es).isFormValid <==> AllAccepted(ApplyEdits(st, es))
  {
    var r := ApplyEdits(st, es);
    forall f: Field ensures Error(r, f) == FieldError(f, Value(r, f)) {
      EditsSettleFields(st, es, f);
    }
    EditsSettleFields(st, es, FirstName);
    assert es != [];
    FormValidityReflectsFields(r);
  }

  // ---------------------------------------------------------------------------
  // Seeding from a store emission

  /** The `init` collector: id and the four fields copied from the emitted record (0 and "" without one),
      errors left as they were, the flag recomputed. */
  function Seeded(st: UiState, user: Option<User>): (r: UiState)
    ensures r.id == (if user.Some? then user.value.id else 0)
    ensures forall f: Field :: Value(r, f) == (if user.Some? then UserValue(user.value, f) else "")
    ensures forall f: Field :: Error(r, f) == Error(st, f)
    ensures Consistent(r)
  {
    WithFormValidity(
      match user
      case None => st.(id := 0, firstName := "", lastName := "", address := "", phoneNumber := "")
      case Some(u) => st.(id := u.id, firstName := u.firstName, lastName := u.lastName,
                          address := u.address, phoneNumber := u.phoneNumber))
  }

  lemma LiteralAccepted(f: Field, v: string)
    requires v in {"Bob", "Lee", "1 Main", "5551234567"}
    requires f == PhoneNumber ==> v == "5551234567"
    ensures Accepts(f, v)
  {
  }

  /** A field error left by an earlier edit survives seeding, so a valid stored record is shown as not savable. */
  lemma StaleErrorSurvivesSeeding()
    ensures var edited := Updated(InitialUiState(), FirstName, "");
            var seeded := Seeded(edited, Some(User(7, "Bob", "Lee", "1 Main", "5551234567")));
            AllAccepted(seeded) && seeded.firstNameError == Some(FirstNameRequired) && !seeded.isFormValid
  {
    var bob := User(7, "Bob", "Lee", "1 Main", "5551234567");
    var edited := Updated(InitialUiState(), FirstName, "");
    assert edited.firstNameError == Some(FirstNameRequired);
    var seeded := Seeded(edited, Some(bob));
    assert seeded.firstNameError == Some(FirstNameRequired) by {
      assert Error(seeded, FirstName) == Error(edited, FirstName);
    }
    FormValidityByField(seeded);
    forall f: Field ensures Accepts(f, Value(seeded, f)) {
      assert Value(seeded, f) == UserValue(bob, f);
      LiteralAccepted(f, UserValue(bob, f));
    }
  }

  /** Seeding as evidently intended: the same copy, followed by all four validators and then `validateForm`. */
  function SeededRevalidated(st: UiState, user: Option<User>): (r: UiState)
    ensures r.id == (if user.Some? then user.value.id else 0)
    ensures forall f: Field :: Value(r, f) == (if user.Some? then UserValue(user.value, f) else "")
    ensures ErrorsAgree(r)
    ensures r.isFormValid <==> AllAccepted(r)
  {
    var r := WithFormValidity(Revalidated(Seeded(st, user)));
    FormValidityReflectsFields(r);
    r
  }

  // ---------------------------------------------------------------------------
  // Saving

  /** The four validations `saveProfile` runs on the snapshot's values: errors rewritten, nothing else, flag included. */
  function Revalidated(st: UiState): (r: UiState)
    ensures ErrorsAgree(r)
    ensures r.id == st.id && r.isFormValid == st.isFormValid
    ensures forall f: Field :: Value(r, f) == Value(st, f)
  {
    st.(firstNameError := FieldError(FirstName, st.firstName),
        lastNameError := FieldError(LastName, st.lastName),
        addressError := FieldError(Address, st.address),
        phoneNumberError := FieldError(PhoneNumber, st.phoneNumber))
  }

  /** The record `saveProfile` builds: `currentUser`'s id (0 without one) and the snapshot's four strings. */
  function RecordToSave(snapshot: UiState, currentUser: Option<User>): (u: User)
    ensures u.id == (if currentUser.Some? then currentUser.value.id else 0)
    ensures forall f: Field :: UserValue(u, f) == Value(snapshot, f)
  {
    User(if currentUser.Some? then currentUser.value.id else 0,
         snapshot.firstName, snapshot.lastName, snapshot.address, snapshot.phoneNumber)
  }

  /** The store call `saveProfile` makes, decided on the snapshot taken before re-validation. */
  function SaveCall(snapshot: UiState, currentUser: Option<User>): (r: Option<DaoCall>)
    ensures r.Some? <==> snapshot.isFormValid
    ensures r.Some? ==> (r.value.Insert? <==> currentUser.None?)
    ensures r.Some? ==> r.value.user.id == (if currentUser.Some? then currentUser.value.id else 0)
    ensures r.Some? ==> forall f: Field :: UserValue(r.value.user, f) == Value(snapshot, f)
  {
    if !snapshot.isFormValid then None
    else if currentUser.None? then Some(Insert(RecordToSave(snapshot, currentUser)))
    else Some(Update(RecordToSave(snapshot, currentUser)))
  }

  function Writes(call: Option<DaoCall>): seq<DaoCall> {
    if call.Some? then [call.value] else []
  }

  /** Every field of a stored record satisfies its rule. */
  ghost predicate RecordAccepted(u: User) {
    forall f: Field :: Accepts(f, UserValue(u, f))
  }

  /** Saving as evidently intended: decide on the flag recomputed after the four validations. */
  function SaveCallRevalidated(st: UiState, currentUser: Option<User>): (r: Option<DaoCall>)
    ensures r.Some? <==> AllAccepted(st)
    ensures r.Some? ==> RecordAccepted(r.value.user)
    ensures r.Some? ==> (r.value.Insert? <==> currentUser.None?)
    ensures r.Some? ==> r.value.user.id == (if currentUser.Some? then currentUser.value.id else 0)
    ensures r.Some? ==> forall f: Field :: UserValue(r.value.user, f) == Value(st, f)
  {
    var checked := WithFormValidity(Revalidated(st));
    assert forall f: Field :: Value(checked, f) == Value(st, f);
    FormValidityReflectsFields(checked);
    SaveCall(checked, currentUser)
  }

  /** On a state whose errors agree with its fields, deciding on the snapshot is the intended decision:
      the gap needs a state reached by seeding. */
  lemma SnapshotDecisionSoundWhenSettled(st: UiState, currentUser: Option<User>)
    requires ErrorsAgree(st) && Consistent(st)
    ensures SaveCall(st, currentUser) == SaveCallRevalidated(st, currentUser)
  {
  }

  /** Saving changes neither the flag nor the fields, so a second save before the store re-emits repeats
      the first one's call: two inserts on a new profile. */
  lemma RepeatedSaveRepeatsCall(st: UiState, currentUser: Option<User>)
    ensures SaveCall(Revalidated(st), currentUser) == SaveCall(st, currentUser)
  {
  }

  // ---------------------------------------------------------------------------
  // The view model

  class EditProfileViewModel {
    var uiState: UiState
    /** The last record the store emitted. */
    var currentUser: Option<User>
    const userDao: UserDao

    constructor (userDao: UserDao)
      ensures uiState == InitialUiState() && currentUser == None && this.userDao == userDao
    {
      uiState := InitialUiState();
      currentUser := None;
      this.userDao := userDao;
    }

    /** One value collected from `userDao.getUser()`. */
    method OnEmission(user: Option<User>)
      modifies this
      ensures currentUser == user
      ensures uiState == Seeded(old(uiState), user)
    {
      currentUser := user;
      match user {
        case None =>
          uiState := uiState.(id := 0, firstName := "", lastName := "", address := "", phoneNumber := "");
        case Some(u) =>
          uiState := uiState.(id := u.id, firstName := u.firstName, lastName := u.lastName,
                              address := u.address, phoneNumber := u.phoneNumber);
      }
      ValidateForm();
    }

    method UpdateFirstName(name: string)
      modifies this
      ensures uiState == Updated(old(uiState), FirstName, name)
      ensures currentUser == old(currentUser)
    {
      uiState := uiState.(firstName := name);
      ValidateFirstName(name);
      ValidateForm();
    }

    method UpdateLastName(name: string)
      modifies this
      ensures uiState == Updated(old(uiState), LastName, name)
      ensures currentUser == old(currentUser)
    {
      uiState := uiState.(lastName := name);
      ValidateLastName(name);
      ValidateForm();
    }

    method UpdateAddress(address: string)
      modifies this
      ensures uiState == Updated(old(uiState), Address, address)
      ensures currentUser == old(currentUser)
    {
      uiState := uiState.(address := address);
      ValidateAddress(address);
      ValidateForm();
    }

    method UpdatePhoneNumber(phone: string)
      modifies this
      ensures uiState == Updated(old(uiState), PhoneNumber, phone)
      ensures currentUser == old(currentUser)
    {
      uiState := uiState.(phoneNumber := phone);
      ValidatePhoneNumber(phone);
      ValidateForm();
    }

    method ValidateFirstName(name: string)
      modifies this
      ensures uiState == WithError(old(uiState), FirstName, FieldError(FirstName, name))
      ensures currentUser == old(currentUser)
    {
      uiState := uiState.(firstNameError := if IsBlank(name) then Some(FirstNameRequired) else None);
    }

    method ValidateLastName(name: string)
      modifies this
      ensures uiState == WithError(old(uiState), LastName, FieldError(LastName, name))
      ensures currentUser == old(currentUser)
    {
      uiState := uiState.(lastNameError := if IsBlank(name) then Some(LastNameRequired) else None);
    }

    method ValidateAddress(address: string)
      modifies this
      ensures uiState == WithError(old(uiState), Address, FieldError(Address, address))
      ensures currentUser == old(currentUser)
    {
      uiState := uiState.(addressError := if IsBlank(address) then Some(AddressRequired) else None);
    }

    method ValidatePhoneNumber(phone: string)
      modifies this
      ensures uiState == WithError(old(uiState), PhoneNumber, FieldError(PhoneNumber, phone))
      ensures currentUser == old(currentUser)
    {
      var error: Option<string>;
      if IsBlank(phone) {
        error := Some(PhoneRequired);
      } else if !MatchesPhonePattern(phone) {
        error := Some(PhoneInvalidFormat);
      } else {
        error := None;
      }
      uiState := uiState.(phoneNumberError := error);
    }

    method ValidateForm()
      modifies this
      ensures uiState == WithFormValidity(old(uiState))
      ensures currentUser == old(currentUser)
    {
      var currentState := uiState;
      uiState := currentState.(isFormValid :=
        currentState.firstNameError == None && currentState.lastNameError == None &&
        currentState.addressError == None && currentState.phoneNumberError == None &&
        !IsBlank(currentState.firstName) && !IsBlank(currentState.lastName) &&
        !IsBlank(currentState.address) && !IsBlank(currentState.phoneNumber));
    }

    /** `saveProfile(onSuccess)`; the result says whether `onSuccess` was invoked, which happens after the store call. */
    method SaveProfile() returns (success: bool)
      modifies this, userDao
      ensures uiState == Revalidated(old(uiState))
      ensures currentUser == old(currentUser)
      ensures success == old(uiState).isFormValid
      ensures userDao.calls == old(userDao.calls) + Writes(SaveCall(old(uiState), old(currentUser)))
    {
      var currentState := uiState;
      ValidateFirstName(currentState.firstName);
      ValidateLastName(currentState.lastName);
      ValidateAddress(currentState.address);
      ValidatePhoneNumber(currentState.phoneNumber);
      success := false;
      if currentState.isFormValid {
        var userToSave := User(if currentUser.Some? then currentUser.value.id else 0,
                               currentState.firstName, currentState.lastName,
                               currentState.address, currentState.phoneNumber);
        if currentUser.None? {
          userDao.InsertUser(userToSave);
        } else {
          userDao.UpdateUser(userToSave);
        }
        success := true;
      }
    }
  }
}
