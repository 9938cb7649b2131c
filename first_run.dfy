/**
 * How the two view models meet: the default profile the profile screen inserts
 * on first run, seen through the edit form, and a few end-to-end runs.
 */
module FirstRun {
  import opened Wrappers
  import opened Text
  import opened Data
  import opened EditProfile
  import opened Profile

  /** The default phone "+7 811-732-5298" fails the edit form's phone pattern (it holds a space and dashes). */
  lemma DefaultPhoneRejected(id: int)
    ensures !MatchesPhonePattern(DefaultUser(id).phoneNumber)
    ensures PhoneNumberError(DefaultUser(id).phoneNumber) == Some(PhoneInvalidFormat)
    ensures !RecordAccepted(DefaultUser(id))
  {
    var phone := DefaultUser(id).phoneNumber;
    assert phone[1..][1] == ' ' && !IsDigit(phone[1..][1]);
    assert !IsWhitespace(phone[0]);
    assert UserValue(DefaultUser(id), PhoneNumber) == phone;
  }

  /** Seeding the edit form with the default profile, from a form showing no errors (the initial one, say),
      yields a savable form: `saveProfile` then writes the record back unchanged, bad phone included, and
      leaves the form flagged valid while it shows the phone's format error.  Deciding after re-validation
      would have refused it. */
  lemma DefaultRecordSavedUnchanged(st: UiState, id: int)
    requires st.firstNameError == None && st.lastNameError == None
    requires st.addressError == None && st.phoneNumberError == None
    ensures var seeded := Seeded(st, Some(DefaultUser(id)));
            seeded.isFormValid &&
            SaveCall(seeded, Some(DefaultUser(id))) == Some(Update(DefaultUser(id))) &&
            Revalidated(seeded).phoneNumberError == Some(PhoneInvalidFormat) &&
            Revalidated(seeded).isFormValid &&
            SaveCallRevalidated(seeded, Some(DefaultUser(id))) == None
  {
    var d := DefaultUser(id);
    var seeded := Seeded(st, Some(d));
    DefaultPhoneRejected(id);
    FormValidityByField(seeded);
    assert Value(seeded, FirstName) == d.firstName && Value(seeded, LastName) == d.lastName;
    assert Value(seeded, Address) == d.address && Value(seeded, PhoneNumber) == d.phoneNumber;
    assert Error(seeded, FirstName) == None && Error(seeded, LastName) == None;
    assert Error(seeded, Address) == None && Error(seeded, PhoneNumber) == None;
    assert RecordToSave(seeded, Some(d)) == d;
    assert !Accepts(PhoneNumber, Value(seeded, PhoneNumber));
  }

  lemma DefaultSavedAsUpdate(id: int)
    ensures SaveCall(Seeded(InitialUiState(), Some(DefaultUser(id))), Some(DefaultUser(id))) == Some(Update(DefaultUser(id)))
  {
    DefaultRecordSavedUnchanged(InitialUiState(), id);
  }

  /** The edit form opened on the stored default record saves that record back as an update. */
  method SaveSeededDefault(dao: UserDao, storedId: int) returns (success: bool)
    modifies dao
    ensures success
    ensures dao.calls == old(dao.calls) + [Update(DefaultUser(storedId))]
  {
    var stored := DefaultUser(storedId);
    DefaultSavedAsUpdate(storedId);
    var form := new EditProfileViewModel(dao);
    form.OnEmission(Some(stored));
    success := form.SaveProfile();
  }

  /** First run end to end: the profile screen finds the store empty and inserts the default profile; the store
      then emits the stored record (with the id it gave it); the edit form seeded from it saves it back as an
      update, although its phone fails the form's own pattern. */
  method FirstRunSavesDefault(unsetId: int, storedId: int) returns (calls: seq<DaoCall>, success: bool)
    ensures success
    ensures calls == [Insert(DefaultUser(unsetId)), Update(DefaultUser(storedId))]
    ensures !RecordAccepted(calls[1].user)
  {
    var dao := new UserDao();
    var profile := new ProfileViewModel(dao, unsetId);
    profile.OnEmission(None);
    profile.OnEmission(Some(DefaultUser(storedId)));
    success := SaveSeededDefault(dao, storedId);
    calls := dao.calls;
    DefaultPhoneRejected(storedId);
  }

  /** Field values of a new profile, each accepted by its validator. */
  lemma NewProfileFieldsAccepted()
    ensures FieldError(FirstName, "Anna") == None && FieldError(LastName, "Kim") == None
    ensures FieldError(Address, "12 Elm St") == None && FieldError(PhoneNumber, "+12345678901") == None
  {
    NonBlankAccepted("Anna");
    NonBlankAccepted("Kim");
    NonBlankAccepted("12 Elm St");
    var phone := "+12345678901";
    assert MatchesPhonePattern(phone) by {
      assert AllDigits(phone[1..]);
    }
  }

  /** A string whose first character is not whitespace passes every required-field check. */
  lemma NonBlankAccepted(v: string)
    requires v != [] && !IsWhitespace(v[0])
    ensures Trim(v) != []
  {
    BlankIffTrimmedEmpty(v);
  }

  /** A new profile typed into an empty form is inserted with id 0 after the four edits make the form valid. */
  method NewProfileInserted() returns (calls: seq<DaoCall>, success: bool)
    ensures success
    ensures calls == [Insert(User(0, "Anna", "Kim", "12 Elm St", "+12345678901"))]
  {
    var dao := new UserDao();
    var form := new EditProfileViewModel(dao);
    form.OnEmission(None);
    assert !form.uiState.isFormValid by {
      FormValidityByField(form.uiState);
    }
    NewProfileFieldsAccepted();
    form.UpdateFirstName("Anna");
    form.UpdateLastName("Kim");
    form.UpdateAddress("12 Elm St");
    form.UpdatePhoneNumber("+12345678901");
    assert form.uiState.isFormValid by {
      FormValidityByField(form.uiState);
    }
    success := form.SaveProfile();
    calls := dao.calls;
  }

  /** A phone of letters is flagged as a format error, not as missing, and the save is refused without a store call. */
  method BadPhoneRefused() returns (error: Option<string>, calls: seq<DaoCall>, success: bool)
    ensures error == Some(PhoneInvalidFormat)
    ensures !success && calls == []
  {
    var dao := new UserDao();
    var form := new EditProfileViewModel(dao);
    form.OnEmission(Some(User(7, "Bob", "Lee", "1 Main", "5551234567")));
    form.UpdatePhoneNumber("abc");
    assert !IsWhitespace(form.uiState.phoneNumber[0]) && !IsDigit(form.uiState.phoneNumber[0]);
    error := form.uiState.phoneNumberError;
    assert !form.uiState.isFormValid by {
      FormValidityByField(form.uiState);
    }
    success := form.SaveProfile();
    calls := dao.calls;
  }
}
