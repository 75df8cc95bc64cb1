/** The user administration page of src/pages/admin/createUser.jsx: the list of users, and
    the create-user form with its validation (including the e-mail pattern
    `^[^\s@]+@[^\s@]+\.[^\s@]+$`), its input and reset handlers and the submit gate. */
module CreateUser {
  import opened Js

  // ---- the e-mail pattern ------------------------------------------------------------------

  /** `[^\s@]` */
  predicate Plain(c: char) {
    !IsSpace(c) && c != '@'
  }

  /** `[^\s@]+` */
  predicate PlainRun(s: string) {
    s != [] && forall k :: 0 <= k < |s| ==> Plain(s[k])
  }

  /** The text splits as `[^\s@]+` `@` `[^\s@]+` `\.` `[^\s@]+`, with the `@` at `i` and the
      dot at `j`. */
  predicate SplitsAt(s: string, i: int, j: int) {
    0 <= i < j < |s| && s[i] == '@' && s[j] == '.'
    && PlainRun(s[..i]) && PlainRun(s[i + 1..j]) && PlainRun(s[j + 1..])
  }

  /** `/^[^\s@]+@[^\s@]+\.[^\s@]+$/.test(s)` */
  predicate IsEmail(s: string) {
    exists i, j | 0 <= i < j < |s| :: SplitsAt(s, i, j)
  }

  /** The pattern in plain words: no white space, a single `@` with something before it, and
      a dot after the `@` that is neither right after it nor the last character. */
  predicate EmailInWords(s: string) {
    (forall k :: 0 <= k < |s| ==> !IsSpace(s[k]))
    && exists i :: 0 < i < |s| && s[i] == '@'
         && (forall k :: 0 <= k < |s| && k != i ==> s[k] != '@')
         && exists j :: i + 1 < j < |s| - 1 && s[j] == '.'
  }

  lemma IsEmailInWords(s: string)
    ensures IsEmail(s) <==> EmailInWords(s)
  {
    if IsEmail(s) {
      var i, j :| 0 <= i < j < |s| && SplitsAt(s, i, j);
      forall k | 0 <= k < |s|
        ensures !IsSpace(s[k]) && (k != i ==> s[k] != '@')
      {
        if k < i {
          assert s[..i][k] == s[k];
        } else if i < k < j {
          assert s[i + 1..j][k - i - 1] == s[k];
        } else if j < k {
          assert s[j + 1..][k - j - 1] == s[k];
        }
      }
      assert |s[..i]| > 0 && |s[i + 1..j]| > 0 && |s[j + 1..]| > 0;
      assert i + 1 < j < |s| - 1;
    }
    if EmailInWords(s) {
      var i :| 0 < i < |s| && s[i] == '@'
         && (forall k :: 0 <= k < |s| && k != i ==> s[k] != '@')
         && exists j :: i + 1 < j < |s| - 1 && s[j] == '.';
      var j :| i + 1 < j < |s| - 1 && s[j] == '.';
      assert PlainRun(s[..i]) by {
        forall k | 0 <= k < i
          ensures Plain(s[..i][k])
        {
          assert s[..i][k] == s[k];
        }
      }
      var b := s[i + 1..j];
      assert PlainRun(b) by {
        forall k | 0 <= k < |b|
          ensures Plain(b[k])
        {
          assert b[k] == s[i + 1 + k];
        }
      }
      var c := s[j + 1..];
      assert PlainRun(c) by {
        forall k | 0 <= k < |c|
          ensures Plain(c[k])
        {
          assert c[k] == s[j + 1 + k];
        }
      }
      assert SplitsAt(s, i, j);
    }
  }

  /** An address that matches has no white space, so it is never blank. */
  lemma EmailNotBlank(s: string)
    requires IsEmail(s)
    ensures s != "" && Trim(s) != ""
  {
    IsEmailInWords(s);
    TrimEmptyIffBlank(s);
    assert !Blank(s) by {
      assert !IsSpace(s[0]);
    }
  }

  // ---- the form ----------------------------------------------------------------------------

  datatype UserField = Name | Email | Password | Role

  datatype UserForm = UserForm(name: string, email: string, password: string, role: string)

  const BlankForm := UserForm("", "", "", "user")

  function Get(f: UserForm, k: UserField): string {
    match k
    case Name => f.name
    case Email => f.email
    case Password => f.password
    case Role => f.role
  }

  /** `{ ...prev, [name]: value }` */
  function Set(f: UserForm, k: UserField, v: string): (r: UserForm)
    ensures Get(r, k) == v
    ensures forall j :: j != k ==> Get(r, j) == Get(f, j)
  {
    match k
    case Name => f.(name := v)
    case Email => f.(email := v)
    case Password => f.(password := v)
    case Role => f.(role := v)
  }

  const NameRequired := "Name is required"
  const EmailRequired := "Email is required"
  const InvalidEmail := "Valid email required"
  const PasswordRequired := "Password is required"
  const TooShort := "Min 6 chars"

  /** The error a field is left with once the later checks have overwritten the earlier ones.
      A blank but non-empty e-mail fails the pattern, so only the empty e-mail reads "Email is
      required" (the page's e-mail input strips surrounding white space, so a blank address
      reaches the check as ""); a blank password of six or more code units keeps "Password is
      required". */
  function ErrorOf(f: UserForm, k: UserField): (r: Option<string>)
    ensures k == Name ==> (r.Some? <==> Trim(f.name) == "") && (r.Some? ==> r.value == NameRequired)
    ensures k == Email ==>
      (r == Some(EmailRequired) <==> f.email == "")
      && (r == Some(InvalidEmail) <==> f.email != "" && !IsEmail(f.email))
      && (r.None? <==> IsEmail(f.email))
    ensures k == Password ==>
      (r == Some(TooShort) <==> 0 < Length(f.password) < 6)
      && (r == Some(PasswordRequired) <==> f.password == "" || (Length(f.password) >= 6 && Trim(f.password) == ""))
      && (r.None? <==> Length(f.password) >= 6 && Trim(f.password) != "")
    ensures k == Role ==> r.None?
  {
    match k
    case Name => if Trim(f.name) == "" then Some(NameRequired) else None
    case Email =>
      if f.email == "" then Some(EmailRequired)
      else if !IsEmail(f.email) then Some(InvalidEmail)
      else None
    case Password =>
      if f.password == "" then Some(PasswordRequired)
      else if Length(f.password) < 6 then Some(TooShort)
      else if Trim(f.password) == "" then Some(PasswordRequired)
      else None
    case Role => None
  }

  /** The map holds the field's error exactly when it has one. */
  predicate Records(f: UserForm, m: map<UserField, string>, k: UserField) {
    (k in m <==> ErrorOf(f, k).Some?) && (k in m ==> m[k] == ErrorOf(f, k).value)
  }

  predicate IsErrorMap(f: UserForm, m: map<UserField, string>) {
    forall k :: Records(f, m, k)
  }

  /** A form that passes: a name, an address that matches the pattern, and a password of at
      least six UTF-16 code units that is not all white space. */
  predicate Acceptable(f: UserForm) {
    Trim(f.name) != "" && IsEmail(f.email) && Length(f.password) >= 6 && Trim(f.password) != ""
  }

  lemma AcceptedIffNoErrors(f: UserForm, m: map<UserField, string>)
    requires IsErrorMap(f, m)
    ensures m == map[] <==> Acceptable(f)
  {
    assert Records(f, m, Name) && Records(f, m, Email) && Records(f, m, Password) && Records(f, m, Role);
    if Acceptable(f) {
      forall j
        ensures j !in m
      {
        assert Records(f, m, j);
      }
      assert m == map[];
    }
  }

  datatype Message = Message(kind: string, text: string)

  const NoMessage := Message("", "")

  datatype User = User(id: string, name: string, email: string, role: string)

  /** How `Endpoint.getUsers()` ended: with a body whose `data.data` may be missing, or
      with an error. */
  datatype Fetch = Fetched(data: Option<seq<User>>) | FetchFailed

  /** How `Endpoint.createUsers(formData)` ended: resolved, or rejected with the server's
      `message`, if any. */
  datatype Creation = Created | Rejected(message: Option<string>)

  const CreationFailed := "Creation failed"

  class UserAdmin {
    var users: seq<User>
    var showModal: bool
    var form: UserForm
    var loadingForm: bool
    var message: Message
    var errors: map<UserField, string>
    var showPassword: bool
    /** The forms posted to create a user, in order. */
    var requests: seq<UserForm>
    /** How many times the user list has been asked for. */
    var fetches: nat

    /** The page mounts with an empty form and asks for the user list once. */
    constructor ()
      ensures users == [] && !showModal && form == BlankForm && !loadingForm && message == NoMessage
      ensures errors == map[] && !showPassword && requests == [] && fetches == 1
    {
      users := [];
      showModal := false;
      form := BlankForm;
      loadingForm := false;
      message := NoMessage;
      errors := map[];
      showPassword := false;
      requests := [];
      fetches := 1;
    }

    /** The end of `fetchUsers`: a missing list shows as empty, a failure keeps the old one. */
    method FetchSettled(r: Fetch)
      modifies this
      ensures r.Fetched? && r.data.Some? ==> users == r.data.value
      ensures r.Fetched? && r.data.None? ==> users == []
      ensures r.FetchFailed? ==> users == old(users)
      ensures showModal == old(showModal) && form == old(form) && message == old(message)
      ensures errors == old(errors) && requests == old(requests) && fetches == old(fetches)
      ensures loadingForm == old(loadingForm) && showPassword == old(showPassword)
    {
      match r
      case Fetched(data) => users := if data.Some? then data.value else [];
      case FetchFailed =>
    }

    method OpenModal()
      modifies this
      ensures showModal
      ensures users == old(users) && form == old(form) && message == old(message)
      ensures errors == old(errors) && requests == old(requests) && fetches == old(fetches)
      ensures loadingForm == old(loadingForm) && showPassword == old(showPassword)
    {
      showModal := true;
    }

    method CloseModal()
      modifies this
      ensures !showModal
      ensures users == old(users) && form == old(form) && message == old(message)
      ensures errors == old(errors) && requests == old(requests) && fetches == old(fetches)
      ensures loadingForm == old(loadingForm) && showPassword == old(showPassword)
    {
      showModal := false;
    }

    /** `validateForm()`: the checks run in order and a later message for a field replaces an
        earlier one. */
    method ValidateForm() returns (ok: bool)
      modifies this
      ensures IsErrorMap(form, errors)
      ensures ok <==> Acceptable(form)
      ensures users == old(users) && showModal == old(showModal) && form == old(form)
      ensures message == old(message) && requests == old(requests) && fetches == old(fetches)
      ensures loadingForm == old(loadingForm) && showPassword == old(showPassword)
    {
      var newErr: map<UserField, string> := map[];
      if Trim(form.name) == "" {
        newErr := newErr[Name := NameRequired];
      }
      assert Records(form, newErr, Name) && newErr.Keys <= {Name};
      if Trim(form.email) == "" {
        newErr := newErr[Email := EmailRequired];
      }
      if form.email != "" && !IsEmail(form.email) {
        newErr := newErr[Email := InvalidEmail];
      }
      assert Records(form, newErr, Email) by {
        if IsEmail(form.email) {
          EmailNotBlank(form.email);
        }
      }
      assert Records(form, newErr, Name) && newErr.Keys <= {Name, Email};
      if Trim(form.password) == "" {
        newErr := newErr[Password := PasswordRequired];
      }
      if form.password != "" && Length(form.password) < 6 {
        newErr := newErr[Password := TooShort];
      }
      assert Records(form, newErr, Password) by {
        if form.password == "" {
          assert Trim(form.password) == "";
        }
      }
      assert Records(form, newErr, Name) && Records(form, newErr, Email) && Records(form, newErr, Password)
        && Role !in newErr;
      errors := newErr;
      assert IsErrorMap(form, errors) by {
        forall k
          ensures Records(form, errors, k)
        {
          match k
          case Name =>
          case Email =>
          case Password =>
          case Role =>
        }
      }
      AcceptedIffNoErrors(form, errors);
      ok := |errors.Keys| == 0;
      assert ok <==> errors == map[] by {
        if errors != map[] {
          var k :| k in errors;
          assert k in errors.Keys;
        }
      }
    }

    /** `handleInputChange`: sets the field and blanks its error if one is showing. */
    method InputChange(k: UserField, value: string)
      modifies this
      ensures form == Set(old(form), k, value)
      ensures errors == if k in old(errors) && old(errors)[k] != "" then old(errors)[k := ""] else old(errors)
      ensures users == old(users) && showModal == old(showModal) && message == old(message)
      ensures requests == old(requests) && fetches == old(fetches)
      ensures loadingForm == old(loadingForm) && showPassword == old(showPassword)
    {
      form := Set(form, k, value);
      if k in errors && errors[k] != "" {
        errors := errors[k := ""];
      }
    }

    /** The start of `handleCreate`: validate, and post the form only if it passes. */
    method Create() returns (sent: bool)
      modifies this
      ensures IsErrorMap(form, errors) && form == old(form)
      ensures sent <==> Acceptable(old(form))
      ensures sent ==> loadingForm && message == NoMessage && requests == old(requests) + [form]
      ensures !sent ==> loadingForm == old(loadingForm) && message == old(message) && requests == old(requests)
      ensures users == old(users) && showModal == old(showModal) && fetches == old(fetches)
      ensures showPassword == old(showPassword)
    {
      sent := ValidateForm();
      if !sent {
        return;
      }
      loadingForm := true;
      message := NoMessage;
      requests := requests + [form];
    }

    /** The end of `handleCreate`. The success message names the user of the form that was
        posted; a success also clears the form, closes the modal and asks for the list again. */
    method CreateSettled(r: Creation)
      requires requests != []
      modifies this
      ensures var posted := old(requests)[|old(requests)| - 1];
        r.Created? ==> message == Message("success", "Created " + posted.name)
                       && form == BlankForm && !showModal && fetches == old(fetches) + 1
      ensures r.Rejected? ==> message == Message("error", OrElse(r.message, CreationFailed))
                              && form == old(form) && showModal == old(showModal) && fetches == old(fetches)
      ensures !loadingForm
      ensures users == old(users) && errors == old(errors) && requests == old(requests)
      ensures showPassword == old(showPassword)
    {
      if r.Created? {
        message := Message("success", "Created " + requests[|requests| - 1].name);
        form := BlankForm;
        showModal := false;
        fetches := fetches + 1;
      } else {
        message := Message("error", OrElse(r.message, CreationFailed));
      }
      loadingForm := false;
    }

    /** `handleReset()` */
    method Reset()
      modifies this
      ensures form == BlankForm && errors == map[] && message == NoMessage
      ensures users == old(users) && showModal == old(showModal) && requests == old(requests)
      ensures fetches == old(fetches) && loadingForm == old(loadingForm)
      ensures showPassword == old(showPassword)
    {
      form := BlankForm;
      errors := map[];
      message := NoMessage;
    }

    method TogglePassword()
      modifies this
      ensures showPassword == !old(showPassword)
      ensures form == old(form) && errors == old(errors) && message == old(message)
      ensures users == old(users) && requests == old(requests) && fetches == old(fetches)
      ensures showModal == old(showModal) && loadingForm == old(loadingForm)
    {
      showPassword := !showPassword;
    }
  }

  /** A reset form passes none of the checks it can fail except the role, which has none. */
  lemma BlankFormErrors()
    ensures ErrorOf(BlankForm, Name) == Some(NameRequired)
    ensures ErrorOf(BlankForm, Email) == Some(EmailRequired)
    ensures ErrorOf(BlankForm, Password) == Some(PasswordRequired)
    ensures !Acceptable(BlankForm)
  {
    assert Trim("") == "";
  }

  /** `length` counts UTF-16 code units: three emoji (six units) are long enough. */
  lemma EmojiPasswordLength()
    ensures ErrorOf(UserForm("Ada", "ada@example.com", "\U{1F600}\U{1F600}\U{1F600}", "user"), Password).None?
  {
    LengthOfEmoji();
    TrimUnchanged("\U{1F600}\U{1F600}\U{1F600}");
  }

  /** A typical address matches. */
  lemma TypicalEmail()
    ensures IsEmail("ada@example.com")
  {
    var s := "ada@example.com";
    assert SplitsAt(s, 3, 11) by {
      assert s[..3] == "ada";
      assert s[4..11] == "example";
      assert s[12..] == "com";
    }
  }

  /** Without a dot after the `@` the address does not match. */
  lemma EmailNeedsDot()
    ensures !IsEmail("ada@example")
  {
    var s := "ada@example";
    IsEmailInWords(s);
    assert forall j :: 0 <= j < |s| ==> s[j] != '.';
  }

  /** With nothing before the `@` it does not match. */
  lemma EmailNeedsLocalPart()
    ensures !IsEmail("@example.com")
  {
    var s := "@example.com";
    IsEmailInWords(s);
    assert s[0] == '@';
  }

  /** With white space in it it does not match. */
  lemma EmailHasNoSpace()
    ensures !IsEmail("ada @example.com")
  {
    var s := "ada @example.com";
    IsEmailInWords(s);
    assert IsSpace(s[3]);
  }
}
