/** The change-password form of src/pages/admin/changePassword.jsx: the strength meter shown
    under the new password, the field-by-field validation, and the handlers that update the
    form, its error messages and its status message. */
module ChangePassword {
  import opened Js

  // ---- password strength -------------------------------------------------------------------

  /** The five things the meter looks for, in the order the feedback lists them. */
  datatype Criterion = MinLength | Lowercase | Uppercase | Digit | Special

  const Criteria := [MinLength, Lowercase, Uppercase, Digit, Special]

  predicate IsLowerAscii(c: char) {
    'a' <= c <= 'z'
  }

  predicate IsUpperAscii(c: char) {
    'A' <= c <= 'Z'
  }

  /** `[^a-zA-Z\d]` */
  predicate IsSpecial(c: char) {
    !IsLowerAscii(c) && !IsUpperAscii(c) && !IsDigit(c)
  }

  /** Whether the password meets a criterion: a `length` (in UTF-16 code units) of at least
      8, or a character matching `[a-z]`, `[A-Z]`, `\d` or `[^a-zA-Z\d]`. */
  predicate Meets(password: string, c: Criterion) {
    match c
    case MinLength => Length(password) >= 8
    case Lowercase => exists i :: 0 <= i < |password| && IsLowerAscii(password[i])
    case Uppercase => exists i :: 0 <= i < |password| && IsUpperAscii(password[i])
    case Digit => exists i :: 0 <= i < |password| && IsDigit(password[i])
    case Special => exists i :: 0 <= i < |password| && IsSpecial(password[i])
  }

  /** The feedback wording of a missing criterion. */
  function Hint(c: Criterion): string {
    match c
    case MinLength => "at least 8 characters"
    case Lowercase => "lowercase letter"
    case Uppercase => "uppercase letter"
    case Digit => "number"
    case Special => "special character"
  }

  function Hints(cs: seq<Criterion>): (r: seq<string>)
    ensures |r| == |cs|
  {
    if cs == [] then [] else [Hint(cs[0])] + Hints(cs[1..])
  }

  /** `[c]` when the password meets `c` exactly as `met` says, else nothing. */
  function Pick(password: string, c: Criterion, met: bool): seq<Criterion> {
    if Meets(password, c) == met then [c] else []
  }

  lemma {:induction false} HintsSnoc(cs: seq<Criterion>, c: Criterion)
    ensures Hints(cs + [c]) == Hints(cs) + [Hint(c)]
  {
    if cs != [] {
      HintsSnoc(cs[1..], c);
      assert (cs + [c])[1..] == cs[1..] + [c];
    } else {
      assert [] + [c] == [c];
    }
  }

  /** The criteria among `cs` that the password meets (`met`) or misses (`!met`), in order. */
  function Among(password: string, cs: seq<Criterion>, met: bool): (r: seq<Criterion>)
    ensures |r| <= |cs|
  {
    if cs == [] then [] else Pick(password, cs[0], met) + Among(password, cs[1..], met)
  }

  function Met(password: string): seq<Criterion> {
    Among(password, Criteria, true)
  }

  function Missing(password: string): seq<Criterion> {
    Among(password, Criteria, false)
  }

  /** `strengthMap`: the label and its colour for each score. */
  datatype Label = Label(text: string, color: string)

  const Labels := [
    Label("Very Weak", "text-red-600"),
    Label("Weak", "text-red-500"),
    Label("Fair", "text-yellow-500"),
    Label("Good", "text-blue-500"),
    Label("Strong", "text-green-500"),
    Label("Very Strong", "text-green-600")
  ]

  const AllMet := "Great password!"

  /** The meter's reading. The empty password's reading has no feedback at all. */
  datatype Strength = Strength(score: int, text: string, color: string, feedback: Option<string>)

  function FeedbackText(hints: seq<string>): string {
    if |hints| > 0 then "Missing: " + Join(hints, ", ") else AllMet
  }

  /** What the meter is meant to show: the empty password scores 0 with no label; any other
      scores one point per criterion met, is labelled by `strengthMap` and lists the missing
      criteria in their fixed order. */
  function StrengthOf(password: string): Strength {
    if password == "" then Strength(0, "", "", None)
    else
      var score := |Met(password)|;
      assert score <= |Criteria|;
      Strength(score, Labels[score].text, Labels[score].color, Some(FeedbackText(Hints(Missing(password)))))
  }

  /** The met or the missing criteria, criterion by criterion. */
  lemma CriteriaUnfold(password: string, met: bool)
    ensures Among(password, Criteria, met) ==
      Pick(password, MinLength, met) + Pick(password, Lowercase, met) + Pick(password, Uppercase, met)
      + Pick(password, Digit, met) + Pick(password, Special, met)
  {
    var s := Criteria;
    var p := password;
    assert Among(p, [Special], met) == Pick(p, Special, met) by {
      assert [Special][1..] == [];
      assert Pick(p, Special, met) + [] == Pick(p, Special, met);
    }
    assert Among(p, [Digit, Special], met) == Pick(p, Digit, met) + Among(p, [Special], met) by {
      assert [Digit, Special][1..] == [Special];
    }
    assert Among(p, [Uppercase, Digit, Special], met)
      == Pick(p, Uppercase, met) + Among(p, [Digit, Special], met) by {
      assert [Uppercase, Digit, Special][1..] == [Digit, Special];
    }
    assert Among(p, [Lowercase, Uppercase, Digit, Special], met)
      == Pick(p, Lowercase, met) + Among(p, [Uppercase, Digit, Special], met) by {
      assert [Lowercase, Uppercase, Digit, Special][1..] == [Uppercase, Digit, Special];
    }
    assert Among(p, s, met) == Pick(p, MinLength, met) + Among(p, [Lowercase, Uppercase, Digit, Special], met) by {
      assert s[1..] == [Lowercase, Uppercase, Digit, Special];
    }
    Regroup(Pick(p, MinLength, met), Pick(p, Lowercase, met), Pick(p, Uppercase, met),
            Pick(p, Digit, met), Pick(p, Special, met));
  }

  lemma Chain<T>(m0: seq<T>, m1: seq<T>, m2: seq<T>, m3: seq<T>, m4: seq<T>, m5: seq<T>,
                 a: seq<T>, b: seq<T>, c: seq<T>, d: seq<T>, e: seq<T>)
    requires m0 == [] && m1 == m0 + a && m2 == m1 + b && m3 == m2 + c && m4 == m3 + d && m5 == m4 + e
    ensures m5 == a + b + c + d + e
  {
    assert m1 == a;
  }

  lemma Regroup<T>(a: seq<T>, b: seq<T>, c: seq<T>, d: seq<T>, e: seq<T>)
    ensures a + (b + (c + (d + e))) == a + b + c + d + e
  {
  }

  /** Each criterion is either met or missing, so the two lists together have five entries. */
  lemma CriteriaCount(password: string)
    ensures |Met(password)| + |Missing(password)| == 5
  {
    CriteriaUnfold(password, true);
    CriteriaUnfold(password, false);
  }

  /** `getPasswordStrength(password)` */
  method PasswordStrength(password: string) returns (r: Strength)
    ensures r == StrengthOf(password)
  {
    if password == "" {
      return Strength(0, "", "", None);
    }
    var score := 0;
    var feedback: seq<string> := [];
    ghost var missed: seq<Criterion> := [];
    ghost var m0 := missed;
    if Length(password) >= 8 {
      score := score + 1;
      assert Pick(password, MinLength, false) == [];
    } else {
      HintsSnoc(missed, MinLength);
      feedback := feedback + [Hint(MinLength)];
      missed := missed + [MinLength];
      assert Pick(password, MinLength, false) == [MinLength];
    }
    assert missed == m0 + Pick(password, MinLength, false) && feedback == Hints(missed) && score + |missed| == 1;
    ghost var m1 := missed;
    if Meets(password, Lowercase) {
      score := score + 1;
      assert Pick(password, Lowercase, false) == [];
    } else {
      HintsSnoc(missed, Lowercase);
      feedback := feedback + [Hint(Lowercase)];
      missed := missed + [Lowercase];
      assert Pick(password, Lowercase, false) == [Lowercase];
    }
    assert missed == m1 + Pick(password, Lowercase, false) && feedback == Hints(missed) && score + |missed| == 2;
    ghost var m2 := missed;
    if Meets(password, Uppercase) {
      score := score + 1;
      assert Pick(password, Uppercase, false) == [];
    } else {
      HintsSnoc(missed, Uppercase);
      feedback := feedback + [Hint(Uppercase)];
      missed := missed + [Uppercase];
      assert Pick(password, Uppercase, false) == [Uppercase];
    }
    assert missed == m2 + Pick(password, Uppercase, false) && feedback == Hints(missed) && score + |missed| == 3;
    ghost var m3 := missed;
    if Meets(password, Digit) {
      score := score + 1;
      assert Pick(password, Digit, false) == [];
    } else {
      HintsSnoc(missed, Digit);
      feedback := feedback + [Hint(Digit)];
      missed := missed + [Digit];
      assert Pick(password, Digit, false) == [Digit];
    }
    assert missed == m3 + Pick(password, Digit, false) && feedback == Hints(missed) && score + |missed| == 4;
    ghost var m4 := missed;
    if Meets(password, Special) {
      score := score + 1;
      assert Pick(password, Special, false) == [];
    } else {
      HintsSnoc(missed, Special);
      feedback := feedback + [Hint(Special)];
      missed := missed + [Special];
      assert Pick(password, Special, false) == [Special];
    }
    assert missed == m4 + Pick(password, Special, false) && feedback == Hints(missed) && score + |missed| == 5;
    Chain(m0, m1, m2, m3, m4, missed, Pick(password, MinLength, false), Pick(password, Lowercase, false),
          Pick(password, Uppercase, false), Pick(password, Digit, false), Pick(password, Special, false));
    CriteriaUnfold(password, false);
    StrengthFromMissing(password, score, feedback, missed);
    r := Strength(score, Labels[score].text, Labels[score].color,
                  Some(if |feedback| > 0 then "Missing: " + Join(feedback, ", ") else AllMet));
  }

  /** The reading of a non-empty password, from its missing criteria. */
  lemma StrengthFromMissing(password: string, score: int, feedback: seq<string>, missed: seq<Criterion>)
    requires password != "" && missed == Missing(password) && feedback == Hints(missed)
    requires score + |missed| == 5
    ensures 0 <= score <= 5
    ensures StrengthOf(password) == Strength(score, Labels[score].text, Labels[score].color, Some(FeedbackText(feedback)))
  {
    CriteriaCount(password);
  }

  /** The score counts the criteria met: it is between 0 and 5, and every criterion is
      either counted or listed as missing. */
  lemma ScoreCountsCriteria(password: string)
    requires password != ""
    ensures var r := StrengthOf(password);
      0 <= r.score <= 5 && r.score + |Missing(password)| == 5
      && forall c :: c in Missing(password) <==> !Meets(password, c)
  {
    CriteriaCount(password);
    forall c
      ensures c in Missing(password) <==> !Meets(password, c)
    {
      AmongMembers(password, Criteria, false, c);
      EveryCriterion(c);
    }
  }

  lemma EveryCriterion(c: Criterion)
    ensures c in Criteria
  {
    match c
    case MinLength => assert Criteria[0] == c;
    case Lowercase => assert Criteria[1] == c;
    case Uppercase => assert Criteria[2] == c;
    case Digit => assert Criteria[3] == c;
    case Special => assert Criteria[4] == c;
  }

  lemma {:induction false} AmongMembers(password: string, cs: seq<Criterion>, met: bool, c: Criterion)
    ensures c in Among(password, cs, met) <==> c in cs && Meets(password, c) == met
  {
    if cs != [] {
      AmongMembers(password, cs[1..], met, c);
      assert cs == [cs[0]] + cs[1..];
    }
  }

  /** Any character meets one of the four character criteria, so a non-empty password
      scores at least 1: the "Very Weak" label is never shown. */
  lemma NonEmptyNeverVeryWeak(password: string)
    requires password != ""
    ensures StrengthOf(password).score >= 1
    ensures StrengthOf(password).text != "Very Weak"
  {
    var ch := password[0];
    var c := if IsLowerAscii(ch) then Lowercase else if IsUpperAscii(ch) then Uppercase
             else if IsDigit(ch) then Digit else Special;
    assert Meets(password, c);
    AmongMembers(password, Criteria, true, c);
    EveryCriterion(c);
    CriteriaCount(password);
  }

  /** "Great password!" and "Very Strong" go together, and mean every criterion is met. */
  lemma GreatIffAllMet(password: string)
    requires password != ""
    ensures StrengthOf(password).feedback == Some(AllMet) <==> forall c :: Meets(password, c)
    ensures StrengthOf(password).text == "Very Strong" <==> forall c :: Meets(password, c)
  {
    ScoreCountsCriteria(password);
    var hints := Hints(Missing(password));
    assert |hints| > 0 ==> FeedbackText(hints)[0] == 'M';
    var all := Meets(password, MinLength) && Meets(password, Lowercase) && Meets(password, Uppercase)
      && Meets(password, Digit) && Meets(password, Special);
    assert all <==> forall c :: Meets(password, c);
    assert all <==> Missing(password) == [] by {
      if Missing(password) != [] {
        assert Missing(password)[0] in Missing(password);
      }
    }
  }

  /** The strength bar's colour: red up to 1, yellow at 2, blue at 3, green above. */
  function BarColor(score: int): (r: string)
    ensures r == "bg-red-500" <==> score <= 1
    ensures r == "bg-green-500" <==> score >= 4
  {
    if score <= 1 then "bg-red-500"
    else if score <= 2 then "bg-yellow-500"
    else if score <= 3 then "bg-blue-500"
    else "bg-green-500"
  }

  // ---- the form ----------------------------------------------------------------------------

  datatype Field = CurrentPassword | NewPassword | ConfirmPassword

  datatype Passwords = Passwords(currentPassword: string, newPassword: string, confirmPassword: string)

  const BlankPasswords := Passwords("", "", "")

  function Get(f: Passwords, k: Field): string {
    match k
    case CurrentPassword => f.currentPassword
    case NewPassword => f.newPassword
    case ConfirmPassword => f.confirmPassword
  }

  /** `{ ...prev, [name]: value }` */
  function Set(f: Passwords, k: Field, v: string): (r: Passwords)
    ensures Get(r, k) == v
    ensures forall j :: j != k ==> Get(r, j) == Get(f, j)
  {
    match k
    case CurrentPassword => f.(currentPassword := v)
    case NewPassword => f.(newPassword := v)
    case ConfirmPassword => f.(confirmPassword := v)
  }

  /** The status message; an empty `text` shows nothing. */
  datatype Message = Message(kind: string, text: string)

  const NoMessage := Message("", "")

  const CurrentRequired := "Current password is required"
  const NewRequired := "New password is required"
  const NewTooShort := "New password must be at least 6 characters"
  const NewUnchanged := "New password must be different from current password"
  const ConfirmRequired := "Please confirm your new password"
  const Mismatch := "Passwords do not match"

  /** The error recorded for a field, if any: the first failing check of that field. */
  function ErrorOf(f: Passwords, k: Field): (r: Option<string>)
    ensures k == CurrentPassword ==> (r.Some? <==> Trim(f.currentPassword) == "")
    ensures k == NewPassword ==>
      (r == Some(NewRequired) <==> Trim(f.newPassword) == "")
      && (r == Some(NewTooShort) <==> Trim(f.newPassword) != "" && Length(f.newPassword) < 6)
      && (r == Some(NewUnchanged) <==>
            Trim(f.newPassword) != "" && Length(f.newPassword) >= 6 && f.newPassword == f.currentPassword)
      && (r.None? <==>
            Trim(f.newPassword) != "" && Length(f.newPassword) >= 6 && f.newPassword != f.currentPassword)
    ensures k == ConfirmPassword ==>
      (r == Some(ConfirmRequired) <==> Trim(f.confirmPassword) == "")
      && (r == Some(Mismatch) <==> Trim(f.confirmPassword) != "" && f.newPassword != f.confirmPassword)
      && (r.None? <==> Trim(f.confirmPassword) != "" && f.newPassword == f.confirmPassword)
  {
    match k
    case CurrentPassword => if Trim(f.currentPassword) == "" then Some(CurrentRequired) else None
    case NewPassword =>
      if Trim(f.newPassword) == "" then Some(NewRequired)
      else if Length(f.newPassword) < 6 then Some(NewTooShort)
      else if f.newPassword == f.currentPassword then Some(NewUnchanged)
      else None
    case ConfirmPassword =>
      if Trim(f.confirmPassword) == "" then Some(ConfirmRequired)
      else if f.newPassword != f.confirmPassword then Some(Mismatch)
      else None
  }

  /** The error map `validateForm` leaves: one entry per field that has an error. */
  predicate IsErrorMap(f: Passwords, m: map<Field, string>) {
    forall k :: Records(f, m, k)
  }

  /** The map holds the field's error exactly when it has one. */
  predicate Records(f: Passwords, m: map<Field, string>, k: Field) {
    (k in m <==> ErrorOf(f, k).Some?) && (k in m ==> m[k] == ErrorOf(f, k).value)
  }

  /** The form passes exactly when every field is filled in, the new password is at least
      6 UTF-16 code units long and differs from the current one, and the confirmation
      repeats it. */
  predicate Acceptable(f: Passwords) {
    Trim(f.currentPassword) != "" && Trim(f.newPassword) != "" && Length(f.newPassword) >= 6
    && f.newPassword != f.currentPassword && f.newPassword == f.confirmPassword
  }

  lemma AcceptedIffNoErrors(f: Passwords, m: map<Field, string>)
    requires IsErrorMap(f, m)
    ensures m == map[] <==> Acceptable(f)
  {
    var c := ErrorOf(f, CurrentPassword);
    var n := ErrorOf(f, NewPassword);
    var k := ErrorOf(f, ConfirmPassword);
    assert Records(f, m, CurrentPassword) && Records(f, m, NewPassword) && Records(f, m, ConfirmPassword);
    if m == map[] {
      assert CurrentPassword !in m && NewPassword !in m && ConfirmPassword !in m;
      assert Trim(f.confirmPassword) != "" by {
        assert k.None?;
      }
    }
    if Acceptable(f) {
      assert Trim(f.confirmPassword) != "" by {
        assert Trim(f.confirmPassword) == Trim(f.newPassword);
      }
      forall j
        ensures j !in m
      {
        assert Records(f, m, j);
      }
      assert m == map[];
    }
  }
  /** `length` counts UTF-16 code units: three emoji (six units) pass the minimum of 6 but
      not the meter's 8. */
  lemma EmojiPasswordLength()
    ensures ErrorOf(Passwords("secret", "\U{1F600}\U{1F600}\U{1F600}", ""), NewPassword).None?
    ensures !Meets("\U{1F600}\U{1F600}\U{1F600}", MinLength)
  {
    LengthOfEmoji();
    TrimUnchanged("\U{1F600}\U{1F600}\U{1F600}");
  }


  /** What the submit handler sent when it got past validation, or how the request ended. */
  datatype Body = Unreadable | Json(message: Option<string>)

  datatype Reply =
    | Accepted
    | Refused(status: int, body: Body)
    | NetworkFailure

  const Changed := Message("success", "Password changed successfully!")
  const WrongCurrent := Message("error", "Current password is incorrect")
  const NetworkError := Message("error", "Network error. Please try again.")
  const ChangeFailed := "Failed to change password"

  /** The status message a settled request leaves. A reply whose body cannot be read as JSON
      ends in the `catch` branch, like a network failure. */
  function MessageAfter(r: Reply): (m: Message)
    ensures m.text != ""
    ensures m.kind == "success" <==> r.Accepted?
  {
    match r
    case Accepted => Changed
    case NetworkFailure => NetworkError
    case Refused(status, body) =>
      match body
      case Unreadable => NetworkError
      case Json(message) =>
        if status == 401 then WrongCurrent else Message("error", OrElse(message, ChangeFailed))
  }

  class ChangePasswordForm {
    var form: Passwords
    var errors: map<Field, string>
    var message: Message
    var shown: set<Field>
    var loading: bool
    /** The `(currentPassword, newPassword)` bodies posted, in order. */
    var requests: seq<(string, string)>

    constructor ()
      ensures form == BlankPasswords && errors == map[] && message == NoMessage
      ensures shown == {} && !loading && requests == []
    {
      form := BlankPasswords;
      errors := map[];
      message := NoMessage;
      shown := {};
      loading := false;
      requests := [];
    }

    /** The strength reading the page renders for the new password. */
    function Meter(): Strength
      reads this
    {
      StrengthOf(form.newPassword)
    }

    /** `validateForm()`: records one error per failing field and reports whether there was
        none. */
    method ValidateForm() returns (ok: bool)
      modifies this
      ensures IsErrorMap(form, errors)
      ensures ok <==> Acceptable(form)
      ensures form == old(form) && message == old(message) && shown == old(shown)
      ensures loading == old(loading) && requests == old(requests)
    {
      var newErrors: map<Field, string> := map[];
      if Trim(form.currentPassword) == "" {
        newErrors := newErrors[CurrentPassword := CurrentRequired];
      }
      assert Records(form, newErrors, CurrentPassword) && newErrors.Keys <= {CurrentPassword};
      if Trim(form.newPassword) == "" {
        newErrors := newErrors[NewPassword := NewRequired];
      } else if Length(form.newPassword) < 6 {
        newErrors := newErrors[NewPassword := NewTooShort];
      } else if form.newPassword == form.currentPassword {
        newErrors := newErrors[NewPassword := NewUnchanged];
      }
      assert Records(form, newErrors, CurrentPassword) && Records(form, newErrors, NewPassword)
        && ConfirmPassword !in newErrors;
      if Trim(form.confirmPassword) == "" {
        newErrors := newErrors[ConfirmPassword := ConfirmRequired];
      } else if form.newPassword != form.confirmPassword {
        newErrors := newErrors[ConfirmPassword := Mismatch];
      }
      assert Records(form, newErrors, CurrentPassword) && Records(form, newErrors, NewPassword)
        && Records(form, newErrors, ConfirmPassword);
      errors := newErrors;
      assert IsErrorMap(form, errors) by {
        forall k
          ensures Records(form, errors, k)
        {
          match k
          case CurrentPassword =>
          case NewPassword =>
          case ConfirmPassword =>
        }
      }
      AcceptedIffNoErrors(form, errors);
      ok := |errors.Keys| == 0;
      assert ok <==> errors == map[] by {
        if errors != map[] {
          var k :| k in errors;
          assert k in errors.Keys;
        }
      }
    }

    /** `handleInputChange`: sets the field, blanks its error if one is showing, and clears a
        showing status message. */
    method InputChange(k: Field, value: string)
      modifies this
      ensures form == Set(old(form), k, value)
      ensures errors == if k in old(errors) && old(errors)[k] != "" then old(errors)[k := ""] else old(errors)
      ensures message == if old(message).text != "" then NoMessage else old(message)
      ensures shown == old(shown) && loading == old(loading) && requests == old(requests)
    {
      form := Set(form, k, value);
      if k in errors && errors[k] != "" {
        errors := errors[k := ""];
      }
      if message.text != "" {
        message := NoMessage;
      }
    }

    /** `togglePasswordVisibility(field)` */
    method ToggleVisibility(k: Field)
      modifies this
      ensures k in shown <==> k !in old(shown)
      ensures forall j :: j != k ==> (j in shown <==> j in old(shown))
      ensures form == old(form) && errors == old(errors) && message == old(message)
      ensures loading == old(loading) && requests == old(requests)
    {
      if k in shown {
        shown := shown - {k};
      } else {
        shown := shown + {k};
      }
    }

    /** The start of `handleSubmit`: validate, and post the two passwords only if the form
        passes. */
    method Submit() returns (sent: bool)
      modifies this
      ensures IsErrorMap(form, errors) && form == old(form) && shown == old(shown)
      ensures sent <==> Acceptable(old(form))
      ensures sent ==> loading && message == NoMessage
                       && requests == old(requests) + [(form.currentPassword, form.newPassword)]
      ensures !sent ==> loading == old(loading) && message == old(message) && requests == old(requests)
    {
      sent := ValidateForm();
      if !sent {
        return;
      }
      loading := true;
      message := NoMessage;
      requests := requests + [(form.currentPassword, form.newPassword)];
    }

    /** The end of `handleSubmit`: a success resets the form and hides every password. */
    method Settle(r: Reply)
      modifies this
      ensures message == MessageAfter(r) && !loading
      ensures r.Accepted? ==> form == BlankPasswords && shown == {}
      ensures !r.Accepted? ==> form == old(form) && shown == old(shown)
      ensures errors == old(errors) && requests == old(requests)
    {
      message := MessageAfter(r);
      if r.Accepted? {
        form := BlankPasswords;
        shown := {};
      }
      loading := false;
    }
  }

  /** Typing into a field clears only that field's error: the other errors stay as they
      were, and a field's error never becomes a different message. */
  lemma TypingClearsOnlyThatError(errors: map<Field, string>, k: Field, j: Field)
    requires j != k
    ensures var e := if k in errors && errors[k] != "" then errors[k := ""] else errors;
      (j in e <==> j in errors) && (j in e ==> e[j] == errors[j])
      && (k in e ==> e[k] == "" || e[k] == errors[k])
  {
  }
}
