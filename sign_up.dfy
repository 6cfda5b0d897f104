/**
 The sign-up modal: the three form fields and their rules, the batch validator,
 and the modal's state (form values, per-field errors, the submitting and
 success flags) with the handlers that change it.

 The submission is simulated: a 1.5 s wait, a log line, a success screen, and
 after 2.5 s more a reset that also closes the modal. The two waits are the
 steps `SubmitDelayElapses` and `SuccessTimerFires`; the log is the `log` field.
 */
module SignUp {
  import opened Wrappers
  import opened JsText
  import opened EmailRule
  import opened Lessons
  import Pages

  datatype FormData = FormData(fullName: string, age: string, email: string)

  /** The `name` attribute of an input: which field an edit is for. */
  datatype Field = FullName | Age | Email

  /** One optional message per field; `None` is an absent key or `undefined`. */
  datatype FormErrors = FormErrors(fullName: Option<string>, age: Option<string>, email: Option<string>)

  const EmptyForm := FormData("", "", "")
  const NoErrors := FormErrors(None, None, None)

  const NameRequired := "Full legal name is required"
  const AgeRequired := "Age is required"
  const AgeTooYoung := "You must be 14 or older to participate"
  const AgeInvalid := "Please enter a valid age"
  const EmailRequired := "Email is required"
  const EmailInvalid := "Please enter a valid email address"

  // ---------------------------------------------------------------- field rules

  /** The name is required, and only required: blank means missing, and there is no
      length limit on this side. */
  function NameError(fullName: string): Option<string> {
    if Trim(fullName) == "" then Some(NameRequired) else None
  }

  /** The name is rejected exactly when it is blank, and then as "required". */
  lemma NameErrorIff(fullName: string)
    ensures NameError(fullName).Some? <==> IsBlank(fullName)
    ensures NameError(fullName).Some? ==> NameError(fullName).value == NameRequired
  {
    TrimEmptyIffBlank(fullName);
  }

  /** The age text is acceptable when it is non-empty and `parseInt` reads a number
      from 14 to 100 from it. */
  ghost predicate AgeAccepted(age: string) {
    age != "" && ParseInt(age).Some? && 14 <= ParseInt(age).value <= 100
  }

  /** Empty text is "required"; no number or one below 14 is "too young"; above 100
      is "not a valid age". */
  function AgeError(age: string): (e: Option<string>)
    ensures e.None? <==> AgeAccepted(age)
    ensures e == Some(AgeRequired) <==> age == ""
    ensures e == Some(AgeTooYoung) <==> age != "" && (ParseInt(age).None? || ParseInt(age).value < 14)
    ensures e == Some(AgeInvalid) <==> age != "" && ParseInt(age).Some? && ParseInt(age).value > 100
  {
    if age == "" then Some(AgeRequired)
    else match ParseInt(age)
      case None => Some(AgeTooYoung)
      case Some(v) =>
        if v < 14 then Some(AgeTooYoung)
        else if v > 100 then Some(AgeInvalid)
        else None
  }

  /** Blank is "required"; otherwise the untrimmed text must match the e-mail pattern. */
  function EmailError(email: string): Option<string> {
    if Trim(email) == "" then Some(EmailRequired)
    else if !IsValidEmail(email) then Some(EmailInvalid)
    else None
  }

  /** The address is accepted exactly when it matches the pattern, and reported
      missing exactly when it is blank. */
  lemma EmailErrorIff(email: string)
    ensures EmailError(email).None? <==> MatchesPattern(email)
    ensures EmailError(email) == Some(EmailRequired) <==> IsBlank(email)
    ensures EmailError(email) == Some(EmailInvalid) <==> !IsBlank(email) && !MatchesPattern(email)
  {
    TrimEmptyIffBlank(email);
    IsValidEmailIffPattern(email);
    PatternIsNotBlank(email);
  }

  /** What the form accepts, field by field. */
  ghost predicate Acceptable(f: FormData) {
    !IsBlank(f.fullName) && AgeAccepted(f.age) && MatchesPattern(f.email)
  }

  /** `validateForm`'s verdict: every field judged on its own value alone, all
      messages at once, and no message at all exactly when the form is acceptable. */
  function Validate(f: FormData): FormErrors {
    FormErrors(NameError(f.fullName), AgeError(f.age), EmailError(f.email))
  }

  /** Each message depends on its own field alone, and there is no message at all
      exactly when the form is acceptable. */
  lemma ValidateMeaning(f: FormData)
    ensures Validate(f).fullName.Some? <==> IsBlank(f.fullName)
    ensures Validate(f).age.None? <==> AgeAccepted(f.age)
    ensures Validate(f).email.None? <==> MatchesPattern(f.email)
    ensures Validate(f) == NoErrors <==> Acceptable(f)
  {
    NameErrorIff(f.fullName);
    EmailErrorIff(f.email);
  }

  /** How the age rule judges the spelling of any integer, followed by anything that
      cannot continue it: below 14 too young, above 100 invalid, else accepted. */
  lemma AgeVerdict(n: int, rest: string)
    requires rest == [] || (!IsRadixDigit(rest[0], 10) && rest[0] != 'x' && rest[0] != 'X')
    ensures AgeError(IntToString(n) + rest)
         == if n < 14 then Some(AgeTooYoung) else if n > 100 then Some(AgeInvalid) else None
  {
    ParseIntOfDecimal(n, rest);
    assert (IntToString(n) + rest)[0] == IntToString(n)[0];
  }

  /** Age 13 is too young. */
  lemma AgeThirteenTooYoung()
    ensures AgeError("13") == Some(AgeTooYoung)
  {
    AgeVerdict(13, "");
    assert IntToString(13) + "" == "13";
  }

  /** Age 14 is the youngest accepted. */
  lemma AgeFourteenAccepted()
    ensures AgeError("14") == None
  {
    AgeVerdict(14, "");
    assert IntToString(14) + "" == "14";
  }

  /** Age 100 is the oldest accepted. */
  lemma AgeHundredAccepted()
    ensures AgeError("100") == None
  {
    AgeVerdict(100, "");
    assert IntToString(100) + "" == "100";
  }

  /** Age 101 is not a valid age. */
  lemma AgeHundredOneInvalid()
    ensures AgeError("101") == Some(AgeInvalid)
  {
    AgeVerdict(101, "");
    assert IntToString(101) + "" == "101";
  }

  /** Only a leading number is read: "15abc" is accepted as 15. */
  lemma AgeReadsLeadingNumber()
    ensures AgeError("15abc") == None
  {
    AgeVerdict(15, "abc");
    assert IntToString(15) + "abc" == "15abc";
  }

  /** Empty text is a missing age; a lone space is text, but no number. */
  lemma AgeMissingOrNotANumber()
    ensures AgeError("") == Some(AgeRequired)
    ensures AgeError(" ") == Some(AgeTooYoung)
  {
    assert IsBlank(" ");
  }

  /** "a@b.co" is a well-formed address; "" is a missing one. */
  lemma EmailAcceptedOrMissing()
    ensures EmailError("a@b.co") == None
    ensures EmailError("") == Some(EmailRequired)
  {
    DottedHostIsValid();
  }

  /** No `@` is malformed. */
  lemma EmailWithoutAt()
    ensures EmailError("abc") == Some(EmailInvalid)
  {
    MalformedExamples();
    assert !IsSpace("abc"[0]);
  }

  /** No dot after the `@` is malformed. */
  lemma EmailWithoutDot()
    ensures EmailError("a@b") == Some(EmailInvalid)
  {
    MalformedExamples();
    assert !IsSpace("a@b"[0]);
  }

  /** The pattern is tested on the untrimmed text: a leading space is malformed. */
  lemma EmailWithLeadingSpace()
    ensures EmailError(" a@b.co") == Some(EmailInvalid)
  {
    MalformedExamples();
    assert !IsSpace(" a@b.co"[1]);
  }

  /** Nothing stops at the first failure: an empty name, age 10 and "bad" give
      three messages, one per field. */
  lemma ThreeErrorsAtOnce()
    ensures Validate(FormData("", "10", "bad"))
         == FormErrors(Some(NameRequired), Some(AgeTooYoung), Some(EmailInvalid))
  {
    assert AgeError("10") == Some(AgeTooYoung) by {
      AgeVerdict(10, "");
      assert IntToString(10) + "" == "10";
    }
    assert EmailError("bad") == Some(EmailInvalid) by {
      assert FirstIndexOf("bad", '@') == None;
      assert !IsSpace("bad"[0]);
    }
  }

  // ---------------------------------------------------------------- form edits

  function Get(f: FormData, field: Field): string {
    match field
    case FullName => f.fullName
    case Age => f.age
    case Email => f.email
  }

  /** `{ ...prev, [name]: value }`: the named field takes the value, the others stay. */
  function WithField(f: FormData, field: Field, value: string): (g: FormData)
    ensures Get(g, field) == value
    ensures forall other: Field | other != field :: Get(g, other) == Get(f, other)
  {
    match field
    case FullName => f.(fullName := value)
    case Age => f.(age := value)
    case Email => f.(email := value)
  }

  function ErrorOf(e: FormErrors, field: Field): Option<string> {
    match field
    case FullName => e.fullName
    case Age => e.age
    case Email => e.email
  }

  /** `{ ...prev, [name]: undefined }`: the named message goes, the others stay. */
  function ClearError(e: FormErrors, field: Field): (e': FormErrors)
    ensures ErrorOf(e', field) == None
    ensures forall other: Field | other != field :: ErrorOf(e', other) == ErrorOf(e, other)
  {
    match field
    case FullName => e.(fullName := None)
    case Age => e.(age := None)
    case Email => e.(email := None)
  }

  /** JavaScript truthiness of an optional message: present and not empty. */
  predicate IsTruthy(m: Option<string>) {
    m.Some? && m.value != ""
  }

  // ---------------------------------------------------------------- the modal

  /** The values logged for a registration: the form and the lesson as they were
      when the submit handler started. */
  datatype Submission = Submission(form: FormData, lesson: Option<Lesson>)

  class SignUpModal {
    /** The page that renders the modal: its state is the `isOpen` and
        `selectedLesson` props, its `OnClose` the `onClose` prop. */
    const page: Pages.Index

    var formData: FormData
    var errors: FormErrors
    var isSubmitting: bool
    var isSuccess: bool
    /** The 1.5 s wait of a running submit handler, with the values it captured. */
    var awaiting: Option<Submission>
    /** Whether the 2.5 s reset timer is pending. */
    var resetTimerSet: bool
    /** Registrations written to the console, oldest first. */
    var log: seq<Submission>

    /** A wait runs exactly while submitting, the timer exactly while the success
        screen shows, never both; in either phase no error is shown; and only
        forms that passed validation are ever awaited or logged. */
    ghost predicate Valid()
      reads this
    {
      && (isSubmitting <==> awaiting.Some?)
      && (isSuccess <==> resetTimerSet)
      && !(isSubmitting && isSuccess)
      && (isSubmitting || isSuccess ==> errors == NoErrors)
      && (awaiting.Some? ==> Validate(awaiting.value.form) == NoErrors)
      && (forall i | 0 <= i < |log| :: Validate(log[i].form) == NoErrors)
    }

    constructor (page: Pages.Index)
      ensures Valid() && this.page == page
      ensures formData == EmptyForm && errors == NoErrors
      ensures !isSubmitting && !isSuccess && awaiting == None && !resetTimerSet && log == []
    {
      this.page := page;
      formData := EmptyForm;
      errors := NoErrors;
      isSubmitting := false;
      isSuccess := false;
      awaiting := None;
      resetTimerSet := false;
      log := [];
    }

    /** `validateForm`: builds the messages field by field, replaces `errors`
        wholesale with them, and answers whether there were none. */
    method ValidateForm() returns (ok: bool)
      modifies this`errors
      ensures errors == Validate(formData)
      ensures ok <==> errors == NoErrors
    {
      var newErrors := NoErrors;
      if Trim(formData.fullName) == "" {
        newErrors := newErrors.(fullName := Some(NameRequired));
      }
      var age := ParseInt(formData.age);
      if formData.age == "" {
        newErrors := newErrors.(age := Some(AgeRequired));
      } else if age.None? || age.value < 14 {
        newErrors := newErrors.(age := Some(AgeTooYoung));
      } else if age.value > 100 {
        newErrors := newErrors.(age := Some(AgeInvalid));
      }
      if Trim(formData.email) == "" {
        newErrors := newErrors.(email := Some(EmailRequired));
      } else if !IsValidEmail(formData.email) {
        newErrors := newErrors.(email := Some(EmailInvalid));
      }
      errors := newErrors;
      ok := newErrors == NoErrors;
    }

    /** `handleSubmit` up to its first wait: on a failed validation only the
        messages change; otherwise it starts submitting and captures the form and
        the page's selected lesson. */
    method HandleSubmit()
      requires Valid() && !isSubmitting && !isSuccess
      modifies this
      ensures Valid()
      ensures errors == Validate(formData)
      ensures formData == old(formData) && log == old(log)
      ensures !isSuccess && !resetTimerSet
      ensures isSubmitting <==> errors == NoErrors
      ensures awaiting == if errors == NoErrors then Some(Submission(formData, page.selectedLesson)) else None
    {
      var ok := ValidateForm();
      if !ok {
        return;
      }
      isSubmitting := true;
      awaiting := Some(Submission(formData, page.selectedLesson));
    }

    /** A press of the submit button (or Enter in the form). The form is on screen
        only while the modal is open and not showing success, and the button is
        disabled while submitting. The browser then checks the inputs' own
        constraints (`type="number"` with `min`/`max`, `type="email"`) and fires
        the submit event only when they hold; `constraintsMet` is that verdict,
        which the model takes as given. Only then does the press reach
        `handleSubmit`. */
    method PressSubmit(constraintsMet: bool) returns (handled: bool)
      requires Valid()
      modifies this
      ensures Valid()
      ensures handled <==> page.isSignUpModalOpen && !old(isSuccess) && !old(isSubmitting) && constraintsMet
      ensures !handled ==> errors == old(errors) && isSubmitting == old(isSubmitting) && awaiting == old(awaiting)
      ensures handled ==> errors == Validate(formData) && (isSubmitting <==> errors == NoErrors)
      ensures handled ==> awaiting == if errors == NoErrors then Some(Submission(formData, page.selectedLesson)) else None
      ensures formData == old(formData) && log == old(log) && isSuccess == old(isSuccess)
      ensures resetTimerSet == old(resetTimerSet)
    {
      handled := page.isSignUpModalOpen && !isSuccess && !isSubmitting && constraintsMet;
      if handled {
        HandleSubmit();
      }
    }

    /** The 1.5 s wait ends: the captured registration is logged, submitting stops
        and the success screen shows, with the reset timer set. */
    method SubmitDelayElapses()
      requires Valid() && isSubmitting
      modifies this
      ensures Valid()
      ensures log == old(log) + [old(awaiting).value]
      ensures !isSubmitting && awaiting == None && isSuccess && resetTimerSet
      ensures formData == old(formData) && errors == old(errors)
    {
      log := log + [awaiting.value];
      isSubmitting := false;
      awaiting := None;
      isSuccess := true;
      resetTimerSet := true;
    }

    /** The 2.5 s timer fires: the success screen goes, the three fields are
        emptied, and the page's `onClose` runs. Messages are left as they are. */
    method SuccessTimerFires()
      requires Valid() && resetTimerSet
      modifies this, page
      ensures Valid()
      ensures !isSuccess && !resetTimerSet && formData == EmptyForm
      ensures errors == old(errors) && log == old(log) && !isSubmitting && awaiting == None
      ensures !page.isSignUpModalOpen && page.selectedLesson == old(page.selectedLesson)
    {
      isSuccess := false;
      resetTimerSet := false;
      formData := EmptyForm;
      page.OnClose();
    }

    /** `handleChange`: the edited field takes the new text, the others keep theirs;
        that field's message is removed if one is showing, the others stay. */
    method HandleChange(field: Field, value: string)
      requires Valid()
      modifies this`formData, this`errors
      ensures Valid()
      ensures formData == WithField(old(formData), field, value)
      ensures errors == if IsTruthy(ErrorOf(old(errors), field)) then ClearError(old(errors), field) else old(errors)
    {
      formData := WithField(formData, field, value);
      if IsTruthy(ErrorOf(errors, field)) {
        errors := ClearError(errors, field);
      }
    }

    /** A click on the backdrop or the close button: only the page's `onClose`
        runs; the form, the messages and the flags are kept. */
    method Dismiss()
      modifies page`isSignUpModalOpen
      ensures !page.isSignUpModalOpen
    {
      page.OnClose();
    }
  }

  // ---------------------------------------------------------------- scenarios

  /** Two presses in quick succession on an acceptable form that the browser lets
      through: the second finds the button disabled, and exactly one registration
      is logged when the wait ends. */
  method DoubleSubmitLogsOnce(m: SignUpModal) returns (first: bool, second: bool)
    requires m.Valid() && m.page.isSignUpModalOpen && !m.isSubmitting && !m.isSuccess
    requires Validate(m.formData) == NoErrors
    modifies m
    ensures first && !second
    ensures m.log == old(m.log) + [Submission(old(m.formData), old(m.page.selectedLesson))]
  {
    first := m.PressSubmit(true);
    second := m.PressSubmit(true);
    m.SubmitDelayElapses();
  }

  /** A full registration the browser lets through: submit, wait, success screen,
      reset. The modal ends closed with an empty form and no messages, one
      registration logged. */
  method CompleteRegistration(m: SignUpModal)
    requires m.Valid() && m.page.isSignUpModalOpen && !m.isSubmitting && !m.isSuccess
    requires Validate(m.formData) == NoErrors
    modifies m, m.page
    ensures m.Valid() && !m.page.isSignUpModalOpen
    ensures m.formData == EmptyForm && m.errors == NoErrors && !m.isSubmitting && !m.isSuccess
    ensures m.log == old(m.log) + [Submission(old(m.formData), old(m.page.selectedLesson))]
  {
    var handled := m.PressSubmit(true);
    m.SubmitDelayElapses();
    m.SuccessTimerFires();
  }

  /** The reset timer is not cancelled by a manual close: closing the success
      screen and opening the modal again before it fires still ends with the modal
      closed by the timer. */
  method StaleResetClosesReopenedModal(m: SignUpModal)
    requires m.Valid() && m.isSuccess
    modifies m, m.page
    ensures !m.page.isSignUpModalOpen && m.formData == EmptyForm
  {
    m.Dismiss();
    m.page.HandleSignUpClick();
    assert m.page.isSignUpModalOpen;
    m.SuccessTimerFires();
  }
}
