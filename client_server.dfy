/**
 How the sign-up form's rules compare with the registration function's guards.
 The form never calls the function (its submission is simulated), so the two are
 compared on the record the form's values would make: the name and address as
 typed, the age as `parseInt` reads it, and the chosen lesson's title.
 */
module ClientServer {
  import opened Wrappers
  import opened JsText
  import opened EmailRule
  import opened SignUp
  import opened RegistrationEmail

  /** The age the form's text stands for: the number `parseInt` reads, if any. */
  function AgeNumber(age: string): Option<real> {
    match ParseInt(age)
    case None => None
    case Some(v) => Some(v as real)
  }

  /** The record the form's values would make for a lesson with the given title. */
  function RecordOf(f: FormData, lessonTitle: string): RegistrationRequest {
    RegistrationRequest(Some(f.fullName), AgeNumber(f.age), Some(f.email), Some(lessonTitle), None, None)
  }

  /** What the form lets through, the function accepts too, provided the name and
      the address are within the function's length limits and a lesson is chosen. */
  lemma FormAcceptedWithinLimitsIsServerAccepted(f: FormData, lessonTitle: string)
    requires Validate(f) == NoErrors
    requires |f.fullName| <= MaxNameLength && |f.email| <= MaxEmailLength && lessonTitle != ""
    ensures Accepted(RecordOf(f, lessonTitle))
    ensures FirstFailure(RecordOf(f, lessonTitle)).None?
  {
    ValidateMeaning(f);
    assert f.fullName != "" by {
      assert IsBlank("");
    }
    FirstFailureNoneIff(RecordOf(f, lessonTitle));
  }

  /** The length limits are the function's alone: any name the form accepts that is
      longer than 100 characters is answered "Input too long". */
  lemma LongNameOnlyServerRejects(f: FormData, lessonTitle: string)
    requires Validate(f) == NoErrors && |f.fullName| > MaxNameLength && lessonTitle != ""
    ensures FirstFailure(RecordOf(f, lessonTitle)) == Some(InputTooLong)
  {
    ValidateMeaning(f);
    EmailErrorIff(f.email);
    PatternIsNotBlank(f.email);
    assert f.email != "" by {
      assert IsBlank("");
    }
  }

  /** A name of 101 letters. */
  const LongName: string := seq(101, _ => 'a')

  /** Such a name exists: 101 letters, age 20 and "a@b.co" pass the form and are
      refused by the function. */
  lemma LongNameExample()
    ensures Validate(FormData(LongName, "20", "a@b.co")) == NoErrors
    ensures FirstFailure(RecordOf(FormData(LongName, "20", "a@b.co"), "Python Basics")) == Some(InputTooLong)
  {
    NameErrorIff(LongName);
    assert !IsSpace(LongName[0]);
    AgeVerdict(20, "");
    assert IntToString(20) + "" == "20";
    EmailAcceptedOrMissing();
    LongNameOnlyServerRejects(FormData(LongName, "20", "a@b.co"), "Python Basics");
  }

  /** Blank names go the other way: the function does not trim, so a name of
      spaces only, which the form refuses as missing, passes the function's guards
      when the rest of the form is acceptable. */
  lemma BlankNameOnlyFormRejects(f: FormData, lessonTitle: string)
    requires f.fullName != "" && IsBlank(f.fullName) && |f.fullName| <= MaxNameLength
    requires Validate(f).age == None && Validate(f).email == None
    requires |f.email| <= MaxEmailLength && lessonTitle != ""
    ensures Validate(f).fullName == Some(NameRequired)
    ensures FirstFailure(RecordOf(f, lessonTitle)).None?
  {
    ValidateMeaning(f);
    NameErrorIff(f.fullName);
    FirstFailureNoneIff(RecordOf(f, lessonTitle));
  }
}
