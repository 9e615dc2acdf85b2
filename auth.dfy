/** The sign-in / sign-up form and the checks its submit makes. */
module Auth {
  import opened Wrappers
  import opened Text

  const MinimumAge := 18

  datatype FormData = FormData(email: string, password: string, name: string, age: string)

  /** The toast a submit shows: one of two refusals, or one of two welcomes. */
  datatype SubmitOutcome = AgeVerificationRequired | AgeRestriction | WelcomeBack | AccountCreated

  /** `parseInt(age) < 18`; `NaN` (`None`) compares false. */
  predicate Underage(parsed: Option<int>) {
    parsed.Some? && parsed.value < MinimumAge
  }

  class AuthForm {
    var isLogin: bool
    var isOver18: bool
    var formData: FormData

    constructor ()
      ensures isLogin && !isOver18 && formData == FormData("", "", "", "")
    {
      isLogin := true;
      isOver18 := false;
      formData := FormData("", "", "", "");
    }

    method SetName(value: string)
      modifies this
      ensures formData == old(formData).(name := value)
      ensures isLogin == old(isLogin) && isOver18 == old(isOver18)
    {
      formData := formData.(name := value);
    }

    method SetAge(value: string)
      modifies this
      ensures formData == old(formData).(age := value)
      ensures isLogin == old(isLogin) && isOver18 == old(isOver18)
    {
      formData := formData.(age := value);
    }

    method SetEmail(value: string)
      modifies this
      ensures formData == old(formData).(email := value)
      ensures isLogin == old(isLogin) && isOver18 == old(isOver18)
    {
      formData := formData.(email := value);
    }

    method SetPassword(value: string)
      modifies this
      ensures formData == old(formData).(password := value)
      ensures isLogin == old(isLogin) && isOver18 == old(isOver18)
    {
      formData := formData.(password := value);
    }

    /** Ticking or clearing the "18 years or older" box. */
    method SetOver18(checked: bool)
      modifies this
      ensures isOver18 == checked
      ensures isLogin == old(isLogin) && formData == old(formData)
    {
      isOver18 := checked;
    }

    /** The link that switches between signing in and signing up. */
    method ToggleMode()
      modifies this
      ensures isLogin == !old(isLogin)
      ensures isOver18 == old(isOver18) && formData == old(formData)
    {
      isLogin := !isLogin;
    }

    /**
     * `handleSubmit`. Signing in is never refused. Signing up is refused
     * first when the box is not ticked, whatever the age; then when the age
     * parses to a number below 18 (an age that does not parse passes).
     * It changes no field of the form.
     */
    method HandleSubmit() returns (outcome: SubmitOutcome)
      ensures outcome == WelcomeBack <==> isLogin
      ensures outcome == AgeVerificationRequired <==> !isLogin && !isOver18
      ensures outcome == AgeRestriction <==> !isLogin && isOver18 && Underage(ParseInt(formData.age))
      ensures outcome == AccountCreated <==> !isLogin && isOver18 && !Underage(ParseInt(formData.age))
    {
      if !isLogin && !isOver18 {
        return AgeVerificationRequired;
      }
      var age := ParseInt(formData.age);
      if !isLogin && age.Some? && age.value < 18 {
        return AgeRestriction;
      }
      outcome := if isLogin then WelcomeBack else AccountCreated;
    }
  }

  /** Signing up with the box ticked and a typed age succeeds exactly from 18 on. */
  lemma TypedAgeDecides(age: int)
    ensures Underage(ParseInt(FormatInt(age))) <==> age < MinimumAge
  {
    ParseIntFormatInt(age);
  }

  /** An empty age field does not trigger the age refusal. */
  lemma BlankAgePasses(age: string)
    requires AllWhitespace(age)
    ensures !Underage(ParseInt(age))
  {
    ParseIntBlank(age);
  }
}
