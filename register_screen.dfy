/** The registration screen: field validation, and the registration request it gates. */
module RegisterScreen {
  import opened Wrappers
  import opened JsonValues
  import opened Text
  import opened Navigation
  import opened Effects

  const PhoneRequired := "Phone number is required"
  const PhoneLength := "Phone number must be 10 digits"
  const EmailRequired := "Email is required"
  const EmailInvalid := "Please enter a valid email address"
  const PasswordRequired := "Password is required"
  const PasswordShort := "Password must be at least 6 characters"

  /** One optional message per field. */
  datatype RegisterErrors = RegisterErrors(phone: Option<string>, email: Option<string>, password: Option<string>)

  const NoErrors := RegisterErrors(None, None, None)

  /** `[^\s@]*`: no white space and no '@'. */
  predicate Unmarked(s: string) {
    forall i :: 0 <= i < |s| ==> !IsSpace(s[i]) && s[i] != '@'
  }

  /**
   * The literal reading of `/^[^\s@]+@[^\s@]+\.[^\s@]+$/`: a non-empty local
   * part, '@', a non-empty run, '.', a non-empty run, none of them containing
   * white space or '@'.
   */
  ghost predicate EmailPattern(e: string) {
    exists at, dot :: 0 < at && at + 1 < dot && dot + 1 < |e| && e[at] == '@' && e[dot] == '.'
      && Unmarked(e[..at]) && Unmarked(e[at + 1..dot]) && Unmarked(e[dot + 1..])
  }

  /**
   * The check as the screen applies it: no white space anywhere, exactly one
   * '@' and not first, and a '.' after it that is neither the first nor the
   * last character of the domain.
   */
  predicate EmailValid(e: string)
    ensures EmailValid(e) ==> |e| >= 5 && e[0] != '@' && e[|e| - 1] != '@' && '@' in e && '.' in e
  {
    && (forall k :: 0 <= k < |e| ==> !IsSpace(e[k]))
    && (exists at :: 0 < at < |e| && e[at] == '@'
          && (forall k :: 0 <= k < |e| && k != at ==> e[k] != '@')
          && (exists dot :: at + 1 < dot < |e| - 1 && e[dot] == '.'))
  }

  lemma EmailValidIffPattern(e: string)
    ensures EmailValid(e) <==> EmailPattern(e)
  {
    if EmailValid(e) {
      ValidHasPattern(e);
    }
    if EmailPattern(e) {
      PatternIsValid(e);
    }
  }

  lemma ValidHasPattern(e: string)
    requires EmailValid(e)
    ensures EmailPattern(e)
  {
    var at :| 0 < at < |e| && e[at] == '@'
      && (forall k :: 0 <= k < |e| && k != at ==> e[k] != '@')
      && (exists dot :: at + 1 < dot < |e| - 1 && e[dot] == '.');
    var dot :| at + 1 < dot < |e| - 1 && e[dot] == '.';
    UnmarkedSlice(e, at, 0, at);
    UnmarkedSlice(e, at, at + 1, dot);
    UnmarkedSlice(e, at, dot + 1, |e|);
  }

  /** A slice that avoids the '@' of a valid address is unmarked. */
  lemma UnmarkedSlice(e: string, at: nat, lo: nat, hi: nat)
    requires lo <= hi <= |e| && (at < lo || hi <= at)
    requires forall k :: 0 <= k < |e| ==> !IsSpace(e[k])
    requires forall k :: 0 <= k < |e| && k != at ==> e[k] != '@'
    ensures Unmarked(e[lo..hi])
  {
    forall i | 0 <= i < hi - lo
      ensures !IsSpace(e[lo..hi][i]) && e[lo..hi][i] != '@'
    {
      assert e[lo..hi][i] == e[lo + i];
    }
  }

  lemma PatternIsValid(e: string)
    requires EmailPattern(e)
    ensures EmailValid(e)
  {
    var at, dot :| 0 < at && at + 1 < dot && dot + 1 < |e| && e[at] == '@' && e[dot] == '.'
      && Unmarked(e[..at]) && Unmarked(e[at + 1..dot]) && Unmarked(e[dot + 1..]);
    forall k | 0 <= k < |e|
      ensures !IsSpace(e[k]) && (k != at ==> e[k] != '@')
    {
      if k < at {
        assert e[k] == e[..at][k];
      } else if at < k < dot {
        assert e[k] == e[at + 1..dot][k - at - 1];
      } else if dot < k {
        assert e[k] == e[dot + 1..][k - dot - 1];
      }
    }
  }

  /**
   * `validate`: each field collects at most one message, "required" before
   * the format rule; the form is valid exactly when no field has a message.
   */
  method Validate(phone: string, email: string, password: string) returns (valid: bool, errors: RegisterErrors)
    ensures (errors.phone == Some(PhoneRequired) <==> phone == "") && (errors.phone.None? <==> |phone| == 10)
    ensures errors.phone.Some? ==> errors.phone.value in {PhoneRequired, PhoneLength}
    ensures (errors.email == Some(EmailRequired) <==> email == "") && (errors.email.None? <==> EmailPattern(email))
    ensures errors.email.Some? ==> errors.email.value in {EmailRequired, EmailInvalid}
    ensures (errors.password == Some(PasswordRequired) <==> password == "")
    ensures errors.password.None? <==> |password| >= 6
    ensures errors.password.Some? ==> errors.password.value in {PasswordRequired, PasswordShort}
    ensures valid <==> errors == NoErrors
  {
    valid := true;
    var newErrors := NoErrors;

    if phone == "" {
      newErrors := newErrors.(phone := Some(PhoneRequired));
      valid := false;
    } else if |phone| != 10 {
      newErrors := newErrors.(phone := Some(PhoneLength));
      valid := false;
    }

    EmailValidIffPattern(email);
    if email == "" {
      newErrors := newErrors.(email := Some(EmailRequired));
      valid := false;
    } else if !EmailValid(email) {
      newErrors := newErrors.(email := Some(EmailInvalid));
      valid := false;
    }

    if password == "" {
      newErrors := newErrors.(password := Some(PasswordRequired));
      valid := false;
    } else if |password| < 6 {
      newErrors := newErrors.(password := Some(PasswordShort));
      valid := false;
    }

    errors := newErrors;
  }

  lemma EmailExamples()
    ensures EmailValid("a@b.co")
    ensures !EmailValid("a@b@c.de") && !EmailValid("a b@c.de") && !EmailValid("ab@.cd") && !EmailValid("ab@cd.")
  {
    assert "a@b.co"[1] == '@' && "a@b.co"[3] == '.';
    assert "a@b@c.de"[1] == '@' && "a@b@c.de"[3] == '@';
    assert IsSpace("a b@c.de"[1]);
    var e1 := "ab@.cd";
    assert forall k :: 0 <= k < |e1| && k != 2 ==> e1[k] != '@';
    var e2 := "ab@cd.";
    assert forall k :: 0 <= k < |e2| && k != 2 ==> e2[k] != '@';
  }

  const RegisteredAlert := ShowAlert("Success", Plain("OTP Sent successfully!"))
  const UnreachableAlert := ShowAlert("Error", Plain("Could not connect to server. Check your internet or tunnel URL."))

  class RegisterForm {
    var errors: RegisterErrors
    var isLoading: bool

    constructor ()
      ensures errors == NoErrors && !isLoading
    {
      errors := NoErrors;
      isLoading := false;
    }

    /** "Register", up to the request: an invalid form records its messages and sends nothing. */
    method BeginRegister(phone: string, email: string, password: string) returns (request: Option<Request>)
      modifies this`errors, this`isLoading
      ensures request.Some? <==> errors == NoErrors
      ensures request.Some? ==> request.value == RegisterRequest(email, phone, password) && isLoading
      ensures request.None? ==> isLoading == old(isLoading)
      ensures request.Some? <==> |phone| == 10 && EmailPattern(email) && |password| >= 6
    {
      var valid, found := Validate(phone, email, password);
      errors := found;
      if !valid {
        request := None;
        return;
      }
      isLoading := true;
      request := Some(RegisterRequest(email, phone, password));
    }

    /**
     * The registration response. A body that is not JSON is reported like a
     * network failure; success moves on to the OTP screen with the email.
     */
    method CompleteRegister(email: string, outcome: Response) returns (effects: seq<Effect>)
      modifies this`isLoading
      ensures !isLoading
      ensures outcome.NetworkError? || (outcome.Response? && outcome.body.Unparsed?) ==> effects == [UnreachableAlert]
      ensures outcome.Response? && outcome.body.Parsed? ==>
        effects == (if outcome.ok then [RegisteredAlert, Navigate(Otp, map["email" := email])]
                    else [ShowAlert("Registration Failed", JsonOf(outcome.body.value))])
    {
      match outcome {
        case NetworkError(_) =>
          effects := [UnreachableAlert];
        case Response(ok, _, _, body) =>
          if body.Unparsed? {
            effects := [UnreachableAlert];
          } else if ok {
            effects := [RegisteredAlert, Navigate(Otp, map["email" := email])];
          } else {
            effects := [ShowAlert("Registration Failed", JsonOf(body.value))];
          }
      }
      isLoading := false;
    }
  }
}
