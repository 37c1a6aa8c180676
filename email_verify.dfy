/**
 * The email verification of the checkout form
 * (src/app/checkout/EmailVerify.tsx): a state machine over `status`, `code`
 * and `attempts`. A captcha precedes the code mail; the server may accept
 * the address at once; ten failed codes start over.
 */
module EmailVerify {
  import opened Strings

  const MAX_ATTEMPTS: nat := 10
  const CODE_LENGTH: nat := 6

  datatype Status = Idle | Turnstile | Code | Valid

  /** The requests the component sends, in order. */
  datatype EmailRequest =
    | SendCode(email: string, token: string)
    | VerifyCode(email: string, code: string)

  /** The reply read as `resp?.state`: a state (`null` reads as none of them) or a thrown error. */
  datatype EmailReply = State(state: string) | NoReply | Threw

  /** `resp?.state === s`. */
  predicate StateIs(reply: EmailReply, s: string) {
    reply.State? && reply.state == s
  }

  /** The status a captcha reply leads to. */
  function AfterCaptcha(reply: EmailReply): (s: Status)
    ensures s == Valid <==> StateIs(reply, "valid")
    ensures s == Code <==> StateIs(reply, "sent")
    ensures s == Idle <==> !StateIs(reply, "valid") && !StateIs(reply, "sent")
  {
    if StateIs(reply, "valid") then Valid
    else if StateIs(reply, "sent") then Code
    else Idle
  }

  /** The code input's filter: `value.replace(/\D/g, '').slice(0, 6)`. */
  function CodeInput(value: string): (code: string)
    ensures |code| <= CODE_LENGTH && forall i | 0 <= i < |code| :: IsDigit(code[i])
  {
    Take(KeepDigits(value), CODE_LENGTH)
  }

  /** A code the filter produced passes it again unchanged. */
  lemma CodeInputIdempotent(value: string)
    ensures CodeInput(CodeInput(value)) == CodeInput(value)
  {
    KeepDigitsOfDigits(CodeInput(value));
  }

  /** Up to six digits pass the filter unchanged, and nothing else does. */
  lemma CodeInputFixed(value: string)
    ensures CodeInput(value) == value <==> |value| <= CODE_LENGTH && forall i | 0 <= i < |value| :: IsDigit(value[i])
  {
    if |value| <= CODE_LENGTH && forall i | 0 <= i < |value| :: IsDigit(value[i]) {
      KeepDigitsOfDigits(value);
    }
  }

  class EmailVerifier {
    /** The `email` prop. */
    var email: string
    var status: Status
    var code: string
    var attempts: nat
    /** The last value passed to `setEmailVerified`. */
    var emailVerified: bool
    var prevEmail: string
    var fromInput: bool
    var requests: seq<EmailRequest>
    /** How often `onClearError('email')` was called. */
    var errorClears: nat

    ghost predicate Inv()
      reads this
    {
      attempts < MAX_ATTEMPTS
    }

    /** The first render: its effects see an empty address and reset everything. */
    constructor ()
      ensures Inv()
      ensures email == "" && status == Idle && code == "" && attempts == 0 && !emailVerified
      ensures prevEmail == "" && !fromInput && requests == [] && errorClears == 0
    {
      email := "";
      status := Idle;
      code := "";
      attempts := 0;
      emailVerified := false;
      prevEmail := "";
      fromInput := false;
      requests := [];
      errorClears := 0;
    }

    /**
     * The two effects on `[email]`: everything is reset, and an address that
     * arrives from outside the input into an empty field, while the status
     * of the render was idle, starts the captcha at once.
     */
    method EmailEffects(renderStatus: Status)
      requires Inv()
      modifies this
      ensures Inv()
      ensures var autoSend := old(email) != "" && old(prevEmail) == "" && !old(fromInput) && renderStatus == Idle;
        status == (if autoSend then Turnstile else Idle)
      ensures code == "" && attempts == 0 && !emailVerified && prevEmail == email && !fromInput
      ensures email == old(email) && requests == old(requests) && errorClears == old(errorClears)
    {
      status := Idle;
      code := "";
      attempts := 0;
      emailVerified := false;
      if email != "" && prevEmail == "" && !fromInput && renderStatus == Idle {
        SendCodeClicked();
      }
      prevEmail := email;
      fromInput := false;
    }

    /** A new `email` prop set by the form (a profile fill, say); the same value runs no effect. */
    method EmailPropChanged(value: string)
      requires Inv()
      modifies this
      ensures Inv()
      ensures value == old(email) ==>
        status == old(status) && code == old(code) && attempts == old(attempts) && emailVerified == old(emailVerified)
      ensures value != old(email) ==>
        email == value && code == "" && attempts == 0 && !emailVerified && !fromInput &&
        status == (if value != "" && old(prevEmail) == "" && !old(fromInput) && old(status) == Idle then Turnstile else Idle)
      ensures requests == old(requests)
    {
      if value != email {
        email := value;
        EmailEffects(status);
      }
    }

    /**
     * The input's `onChange`: the form takes the new address, the status,
     * code and attempts are reset, the address counts as unverified and its
     * error is cleared; the effects that follow send nothing.
     */
    method EmailTyped(value: string)
      requires Inv()
      modifies this
      ensures Inv()
      ensures email == value && status == Idle && code == "" && attempts == 0 && !emailVerified
      ensures value != old(email) ==> prevEmail == value && !fromInput
      ensures requests == old(requests) && errorClears == old(errorClears) + 1
    {
      fromInput := true;
      var changed := value != email;
      email := value;
      status := Idle;
      code := "";
      attempts := 0;
      emailVerified := false;
      errorClears := errorClears + 1;
      if changed {
        EmailEffects(Idle);
      }
    }

    /** The send button is enabled: not in the captcha step, with an address. */
    predicate SendCodeEnabled()
      reads this
    {
      status != Turnstile && email != ""
    }

    /** `handleSendCode`: without an address nothing happens, otherwise the captcha is shown. */
    method SendCodeClicked()
      modifies this
      ensures email == "" ==> status == old(status)
      ensures email != "" ==> status == Turnstile
      ensures email == old(email) && code == old(code) && attempts == old(attempts) && emailVerified == old(emailVerified)
      ensures requests == old(requests) && prevEmail == old(prevEmail) && fromInput == old(fromInput)
      ensures errorClears == old(errorClears)
    {
      if email == "" {
        return;
      }
      status := Turnstile;
    }

    /** `checkEmail()` from the form: back to idle, then the send step for an address. */
    method CheckEmail()
      requires Inv()
      modifies this
      ensures Inv()
      ensures status == (if email != "" then Turnstile else Idle)
      ensures email == old(email) && code == old(code) && attempts == old(attempts) && requests == old(requests)
      ensures emailVerified == old(emailVerified)
    {
      status := Idle;
      SendCodeClicked();
    }

    /**
     * `handleTurnstileVerify(token)`: the address goes with the token. A
     * `valid` reply verifies it at once, `sent` asks for the code, anything
     * else (a missing reply or a thrown error included) goes back to idle.
     */
    method TurnstileVerified(token: string, reply: EmailReply)
      requires Inv()
      modifies this
      ensures Inv()
      ensures requests == old(requests) + [SendCode(email, token)]
      ensures status == AfterCaptcha(reply)
      ensures emailVerified == (StateIs(reply, "valid") || old(emailVerified))
      ensures email == old(email) && code == old(code) && attempts == old(attempts)
    {
      requests := requests + [SendCode(email, token)];
      status := AfterCaptcha(reply);
      if status == Valid {
        emailVerified := true;
      }
    }

    /** The verify button is enabled: exactly six digits entered. */
    predicate VerifyEnabled()
      reads this
    {
      |code| == CODE_LENGTH
    }

    /** The code field's `onChange`. */
    method CodeTyped(value: string)
      requires Inv()
      modifies this
      ensures Inv()
      ensures code == CodeInput(value)
      ensures email == old(email) && status == old(status) && attempts == old(attempts) && requests == old(requests)
    {
      code := CodeInput(value);
    }

    /**
     * `handleCodeVerify`: without an address or a code nothing happens.
     * Otherwise a `valid` reply verifies the address; any other reply or an
     * error counts an attempt, and the tenth resets to idle with no attempts.
     * The code is cleared either way.
     */
    method CodeVerifyClicked(reply: EmailReply)
      requires Inv()
      modifies this
      ensures Inv()
      ensures email == "" || old(code) == "" ==>
        requests == old(requests) && status == old(status) && code == old(code) && attempts == old(attempts) &&
        emailVerified == old(emailVerified)
      ensures email != "" && old(code) != "" ==> requests == old(requests) + [VerifyCode(email, old(code))] && code == ""
      ensures email != "" && old(code) != "" && StateIs(reply, "valid") ==>
        status == Valid && emailVerified && attempts == old(attempts)
      ensures email != "" && old(code) != "" && !StateIs(reply, "valid") ==>
        (old(attempts) + 1 >= MAX_ATTEMPTS ==> status == Idle && attempts == 0) &&
        (old(attempts) + 1 < MAX_ATTEMPTS ==> status == old(status) && attempts == old(attempts) + 1) &&
        emailVerified == old(emailVerified)
      ensures email == old(email)
    {
      if email == "" || code == "" {
        return;
      }
      requests := requests + [VerifyCode(email, code)];
      if StateIs(reply, "valid") {
        status := Valid;
        emailVerified := true;
        code := "";
      } else {
        var newAttempts := attempts + 1;
        attempts := newAttempts;
        code := "";
        if newAttempts >= MAX_ATTEMPTS {
          status := Idle;
          attempts := 0;
        }
      }
    }
  }
}
