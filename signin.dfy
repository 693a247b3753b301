/** The popup's login form: the password-strength rule and the state the
    form's change and submit handlers update. */
module SignIn {
  import opened Protocol

  // ---------------------------------------------------------------------
  // The password rule
  // ---------------------------------------------------------------------

  /** `[a-z]`, `[A-Z]`, `\d` (ASCII digits only, the pattern has no `u`
      flag) and the symbol class `[@$!%*?&]`. */
  predicate IsLower(c: char) { 'a' <= c <= 'z' }
  predicate IsUpper(c: char) { 'A' <= c <= 'Z' }
  predicate IsDigit(c: char) { '0' <= c <= '9' }
  predicate IsSymbol(c: char) { c in "@$!%*?&" }

  /** The class `[A-Za-z\d@$!%*?&]` every character must belong to. */
  predicate IsAllowed(c: char) { IsLower(c) || IsUpper(c) || IsDigit(c) || IsSymbol(c) }

  /** The characters the regex `.` does not match. */
  predicate IsLineTerminator(c: char) {
    c == '\n' || c == '\r' || c == '\U{2028}' || c == '\U{2029}'
  }

  /** The lookahead `(?=.*[cls])` at the start of the input: some character
      of the class occurs with no line terminator before it. */
  predicate LookaheadFinds(s: string, cls: char -> bool) {
    exists i :: 0 <= i < |s| && cls(s[i]) && forall j :: 0 <= j < i ==> !IsLineTerminator(s[j])
  }

  /** `/^(?=.*[a-z])(?=.*[A-Z])(?=.*\d)(?=.*[@$!%*?&])[A-Za-z\d@$!%*?&]{8,}$/`
      read operator by operator: four lookaheads at position 0, then at
      least eight characters of the class running to the end of the input. */
  predicate MatchesPasswordPattern(s: string) {
    && LookaheadFinds(s, IsLower)
    && LookaheadFinds(s, IsUpper)
    && LookaheadFinds(s, IsDigit)
    && LookaheadFinds(s, IsSymbol)
    && |s| >= 8
    && forall i :: 0 <= i < |s| ==> IsAllowed(s[i])
  }

  /** The policy the form states to the user: at least eight characters, only
      letters, digits and `@$!%*?&`, and at least one of each of lowercase,
      uppercase, digit and symbol. */
  predicate MeetsPolicy(s: string) {
    && |s| >= 8
    && (forall i :: 0 <= i < |s| ==> IsAllowed(s[i]))
    && (exists i :: 0 <= i < |s| && IsLower(s[i]))
    && (exists i :: 0 <= i < |s| && IsUpper(s[i]))
    && (exists i :: 0 <= i < |s| && IsDigit(s[i]))
    && (exists i :: 0 <= i < |s| && IsSymbol(s[i]))
  }

  /** What one left-to-right pass over a string records. */
  datatype Census = Census(allAllowed: bool, lower: bool, upper: bool, digit: bool, symbol: bool)

  /** One pass over `s`, from the last character back. */
  function Tally(s: string): (c: Census)
    ensures c.allAllowed <==> forall i :: 0 <= i < |s| ==> IsAllowed(s[i])
    ensures c.lower <==> exists i :: 0 <= i < |s| && IsLower(s[i])
    ensures c.upper <==> exists i :: 0 <= i < |s| && IsUpper(s[i])
    ensures c.digit <==> exists i :: 0 <= i < |s| && IsDigit(s[i])
    ensures c.symbol <==> exists i :: 0 <= i < |s| && IsSymbol(s[i])
  {
    if s == [] then Census(true, false, false, false, false)
    else
      var rest := Tally(s[..|s| - 1]);
      var x := s[|s| - 1];
      assert forall i :: 0 <= i < |s| - 1 ==> s[..|s| - 1][i] == s[i];
      Census(rest.allAllowed && IsAllowed(x), rest.lower || IsLower(x), rest.upper || IsUpper(x),
             rest.digit || IsDigit(x), rest.symbol || IsSymbol(x))
  }

  /** `validatePassword`: the regex test, computed by one pass. */
  function ValidatePassword(password: string): (ok: bool)
  {
    var c := Tally(password);
    |password| >= 8 && c.allAllowed && c.lower && c.upper && c.digit && c.symbol
  }

  /** The one pass accepts exactly the strings the regex matches. */
  lemma ValidatePasswordMatchesPattern(s: string)
    ensures ValidatePassword(s) <==> MatchesPasswordPattern(s)
  {
    PatternFromPolicy(s);
  }

  /** The form accepts exactly the passwords meeting the policy it states. */
  lemma ValidatePasswordMeetsPolicy(s: string)
    ensures ValidatePassword(s) <==> MeetsPolicy(s)
  {
    PatternFromPolicy(s);
  }

  /** The pattern and the stated policy accept the same strings: the `.*`
      of the lookaheads never meets a line terminator, because every
      character is in the pattern's class. */
  lemma PatternFromPolicy(s: string)
    ensures MatchesPasswordPattern(s) <==> MeetsPolicy(s)
  {
    if MeetsPolicy(s) {
      assert forall j :: 0 <= j < |s| ==> !IsLineTerminator(s[j]) by {
        forall j | 0 <= j < |s| ensures !IsLineTerminator(s[j]) {
          assert IsAllowed(s[j]);
        }
      }
      LookaheadFromOccurrence(s, IsLower);
      LookaheadFromOccurrence(s, IsUpper);
      LookaheadFromOccurrence(s, IsDigit);
      LookaheadFromOccurrence(s, IsSymbol);
    }
  }

  /** With no line terminator anywhere, a lookahead succeeds exactly when
      some character of its class occurs. */
  lemma LookaheadFromOccurrence(s: string, cls: char -> bool)
    requires forall j :: 0 <= j < |s| ==> !IsLineTerminator(s[j])
    ensures LookaheadFinds(s, cls) <==> exists i :: 0 <= i < |s| && cls(s[i])
  {
  }

  /** A character outside the class rejects the password, whatever else it
      contains. */
  lemma ForeignCharacterRejected(s: string, k: nat)
    requires k < |s| && !IsAllowed(s[k])
    ensures !ValidatePassword(s)
  {
  }

  /** `"abc12345"` has no uppercase letter (and no symbol): rejected. */
  lemma LowercaseAndDigitsRejected()
    ensures !ValidatePassword("abc12345")
  {
    var s := "abc12345";
    assert forall i :: 0 <= i < |s| ==> !IsUpper(s[i]) by {
      forall i | 0 <= i < |s| ensures !IsUpper(s[i]) {
        assert s[i] in "abc12345";
      }
    }
  }

  /** `"Abc123!@"` has all four kinds and nothing else: accepted. */
  lemma MixedPasswordAccepted()
    ensures ValidatePassword("Abc123!@")
  {
    var s := "Abc123!@";
    assert IsUpper(s[0]) && IsLower(s[1]) && IsDigit(s[3]) && IsSymbol(s[6]);
    assert forall i :: 0 <= i < |s| ==> IsAllowed(s[i]) by {
      forall i | 0 <= i < |s| ensures IsAllowed(s[i]) {
        assert s[i] in "Abc123!@";
      }
    }
    PatternFromPolicy(s);
  }

  /** A space or a `#` rejects an otherwise strong password. */
  lemma SpaceAndHashRejected()
    ensures !ValidatePassword("Abc123!@ ")
    ensures !ValidatePassword("Abc123!#")
  {
    ForeignCharacterRejected("Abc123!@ ", 8);
    ForeignCharacterRejected("Abc123!#", 7);
  }

  // ---------------------------------------------------------------------
  // The form
  // ---------------------------------------------------------------------

  /** The error shown when the password fails the rule. */
  const WeakPasswordError :=
    "Minimum eight characters, at least one uppercase letter, one lowercase letter, one number and one special character (@$!%*?&) is required for password"
  /** The error shown when the reply carries no message. */
  const LoginFailedError := "Login failed. Please try again."
  /** The error shown when sending the message throws. */
  const UnexpectedError := "An unexpected error occurred. Please try again."

  /** The two inputs, by their `name` attribute. */
  datatype Field = EmailField | PasswordField

  /** The state of one `Login` component. */
  class LoginForm {
    var credentials: Credentials
    var loading: bool
    var error: string
    /** The runtime messages the form has sent, oldest first. */
    var sent: seq<Message>
    /** How many times `onLoginSuccess` has been called. */
    var successCalls: nat
    /** Whether the parent passed an `onLoginSuccess` callback. */
    const hasCallback: bool

    /** The state a freshly mounted form starts in. */
    constructor (hasCallback: bool)
      ensures this.hasCallback == hasCallback
      ensures credentials == Credentials("", "") && !loading && error == ""
      ensures sent == [] && successCalls == 0
    {
      this.hasCallback := hasCallback;
      credentials := Credentials("", "");
      loading := false;
      error := "";
      sent := [];
      successCalls := 0;
    }

    /** `handleChange`: set the named field, keep the other, and clear the
        error if one is shown. */
    method HandleChange(field: Field, value: string)
      modifies this`credentials, this`error
      ensures field == EmailField ==> credentials == old(credentials).(email := value)
      ensures field == PasswordField ==> credentials == old(credentials).(password := value)
      ensures error == ""
    {
      match field {
        case EmailField => credentials := credentials.(email := value);
        case PasswordField => credentials := credentials.(password := value);
      }
      if error != "" {
        error := "";
      }
    }

    /** `handleSubmit` up to the send: a password failing the rule shows the
        fixed error and sends nothing; otherwise `loading` is set, the error
        cleared and the `signIn` message sent. `sendThrows` tells whether
        `sendMessage` throws, which shows a fixed error and ends loading. */
    method HandleSubmit(sendThrows: bool)
      modifies this`loading, this`error, this`sent
      ensures !ValidatePassword(credentials.password) ==>
        error == WeakPasswordError && loading == old(loading) && sent == old(sent)
      ensures ValidatePassword(credentials.password) && !sendThrows ==>
        loading && error == "" && sent == old(sent) + [SignInMessage(credentials)]
      ensures ValidatePassword(credentials.password) && sendThrows ==>
        !loading && error == UnexpectedError && sent == old(sent)
    {
      if !ValidatePassword(credentials.password) {
        error := WeakPasswordError;
        return;
      }
      loading := true;
      error := "";
      if sendThrows {
        error := UnexpectedError;
        loading := false;
      } else {
        sent := sent + [SignInMessage(credentials)];
      }
    }

    /** The `sendMessage` callback: a reply with `success` calls
        `onLoginSuccess` when there is one; any other reply (or none) shows
        its non-empty `message`, or the fixed fallback. Loading ends either way. */
    method HandleReply(response: Option<SignInAnswer>)
      modifies this`loading, this`error, this`successCalls
      ensures !loading
      ensures response.Some? && response.value.success ==>
        error == old(error) && successCalls == old(successCalls) + (if hasCallback then 1 else 0)
      ensures !(response.Some? && response.value.success) ==> successCalls == old(successCalls)
      ensures !(response.Some? && response.value.success) && response.Some? && NonEmpty(response.value.message) ==>
        error == response.value.message.value
      ensures !(response.Some? && response.value.success) && !(response.Some? && NonEmpty(response.value.message)) ==>
        error == LoginFailedError
    {
      if response.Some? && response.value.success {
        if hasCallback {
          successCalls := successCalls + 1;
        }
      } else if response.Some? && NonEmpty(response.value.message) {
        error := response.value.message.value;
      } else {
        error := LoginFailedError;
      }
      loading := false;
    }
  }
}
