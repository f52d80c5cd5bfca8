/**
 * The reset-password page: the requirement flags of the new password, the
 * list of unmet requirements that blocks submission, the submit guards, the
 * request it sends and the message it shows. The route's user id and token
 * and the server's answer are parameters; the two-second redirect to the
 * login page is a flag.
 *
 * The page's effect builds the list of unmet requirements from the flags
 * held before the password changed, not the ones it has just computed, so
 * the list describes the previous password. `HandlePasswordChangeAsWritten`
 * models that; `HandlePasswordChange` builds the list from the new flags
 * and keeps the page consistent.
 */
module ResetPassword {
  import opened Wrappers
  import opened Js

  /** The three requirement flags. */
  datatype Flags = Flags(length: bool, capital: bool, number: bool)

  const NoFlags: Flags := Flags(false, false, false)

  predicate HasCapital(p: string)
  {
    exists i :: 0 <= i < |p| && 'A' <= p[i] <= 'Z'
  }

  predicate HasDigit(p: string)
  {
    exists i :: 0 <= i < |p| && '0' <= p[i] <= '9'
  }

  /**
   * The flags of a password: at least 8 UTF-16 code units (what `.length`
   * counts), a letter A-Z, a digit 0-9. Nothing asks for a lower-case letter.
   */
  function FlagsOf(p: string): (r: Flags)
    ensures r.length <==> Utf16Length(p) >= 8
    ensures r.capital <==> HasCapital(p)
    ensures r.number <==> HasDigit(p)
  {
    Flags(Utf16Length(p) >= 8, HasCapital(p), HasDigit(p))
  }

  /** Six characters of which three are emoji make nine code units, which meets the length requirement. */
  lemma AstralPasswordMeetsLength()
    ensures var p := "aB1\U{1F600}\U{1F600}\U{1F600}"; |p| == 6 && FlagsOf(p).length
  {
  }

  /** A password that meets all three requirements. */
  predicate Strong(p: string)
  {
    FlagsOf(p) == Flags(true, true, true)
  }

  /** An upper-case-only password can meet every requirement. */
  lemma NoLowerCaseRequired()
    ensures Strong("ABCDEFG1")
  {
    assert "ABCDEFG1"[0] == 'A';
    assert "ABCDEFG1"[7] == '1';
  }

  /** A requirement, as the error list names it. */
  datatype Requirement = Length | Capital | Number

  /**
   * The error list for a password and a set of flags: each unset flag's
   * requirement, in the order length, capital, number, and none for an
   * empty password.
   */
  function ErrorsFrom(p: string, f: Flags): (r: seq<Requirement>)
    ensures Length in r <==> p != "" && !f.length
    ensures Capital in r <==> p != "" && !f.capital
    ensures Number in r <==> p != "" && !f.number
    ensures |r| <= 3
  {
    if p == "" then []
    else (if f.length then [] else [Length]) + (if f.capital then [] else [Capital])
         + (if f.number then [] else [Number])
  }

  /** With the password's own flags the list is empty exactly for an empty or a strong password. */
  lemma ErrorsEmptyIff(p: string)
    ensures ErrorsFrom(p, FlagsOf(p)) == [] <==> p == "" || Strong(p)
  {
    var r := ErrorsFrom(p, FlagsOf(p));
    if r == [] && p != "" {
      assert Length !in r && Capital !in r && Number !in r;
    }
  }

  /** The button is disabled while loading, with errors, on a mismatch or with an empty password. */
  predicate DisabledFor(loading: bool, errors: seq<Requirement>, newPassword: string, confirmPassword: string)
  {
    loading || |errors| > 0 || newPassword != confirmPassword || newPassword == ""
  }

  /** With the list built from the password's own flags, an enabled button means a strong, confirmed password. */
  lemma EnabledMeansStrong(loading: bool, newPassword: string, confirmPassword: string)
    ensures !DisabledFor(loading, ErrorsFrom(newPassword, FlagsOf(newPassword)), newPassword, confirmPassword)
      <==> !loading && Strong(newPassword) && newPassword == confirmPassword
  {
    ErrorsEmptyIff(newPassword);
    assert Strong(newPassword) ==> newPassword != "";
  }

  /**
   * With the list built from the previous password's flags, deleting the
   * last character of "Abcdefg1" leaves an empty list: the button is enabled
   * for the matching seven-character password "Abcdefg", which is not
   * strong.
   */
  lemma StaleFlagsAdmitShortPassword()
    ensures var before := "Abcdefg1";
      var after := "Abcdefg";
      Strong(before) && !Strong(after)
      && ErrorsFrom(after, FlagsOf(before)) == []
      && !DisabledFor(false, ErrorsFrom(after, FlagsOf(before)), after, after)
  {
    assert "Abcdefg1"[0] == 'A';
    assert "Abcdefg1"[7] == '1';
  }

  /** The mismatch hint shows only when both fields are filled and differ. */
  predicate MismatchHint(newPassword: string, confirmPassword: string)
  {
    newPassword != "" && confirmPassword != "" && newPassword != confirmPassword
  }

  /** An enabled button never comes with the mismatch hint. */
  lemma EnabledHasNoHint(loading: bool, errors: seq<Requirement>, newPassword: string, confirmPassword: string)
    ensures !DisabledFor(loading, errors, newPassword, confirmPassword) ==> !MismatchHint(newPassword, confirmPassword)
    ensures MismatchHint(newPassword, confirmPassword) ==> DisabledFor(loading, errors, newPassword, confirmPassword)
  {
  }

  /** The body of the reset request. */
  datatype ResetBody = ResetBody(userId: Option<string>, token: Option<string>, newPassword: string)

  /** The server's answer: a status and the message of its JSON, or a failure of the call or of reading JSON. */
  datatype Reply = Answered(ok: bool, message: Option<string>) | CallFailed

  const Mismatch: string := "Passwords don't match"
  const ResetDone: string := "Password reset successful!"
  const ResetRefused: string := "Failed to reset password"
  const ResetError: string := "An error occurred. Please try again."

  /** The message a reply shows, and whether the page goes back to login. */
  function ReplyOutcome(reply: Reply): (r: (string, bool))
    ensures r.1 <==> reply.Answered? && reply.ok
    ensures reply.Answered? && reply.ok ==> r.0 == TextOr(reply.message, ResetDone)
    ensures reply.Answered? && !reply.ok ==> r.0 == TextOr(reply.message, ResetRefused)
    ensures reply.CallFailed? ==> r.0 == ResetError
  {
    match reply
    case Answered(ok, message) => if ok then (TextOr(message, ResetDone), true) else (TextOr(message, ResetRefused), false)
    case CallFailed => (ResetError, false)
  }

  /** The page's state. */
  class ResetPasswordPage {
    var newPassword: string
    var confirmPassword: string
    var message: string
    var loading: bool
    var showPassword: bool
    var validationErrors: seq<Requirement>
    var validations: Flags
    var redirecting: bool

    /** The flags and the error list describe the current password. */
    predicate Consistent()
      reads this
    {
      validations == FlagsOf(newPassword) && validationErrors == ErrorsFrom(newPassword, validations)
    }

    /** The useState initial values, which already agree with the empty password. */
    constructor ()
      ensures newPassword == "" && confirmPassword == "" && message == "" && !loading && !showPassword
      ensures validationErrors == [] && validations == NoFlags && !redirecting
      ensures Consistent()
    {
      newPassword, confirmPassword, message, loading := "", "", "", false;
      showPassword, validationErrors, validations, redirecting := false, [], NoFlags, false;
    }

    method TogglePasswordVisibility()
      modifies this`showPassword
      ensures showPassword == !old(showPassword)
    {
      showPassword := !showPassword;
    }

    method SetConfirmPassword(text: string)
      modifies this`confirmPassword
      ensures confirmPassword == text
    {
      confirmPassword := text;
    }

    /**
     * A change of the password as the page does it: the new flags are
     * stored, but the error list is built from the flags held before.
     */
    method HandlePasswordChangeAsWritten(text: string)
      modifies this`newPassword, this`validations, this`validationErrors
      ensures newPassword == text
      ensures text != old(newPassword) ==>
        validations == FlagsOf(text) && validationErrors == ErrorsFrom(text, old(validations))
      ensures text == old(newPassword) ==>
        validations == old(validations) && validationErrors == old(validationErrors)
    {
      if text != newPassword {
        var errors := ErrorsFrom(text, validations);
        newPassword := text;
        validations := FlagsOf(text);
        validationErrors := errors;
      }
    }

    /**
     * A change of the password with the error list built from the flags
     * just computed: the page stays consistent.
     */
    method HandlePasswordChange(text: string)
      requires Consistent()
      modifies this`newPassword, this`validations, this`validationErrors
      ensures newPassword == text && Consistent()
    {
      if text != newPassword {
        newPassword := text;
        validations := FlagsOf(text);
        validationErrors := ErrorsFrom(text, validations);
      }
    }

    /** The submit button's disabled state. */
    predicate Disabled()
      reads this
    {
      DisabledFor(loading, validationErrors, newPassword, confirmPassword)
    }

    /**
     * handleSubmit: with unmet requirements listed nothing happens; with a
     * mismatch only the mismatch message shows; otherwise the request is
     * sent and the reply decides the message and the redirect. Loading is
     * off afterwards.
     */
    method HandleSubmit(userId: Option<string>, token: Option<string>, reply: Reply) returns (sent: Option<ResetBody>)
      modifies this`message, this`loading, this`redirecting
      ensures |validationErrors| > 0 ==>
        sent.None? && message == old(message) && redirecting == old(redirecting) && loading == old(loading)
      ensures |validationErrors| == 0 && newPassword != confirmPassword ==>
        sent.None? && message == Mismatch && redirecting == old(redirecting) && loading == old(loading)
      ensures sent.Some? <==> |validationErrors| == 0 && newPassword == confirmPassword
      ensures sent.Some? ==> sent.value == ResetBody(userId, token, newPassword)
      ensures sent.Some? ==> (message, redirecting) == ReplyOutcome(reply) && !loading
    {
      if |validationErrors| > 0 {
        return None;
      }
      if newPassword != confirmPassword {
        message := Mismatch;
        return None;
      }
      loading := true;
      sent := Some(ResetBody(userId, token, newPassword));
      var outcome := ReplyOutcome(reply);
      message, redirecting := outcome.0, outcome.1;
      loading := false;
    }
  }
}
