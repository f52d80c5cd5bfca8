/**
 * Registration, login, forgot-password and reset-password of the backend:
 * the missing-field, e-mail and password-strength validators, and the rules
 * by which each handler reads and updates the users table. bcrypt, SHA-256
 * and JWT are modelled as injective constructors; the random reset token,
 * the clock and the mailer's outcome are parameters.
 */
module AuthController {
  import opened Wrappers
  import opened Js

  /** The position of a field name in the order the checks run. */
  function FieldRank(name: string): int
  {
    if name == "full name" then 0 else if name == "email" then 1 else 2
  }

  /** registerUser's check: the empty (falsy) fields among full name, email and password, in that order. */
  function MissingRegisterFields(fullName: string, email: string, password: string): (r: seq<string>)
    ensures ("full name" in r <==> fullName == "") && ("email" in r <==> email == "")
    ensures "password" in r <==> password == ""
    ensures r == [] <==> fullName != "" && email != "" && password != ""
    ensures forall a, b :: 0 <= a < b < |r| ==> FieldRank(r[a]) < FieldRank(r[b])
  {
    (if fullName == "" then ["full name"] else [])
    + (if email == "" then ["email"] else [])
    + (if password == "" then ["password"] else [])
  }

  /** loginUser's check: the empty fields among email and password, in that order. */
  function MissingLoginFields(email: string, password: string): (r: seq<string>)
    ensures ("email" in r <==> email == "") && ("password" in r <==> password == "")
    ensures r == [] <==> email != "" && password != ""
    ensures forall a, b :: 0 <= a < b < |r| ==> FieldRank(r[a]) < FieldRank(r[b])
  {
    (if email == "" then ["email"] else []) + (if password == "" then ["password"] else [])
  }

  function MissingFieldsMessage(missing: seq<string>): string
  {
    "Please provide " + Join(missing, ", ")
  }

  /** A character of the class [^\s@]. */
  predicate Plain(c: char)
  {
    !IsWhitespace(c) && c != '@'
  }

  predicate AllPlain(t: string)
  {
    forall k :: 0 <= k < |t| ==> Plain(t[k])
  }

  /** A match of [^\s@]+. */
  predicate PlainRun(t: string)
  {
    |t| > 0 && AllPlain(t)
  }

  /** A run of plain characters split at a plain character gives two plain runs, and back. */
  lemma AllPlainSplit(t: string, j: int)
    requires 0 <= j < |t|
    ensures AllPlain(t) <==> AllPlain(t[..j]) && Plain(t[j]) && AllPlain(t[j + 1..])
  {
    if AllPlain(t[..j]) && Plain(t[j]) && AllPlain(t[j + 1..]) {
      forall k | 0 <= k < |t|
        ensures Plain(t[k])
      {
        if k < j {
          assert t[..j][k] == t[k];
        } else if k > j {
          assert t[j + 1..][k - (j + 1)] == t[k];
        }
      }
    }
  }

  /** The language of /^[^\s@]+@[^\s@]+\.[^\s@]+$/: the three runs and the two separators. */
  ghost predicate EmailPattern(s: string)
  {
    exists i, j :: 0 < i && i + 1 < j < |s| - 1 && s[i] == '@' && s[j] == '.'
      && PlainRun(s[..i]) && PlainRun(s[i + 1..j]) && PlainRun(s[j + 1..])
  }

  /** The position of the first '@'. */
  function FirstAt(s: string): (r: Option<nat>)
    ensures r.None? ==> forall k :: 0 <= k < |s| ==> s[k] != '@'
    ensures r.Some? ==> r.value < |s| && s[r.value] == '@' && forall k :: 0 <= k < r.value ==> s[k] != '@'
  {
    if s == [] then None
    else if s[0] == '@' then Some(0)
    else match FirstAt(s[1..])
      case None => None
      case Some(i) => Some(i + 1)
  }

  /** The e-mail check: one '@' after a non-empty local part, and a '.' strictly inside the domain. */
  predicate IsValidEmail(s: string)
  {
    match FirstAt(s)
    case None => false
    case Some(i) =>
      i > 0 && PlainRun(s[..i]) && PlainRun(s[i + 1..])
      && exists j :: i + 1 < j < |s| - 1 && s[j] == '.'
  }

  /** The e-mail check accepts exactly the strings the regular expression matches. */
  lemma EmailCheckMatchesPattern(s: string)
    ensures IsValidEmail(s) <==> EmailPattern(s)
  {
    if IsValidEmail(s) {
      AcceptedEmailMatches(s);
    }
    if EmailPattern(s) {
      var i, j :| 0 < i && i + 1 < j < |s| - 1 && s[i] == '@' && s[j] == '.'
        && PlainRun(s[..i]) && PlainRun(s[i + 1..j]) && PlainRun(s[j + 1..]);
      MatchedEmailAccepted(s, i, j);
    }
  }

  lemma AcceptedEmailMatches(s: string)
    requires IsValidEmail(s)
    ensures EmailPattern(s)
  {
    var i := FirstAt(s).value;
    var j :| i + 1 < j < |s| - 1 && s[j] == '.';
    var d := s[i + 1..];
    AllPlainSplit(d, j - (i + 1));
    assert d[..j - (i + 1)] == s[i + 1..j];
    assert d[j - i..] == s[j + 1..];
  }

  lemma MatchedEmailAccepted(s: string, i: int, j: int)
    requires 0 < i && i + 1 < j < |s| - 1 && s[i] == '@' && s[j] == '.'
    requires PlainRun(s[..i]) && PlainRun(s[i + 1..j]) && PlainRun(s[j + 1..])
    ensures IsValidEmail(s)
  {
    var d := s[i + 1..];
    assert d[..j - (i + 1)] == s[i + 1..j];
    assert d[j - i..] == s[j + 1..];
    AllPlainSplit(d, j - (i + 1));
    var l := s[..i];
    assert forall k :: 0 <= k < |l| ==> l[k] != '@';
    assert FirstAt(s) == Some(i);
  }

  predicate HasDigit(p: string) { exists k :: 0 <= k < |p| && '0' <= p[k] <= '9' }
  predicate HasUpper(p: string) { exists k :: 0 <= k < |p| && 'A' <= p[k] <= 'Z' }
  predicate HasLower(p: string) { exists k :: 0 <= k < |p| && 'a' <= p[k] <= 'z' }

  const TooShort := "be at least 8 characters long"
  const NoNumber := "include at least one number"
  const NoUpper := "include at least one uppercase letter"
  const NoLower := "include at least one lowercase letter"

  /** A password every strength rule accepts; its length is counted in UTF-16 code units, as `.length` counts. */
  predicate StrongPassword(p: string)
  {
    Utf16Length(p) >= 8 && HasDigit(p) && HasUpper(p) && HasLower(p)
  }

  /** The strength issues of a password, in the fixed order: length, digit, uppercase, lowercase. */
  function PasswordIssues(p: string): (r: seq<string>)
    ensures r == [] <==> StrongPassword(p)
    ensures (TooShort in r <==> Utf16Length(p) < 8) && (NoNumber in r <==> !HasDigit(p))
    ensures (NoUpper in r <==> !HasUpper(p)) && (NoLower in r <==> !HasLower(p))
    ensures forall a, b :: 0 <= a < b < |r| ==> IssueRank(r[a]) < IssueRank(r[b])
  {
    (if Utf16Length(p) < 8 then [TooShort] else [])
    + (if !HasDigit(p) then [NoNumber] else [])
    + (if !HasUpper(p) then [NoUpper] else [])
    + (if !HasLower(p) then [NoLower] else [])
  }

  /**
   * Three letters and three emoji are six characters but nine UTF-16 code
   * units: long enough for the length rule, so the password is strong.
   */
  lemma AstralPasswordIsLongEnough()
    ensures var p := "aB1\U{1F600}\U{1F600}\U{1F600}"; |p| == 6 && Utf16Length(p) == 9 && PasswordIssues(p) == []
  {
    var p := "aB1\U{1F600}\U{1F600}\U{1F600}";
    assert HasDigit(p) by { assert '0' <= p[2] <= '9'; }
    assert HasUpper(p) by { assert 'A' <= p[1] <= 'Z'; }
    assert HasLower(p) by { assert 'a' <= p[0] <= 'z'; }
  }

  /** The position of an issue in the order the checks run. */
  function IssueRank(issue: string): int
  {
    if issue == TooShort then 0 else if issue == NoNumber then 1 else if issue == NoUpper then 2 else 3
  }

  function PasswordIssuesMessage(issues: seq<string>): string
  {
    "Password must " + Join(issues, ", ")
  }

  /** bcrypt.hash of a password; bcrypt.compare(p, h) holds iff h is BcryptOf(p). */
  datatype PasswordHash = BcryptOf(password: string)
  /** The SHA-256 hex digest of a reset token. */
  datatype TokenDigest = Sha256Of(token: string)
  /** The JWT generateToken signs for a user id. */
  datatype SessionToken = JwtFor(userId: nat)

  /** A row of the users table; the row at index k has user_id k + 1 (SERIAL). */
  datatype User = User(name: string, email: string, passwordHash: PasswordHash,
                       resetToken: Option<TokenDigest>, resetExpires: Option<int>, lastLogin: Option<int>)

  datatype Body = Error(error: string) | Message(message: string) | Session(token: SessionToken, userId: nat)

  datatype Reply = Reply(status: int, body: Body)

  const ResetLinkMessage := "If this email exists, a reset link has been sent."
  /** 60 * 60 * 1000: a reset token lives for one hour. */
  const ResetTokenLifetime: int := 3_600_000

  /** The users table. */
  class UserStore {
    var users: seq<User>

    /** The email column is UNIQUE. */
    ghost predicate Valid()
      reads this
    {
      forall a, b :: 0 <= a < b < |users| ==> users[a].email != users[b].email
    }

    constructor ()
      ensures Valid() && users == []
    {
      users := [];
    }

    /** SELECT * FROM users WHERE email = $1: the index of the row holding that email. */
    function FindByEmail(email: string): (r: Option<nat>)
      reads this
      ensures r.Some? ==> r.value < |users| && users[r.value].email == email
      ensures r.None? ==> forall k :: 0 <= k < |users| ==> users[k].email != email
    {
      FindFrom(users, email)
    }

    /** registerUser. */
    method Register(fullName: string, email: string, password: string) returns (reply: Reply)
      requires Valid()
      modifies this
      ensures Valid()
      ensures var missing := MissingRegisterFields(fullName, email, password);
        missing != [] ==> reply == Reply(400, Error(MissingFieldsMessage(missing)))
      ensures reply.status == 201 <==>
        (MissingRegisterFields(fullName, email, password) == [] && IsValidEmail(email)
         && StrongPassword(password) && old(FindByEmail(email)).None?)
      ensures reply.status == 201 ==>
        users == old(users) + [User(fullName, email, BcryptOf(password), None, None, None)]
        && reply.body == Session(JwtFor(|users|), |users|)
      ensures reply.status != 201 ==> users == old(users)
      ensures (MissingRegisterFields(fullName, email, password) == [] && IsValidEmail(email)
               && StrongPassword(password) && old(FindByEmail(email)).Some?)
              ==> reply == Reply(409, Error("Email already in use"))
    {
      var missing := MissingRegisterFields(fullName, email, password);
      if missing != [] {
        return Reply(400, Error(MissingFieldsMessage(missing)));
      }
      if !IsValidEmail(email) {
        return Reply(400, Error("Please provide a valid email address"));
      }
      var issues := PasswordIssues(password);
      if issues != [] {
        return Reply(400, Error(PasswordIssuesMessage(issues)));
      }
      if FindByEmail(email).Some? {
        return Reply(409, Error("Email already in use"));
      }
      users := users + [User(fullName, email, BcryptOf(password), None, None, None)];
      var userId := |users|;
      reply := Reply(201, Session(JwtFor(userId), userId));
    }

    /** loginUser: an unknown e-mail and a wrong password give the same answer. */
    method Login(email: string, password: string, now: int) returns (reply: Reply)
      requires Valid()
      modifies this
      ensures Valid()
      ensures var missing := MissingLoginFields(email, password);
        missing != [] ==> reply == Reply(400, Error(MissingFieldsMessage(missing))) && users == old(users)
      ensures MissingLoginFields(email, password) == [] ==>
        match old(FindByEmail(email))
        case None => reply == Reply(401, Error("Invalid credentials")) && users == old(users)
        case Some(k) =>
          if old(users[k].passwordHash) == BcryptOf(password) then
            reply == Reply(200, Session(JwtFor(k + 1), k + 1))
            && users == old(users[k := users[k].(lastLogin := Some(now))])
          else
            reply == Reply(401, Error("Invalid credentials")) && users == old(users)
    {
      var missing := MissingLoginFields(email, password);
      if missing != [] {
        return Reply(400, Error(MissingFieldsMessage(missing)));
      }
      var found := FindByEmail(email);
      if found.None? {
        return Reply(401, Error("Invalid credentials"));
      }
      var k := found.value;
      if users[k].passwordHash != BcryptOf(password) {
        return Reply(401, Error("Invalid credentials"));
      }
      users := users[k := users[k].(lastLogin := Some(now))];
      reply := Reply(200, Session(JwtFor(k + 1), k + 1));
    }

    /**
     * forgotPassword: a known e-mail gets a fresh token digest expiring one hour
     * from now; known and unknown e-mails get the same 200 answer. `resetToken`
     * is the random token, `mailSent` whether the mailer succeeded.
     */
    method ForgotPassword(email: string, resetToken: string, now: int, mailSent: bool) returns (reply: Reply)
      requires Valid()
      modifies this
      ensures Valid()
      ensures email == "" ==> reply == Reply(400, Error("Please provide your email")) && users == old(users)
      ensures email != "" && !IsValidEmail(email) ==>
        reply == Reply(400, Error("Please provide a valid email address")) && users == old(users)
      ensures email != "" && IsValidEmail(email) ==>
        match old(FindByEmail(email))
        case None => reply == Reply(200, Message(ResetLinkMessage)) && users == old(users)
        case Some(k) =>
          users == old(users[k := users[k].(resetToken := Some(Sha256Of(resetToken)),
                                            resetExpires := Some(now + ResetTokenLifetime))])
          && reply == (if mailSent then Reply(200, Message(ResetLinkMessage))
                       else Reply(500, Error("Forgot password error")))
    {
      if email == "" {
        return Reply(400, Error("Please provide your email"));
      }
      if !IsValidEmail(email) {
        return Reply(400, Error("Please provide a valid email address"));
      }
      var found := FindByEmail(email);
      if found.None? {
        return Reply(200, Message(ResetLinkMessage));
      }
      var k := found.value;
      users := users[k := users[k].(resetToken := Some(Sha256Of(resetToken)),
                                    resetExpires := Some(now + ResetTokenLifetime))];
      if !mailSent {
        return Reply(500, Error("Forgot password error"));
      }
      reply := Reply(200, Message(ResetLinkMessage));
    }

    /** The row a reset request may use: same id, same token digest, expiry in the future. */
    predicate ResetAllowed(userId: int, token: string, now: int)
      reads this
    {
      1 <= userId <= |users|
      && users[userId - 1].resetToken == Some(Sha256Of(token))
      && users[userId - 1].resetExpires.Some? && users[userId - 1].resetExpires.value > now
    }

    /** resetPassword: `userId` 0 stands for an absent id. */
    method ResetPassword(userId: int, token: string, newPassword: string, now: int) returns (reply: Reply)
      requires Valid()
      modifies this
      ensures Valid()
      ensures userId == 0 || token == "" || newPassword == "" ==>
        reply == Reply(400, Error("Missing required fields")) && users == old(users)
      ensures userId != 0 && token != "" && newPassword != "" && !StrongPassword(newPassword) ==>
        reply == Reply(400, Error(PasswordIssuesMessage(PasswordIssues(newPassword)))) && users == old(users)
      ensures reply.status == 200 <==>
        userId != 0 && token != "" && newPassword != "" && StrongPassword(newPassword)
        && old(ResetAllowed(userId, token, now))
      ensures reply.status == 200 ==>
        reply.body == Message("Password has been reset successfully")
        && users == old(users[userId - 1 := users[userId - 1].(passwordHash := BcryptOf(newPassword),
                                                                resetToken := None, resetExpires := None)])
      ensures reply.status != 200 ==> users == old(users)
    {
      if userId == 0 || token == "" || newPassword == "" {
        return Reply(400, Error("Missing required fields"));
      }
      var issues := PasswordIssues(newPassword);
      if issues != [] {
        return Reply(400, Error(PasswordIssuesMessage(issues)));
      }
      if !ResetAllowed(userId, token, now) {
        return Reply(400, Error("Invalid or expired reset token"));
      }
      var k := userId - 1;
      users := users[k := users[k].(passwordHash := BcryptOf(newPassword), resetToken := None, resetExpires := None)];
      reply := Reply(200, Message("Password has been reset successfully"));
    }
  }

  /** The first row of `rows` holding the e-mail. */
  function FindFrom(rows: seq<User>, email: string): (r: Option<nat>)
    ensures r.Some? ==> r.value < |rows| && rows[r.value].email == email
    ensures r.None? ==> forall k :: 0 <= k < |rows| ==> rows[k].email != email
  {
    if rows == [] then None
    else if rows[0].email == email then Some(0)
    else match FindFrom(rows[1..], email)
      case None => None
      case Some(k) => Some(k + 1)
  }
}
