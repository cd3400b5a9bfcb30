/**
 * The User schema: the request-side validation of a user body (username length, e-mail
 * format, the password rule) and the stored record with its conditional `password`
 * requirement and its unique `email` and `googleId` paths.
 */
module UserModel {
  import opened Common
  import opened Js

  predicate IsLower(c: char) { 'a' <= c <= 'z' }

  predicate IsUpper(c: char) { 'A' <= c <= 'Z' }

  /** The special characters the password rule asks for: `!@#$%^&*`. */
  predicate IsSpecial(c: char)
  {
    c == '!' || c == '@' || c == '#' || c == '$' || c == '%' || c == '^' || c == '&' || c == '*'
  }

  /** The characters a password may be made of: `[A-Za-z0-9!@#$%^&*]`. */
  predicate IsPasswordChar(c: char) { IsLower(c) || IsUpper(c) || IsDigit(c) || IsSpecial(c) }

  predicate HasLower(s: string) { exists i :: 0 <= i < |s| && IsLower(s[i]) }

  predicate HasUpper(s: string) { exists i :: 0 <= i < |s| && IsUpper(s[i]) }

  predicate HasDigit(s: string) { exists i :: 0 <= i < |s| && IsDigit(s[i]) }

  predicate HasSpecial(s: string) { exists i :: 0 <= i < |s| && IsSpecial(s[i]) }

  /** The password rule as stated to the user: at least 6 characters, with a lower-case letter,
      an upper-case letter, a digit and a special character, and nothing else. */
  predicate StrongPassword(s: string)
  {
    && |s| >= 6
    && HasLower(s) && HasUpper(s) && HasDigit(s) && HasSpecial(s)
    && forall i :: 0 <= i < |s| ==> IsPasswordChar(s[i])
  }

  /** What one pass of the password pattern has seen so far: one flag per look-ahead, and
      whether every character so far belongs to the allowed class. */
  datatype Seen = Seen(lower: bool, upper: bool, digit: bool, special: bool, allowed: bool)

  function Scan(s: string): Seen
  {
    if s == [] then Seen(false, false, false, false, true)
    else
      var p := Scan(s[..|s| - 1]);
      var c := s[|s| - 1];
      Seen(p.lower || IsLower(c), p.upper || IsUpper(c), p.digit || IsDigit(c),
           p.special || IsSpecial(c), p.allowed && IsPasswordChar(c))
  }

  /** The pattern `^(?=.*[a-z])(?=.*[A-Z])(?=.*\d)(?=.*[!@#$%^&*])[A-Za-z\d!@#$%^&*]{6,}$`,
      read in one left-to-right pass. The look-aheads cannot cross a line break, but the
      character class admits none, so each amounts to "occurs somewhere". */
  predicate PasswordMatches(s: string)
  {
    var k := Scan(s);
    |s| >= 6 && k.lower && k.upper && k.digit && k.special && k.allowed
  }

  lemma {:induction false} ScanLower(s: string)
    ensures Scan(s).lower <==> HasLower(s)
  {
    if s != [] {
      var p := s[..|s| - 1];
      ScanLower(p);
      assert forall i :: 0 <= i < |p| ==> p[i] == s[i];
      if HasLower(s) && !IsLower(s[|s| - 1]) {
        var i :| 0 <= i < |s| && IsLower(s[i]);
        assert IsLower(p[i]);
      }
    }
  }

  lemma {:induction false} ScanUpper(s: string)
    ensures Scan(s).upper <==> HasUpper(s)
  {
    if s != [] {
      var p := s[..|s| - 1];
      ScanUpper(p);
      assert forall i :: 0 <= i < |p| ==> p[i] == s[i];
      if HasUpper(s) && !IsUpper(s[|s| - 1]) {
        var i :| 0 <= i < |s| && IsUpper(s[i]);
        assert IsUpper(p[i]);
      }
    }
  }

  lemma {:induction false} ScanDigit(s: string)
    ensures Scan(s).digit <==> HasDigit(s)
  {
    if s != [] {
      var p := s[..|s| - 1];
      ScanDigit(p);
      assert forall i :: 0 <= i < |p| ==> p[i] == s[i];
      if HasDigit(s) && !IsDigit(s[|s| - 1]) {
        var i :| 0 <= i < |s| && IsDigit(s[i]);
        assert IsDigit(p[i]);
      }
    }
  }

  lemma {:induction false} ScanSpecial(s: string)
    ensures Scan(s).special <==> HasSpecial(s)
  {
    if s != [] {
      var p := s[..|s| - 1];
      ScanSpecial(p);
      assert forall i :: 0 <= i < |p| ==> p[i] == s[i];
      if HasSpecial(s) && !IsSpecial(s[|s| - 1]) {
        var i :| 0 <= i < |s| && IsSpecial(s[i]);
        assert IsSpecial(p[i]);
      }
    }
  }

  lemma {:induction false} ScanAllowed(s: string)
    ensures Scan(s).allowed <==> forall i :: 0 <= i < |s| ==> IsPasswordChar(s[i])
  {
    if s != [] {
      var p := s[..|s| - 1];
      ScanAllowed(p);
      assert forall i :: 0 <= i < |p| ==> p[i] == s[i];
    }
  }

  /** The pass records exactly which kinds of character occur and whether all are allowed. */
  lemma {:induction false} ScanFlags(s: string)
    ensures Scan(s).lower <==> HasLower(s)
    ensures Scan(s).upper <==> HasUpper(s)
    ensures Scan(s).digit <==> HasDigit(s)
    ensures Scan(s).special <==> HasSpecial(s)
    ensures Scan(s).allowed <==> forall i :: 0 <= i < |s| ==> IsPasswordChar(s[i])
  {
    ScanLower(s);
    ScanUpper(s);
    ScanDigit(s);
    ScanSpecial(s);
    ScanAllowed(s);
  }

  /** The pattern accepts exactly the passwords the rule describes. */
  lemma {:induction false} PasswordPatternMeaning(s: string)
    ensures PasswordMatches(s) <==> StrongPassword(s)
  {
    ScanFlags(s);
  }

  /** 'Password@123' satisfies the rule. */
  lemma {:induction false} PasswordAccepted()
    ensures PasswordMatches("Password@123")
  {
    var s := "Password@123";
    assert IsUpper(s[0]) && IsLower(s[1]) && IsSpecial(s[8]) && IsDigit(s[9]);
    assert forall i :: 0 <= i < |s| ==> IsPasswordChar(s[i]);
    PasswordPatternMeaning(s);
  }

  /** 'Aa@1' is too short. */
  lemma {:induction false} ShortPasswordRefused()
    ensures !PasswordMatches("Aa@1")
  {
  }

  /** 'password@123' has no upper-case letter. */
  lemma {:induction false} PasswordWithoutUpperRefused()
    ensures !PasswordMatches("password@123")
  {
    var s := "password@123";
    PasswordPatternMeaning(s);
    assert forall i :: 0 <= i < |s| ==> !IsUpper(s[i]);
  }

  /** 'PASSWORD@123' has no lower-case letter. */
  lemma {:induction false} PasswordWithoutLowerRefused()
    ensures !PasswordMatches("PASSWORD@123")
  {
    var s := "PASSWORD@123";
    PasswordPatternMeaning(s);
    assert forall i :: 0 <= i < |s| ==> !IsLower(s[i]);
  }

  /** 'Password@' has no digit. */
  lemma {:induction false} PasswordWithoutDigitRefused()
    ensures !PasswordMatches("Password@")
  {
    var s := "Password@";
    PasswordPatternMeaning(s);
    assert forall i :: 0 <= i < |s| ==> !IsDigit(s[i]);
  }

  /** 'Password123' has no special character. */
  lemma {:induction false} PasswordWithoutSpecialRefused()
    ensures !PasswordMatches("Password123")
  {
    var s := "Password123";
    PasswordPatternMeaning(s);
    assert forall i :: 0 <= i < |s| ==> !IsSpecial(s[i]);
  }

  /** A user body after validation; unknown keys are stripped. */
  datatype UserInput = UserInput(
    username: Option<string>,
    email: string,
    password: Option<string>,
    googleId: Option<string>,
    avatar: Option<string>,
    currentToken: Option<string>)

  type Body = map<string, Value>

  /** An optional string path fails when present with a value that is not a string. */
  function NotString(body: Body, key: string): set<string>
  {
    if key in body && !body[key].Text? then {key} else {}
  }

  /** The paths `UserZodSchema` reports on; `isEmail` is the e-mail format check. */
  function InputErrors(body: Body, isEmail: string -> bool): set<string>
  {
    NotString(body, "username") + NotString(body, "password") + NotString(body, "googleId")
    + NotString(body, "avatar") + NotString(body, "currentToken")
    + (if "username" in body && body["username"].Text? && |body["username"].s| < 3 then {"username"} else {})
    + (if "email" !in body || !body["email"].Text? || !isEmail(body["email"].s) then {"email"} else {})
    + (if "password" in body && body["password"].Text? && !PasswordMatches(body["password"].s) then {"password"} else {})
  }

  function OptionalText(body: Body, key: string): Option<string>
  {
    if key in body && body[key].Text? then Some(body[key].s) else None
  }

  /** `UserZodSchema.safeParse(body)`. */
  function ParseUser(body: Body, isEmail: string -> bool): (r: Result<UserInput>)
    ensures r.Err? <==> InputErrors(body, isEmail) != {}
    ensures r.Err? ==> r.error == ValidationFailed(InputErrors(body, isEmail))
    ensures r.Ok? ==> "email" in body && body["email"] == Text(r.value.email) && isEmail(r.value.email)
    ensures r.Ok? ==> r.value.username.Some? ==> |r.value.username.value| >= 3
    ensures r.Ok? ==> r.value.password.Some? ==> StrongPassword(r.value.password.value)
    ensures r.Ok? ==> r.value.username == OptionalText(body, "username") && r.value.password == OptionalText(body, "password")
    ensures r.Ok? ==> r.value.googleId == OptionalText(body, "googleId") && r.value.avatar == OptionalText(body, "avatar")
    ensures r.Ok? ==> r.value.currentToken == OptionalText(body, "currentToken")
  {
    var errors := InputErrors(body, isEmail);
    if errors != {} then Err(ValidationFailed(errors))
    else
      assert "email" !in errors && "username" !in errors && "password" !in errors;
      var password := OptionalText(body, "password");
      assert password.Some? ==> StrongPassword(password.value) by {
        if password.Some? {
          PasswordPatternMeaning(password.value);
        }
      }
      Ok(UserInput(OptionalText(body, "username"), body["email"].s, password,
                   OptionalText(body, "googleId"), OptionalText(body, "avatar"), OptionalText(body, "currentToken")))
  }

  /** Everything but the e-mail is optional: a body with only a well-formed e-mail passes. */
  lemma {:induction false} OnlyEmailRequired(email: string, isEmail: string -> bool)
    requires isEmail(email)
    ensures ParseUser(map["email" := Text(email)], isEmail) == Ok(UserInput(None, email, None, None, None, None))
    ensures ParseUser(map[], isEmail) == Err(ValidationFailed({"email"}))
  {
    assert InputErrors(map["email" := Text(email)], isEmail) == {};
    assert InputErrors(map[], isEmail) == {"email"};
  }

  /** The documented vectors: the valid body is accepted, and a 2-character username or a
      malformed e-mail address is refused. */
  lemma {:induction false} UserBodyExamples(isEmail: string -> bool)
    requires isEmail("test@example.com") && !isEmail("not-an-email")
    ensures ParseUser(map["username" := Text("validUser"), "email" := Text("test@example.com"),
                          "password" := Text("Password@123")], isEmail).Ok?
    ensures ParseUser(map["username" := Text("ab"), "email" := Text("test@example.com"),
                          "password" := Text("Password@123")], isEmail).Err?
    ensures ParseUser(map["username" := Text("user"), "email" := Text("not-an-email"),
                          "password" := Text("Password@123")], isEmail).Err?
  {
    PasswordAccepted();
    var valid := map["username" := Text("validUser"), "email" := Text("test@example.com"),
                     "password" := Text("Password@123")];
    assert InputErrors(valid, isEmail) == {};
    var short := map["username" := Text("ab"), "email" := Text("test@example.com"),
                     "password" := Text("Password@123")];
    assert "username" in InputErrors(short, isEmail);
    var badEmail := map["username" := Text("user"), "email" := Text("not-an-email"),
                        "password" := Text("Password@123")];
    assert "email" in InputErrors(badEmail, isEmail);
  }

  /** A weak password makes the whole body fail. */
  lemma {:induction false} WeakPasswordRefused(body: Body, isEmail: string -> bool)
    requires "password" in body && body["password"].Text? && !StrongPassword(body["password"].s)
    ensures ParseUser(body, isEmail) == Err(ValidationFailed(InputErrors(body, isEmail)))
    ensures "password" in InputErrors(body, isEmail)
  {
    PasswordPatternMeaning(body["password"].s);
  }

  // ---------------------------------------------------------------------------
  // The stored record.
  // ---------------------------------------------------------------------------

  /** A stored user (timestamps are not modelled). `password` holds a hash. */
  datatype User = User(
    id: UserId,
    username: Option<string>,
    email: string,
    password: Option<string>,
    googleId: Option<string>,
    avatar: Option<string>,
    currentToken: Option<string>)

  /** A string path is truthy when set and not empty. */
  predicate Filled(s: Option<string>) { s.Some? && s.value != "" }

  /** The paths a save fails on: `email` is required, and `password` is required exactly
      when `googleId` is not set (a required string path refuses the empty string). */
  function StoreErrors(u: User): set<string>
  {
    (if u.email == "" then {"email"} else {})
    + (if !Filled(u.googleId) && !Filled(u.password) then {"password"} else {})
  }

  predicate Storable(u: User) { StoreErrors(u) == {} }

  /** Either a password or a Google account: a stored user always has a way to sign in. */
  lemma {:induction false} StorableHasCredential(u: User)
    requires Storable(u)
    ensures Filled(u.password) || Filled(u.googleId)
    ensures u.email != ""
  {
    assert "password" !in StoreErrors(u) && "email" !in StoreErrors(u);
  }

  type Users = map<UserId, User>

  /** The unique index on `email`. */
  ghost predicate UniqueEmails(users: Users)
  {
    forall a, b :: a in users && b in users && a != b ==> users[a].email != users[b].email
  }

  /** The sparse unique index on `googleId`: it constrains only users that have one. */
  ghost predicate UniqueGoogleIds(users: Users)
  {
    forall a, b :: a in users && b in users && a != b && users[a].googleId.Some? ==> users[a].googleId != users[b].googleId
  }

  /** The other users that hold `googleId`; a save that would add one of them breaks the index. */
  function GoogleIdHolders(users: Users, googleId: string, self: UserId): set<UserId>
  {
    set a | a in users && a != self && users[a].googleId == Some(googleId)
  }

  /** The user with this e-mail among the ids below `n`, found in id order (`findOne({email})`). */
  function FindByEmail(users: Users, email: string, n: nat): (r: Option<UserId>)
    ensures r.Some? ==> r.value < n && r.value in users && users[r.value].email == email
    ensures r.None? ==> forall a :: a in users && a < n ==> users[a].email != email
  {
    if n == 0 then None
    else
      var earlier := FindByEmail(users, email, n - 1);
      if earlier.Some? then earlier
      else if n - 1 in users && users[n - 1].email == email then Some(n - 1)
      else None
  }

  /** With unique e-mail addresses the lookup finds the one user with that address. */
  lemma {:induction false} FindByEmailExact(users: Users, email: string, n: nat, a: UserId)
    requires UniqueEmails(users)
    requires a in users && a < n && users[a].email == email
    ensures FindByEmail(users, email, n) == Some(a)
  {
  }

  /** What `toObject()` without `password` leaves: the user as returned by a sign-in. */
  datatype PublicUser = PublicUser(
    id: UserId,
    username: Option<string>,
    email: string,
    googleId: Option<string>,
    avatar: Option<string>,
    currentToken: Option<string>)

  function Public(u: User): PublicUser
  {
    PublicUser(u.id, u.username, u.email, u.googleId, u.avatar, u.currentToken)
  }
}
