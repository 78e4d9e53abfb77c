/** `UserRegisterSerializer` and `ExpenseSerializer.get_reported_by_name` of the
    expense-tracker backend. The checks the serializer's fields delegate to Django
    (the email pattern, the `\w` class of the username pattern, and whether a
    username or an email is already registered) are parameters; the password
    hash is the parameter `hash`. */
module RegisterSerializer {
  import opened Wrappers
  import Text

  /** The registration fields as sent; any of them may be missing. */
  datatype Registration = Registration(username: Option<string>, email: Option<string>, password: Option<string>,
                                       confirmPassword: Option<string>, name: Option<string>)

  datatype Checks = Checks(emailValid: string -> bool, wordChar: char -> bool,
                           usernameTaken: string -> bool, emailTaken: string -> bool)

  /** What passes validation, every text stripped of surrounding whitespace as
      the serializer's character fields do; `confirm_password` is dropped. */
  datatype Validated = Validated(username: Option<string>, email: string, password: string, name: Option<string>)

  /** A refusal: the set of fields whose own checks fail (all reported at once),
      or the refusal `validate` raises, keyed on one field. */
  datatype Refusal = FieldErrors(fields: set<string>) | Rejected(field: string, message: string)

  const MinPasswordLength := 8
  const UsernameMaxLength := 150
  const EmailMaxLength := 254

  /** `UnicodeUsernameValidator`: one or more word characters, `.`, `@`, `+` or `-`. */
  predicate UsernamePattern(t: string, wordChar: char -> bool) {
    t != "" && forall i :: 0 <= i < |t| ==> wordChar(t[i]) || t[i] in ".@+-"
  }

  /** The `username` field the serializer builds from `User.username`: required
      and not blank unless `optional`, at most 150 characters, the pattern, and
      unique. */
  predicate UsernameOk(u: Option<string>, ch: Checks, optional: bool) {
    if u.None? || Text.Strip(u.value) == "" then optional
    else
      var t := Text.Strip(u.value);
      |t| <= UsernameMaxLength && UsernamePattern(t, ch.wordChar) && !ch.usernameTaken(t)
  }

  /** `email`: required (`extra_kwargs`), blank allowed as on the model, and
      otherwise a valid address of at most 254 characters. */
  predicate EmailOk(e: Option<string>, ch: Checks) {
    e.Some? && (Text.Strip(e.value) == "" || (|Text.Strip(e.value)| <= EmailMaxLength && ch.emailValid(Text.Strip(e.value))))
  }

  /** `password`: required, and at least 8 characters once stripped (so never blank). */
  predicate PasswordOk(p: Option<string>) {
    p.Some? && |Text.Strip(p.value)| >= MinPasswordLength
  }

  /** `confirm_password` and a supplied `name`: not blank. */
  predicate FilledIn(c: Option<string>) {
    c.Some? && Text.Strip(c.value) != ""
  }

  function BadFields(data: Registration, ch: Checks, usernameOptional: bool): set<string> {
    (if UsernameOk(data.username, ch, usernameOptional) then {} else {"username"}) +
    (if EmailOk(data.email, ch) then {} else {"email"}) +
    (if PasswordOk(data.password) then {} else {"password"}) +
    (if FilledIn(data.confirmPassword) then {} else {"confirm_password"}) +
    (if data.name.None? || FilledIn(data.name) then {} else {"name"})
  }

  /** Field validation, then `validate`: the password comparison comes before the
      email lookup, both on the stripped values. */
  function ValidateWith(data: Registration, ch: Checks, usernameOptional: bool): (r: Result<Validated, Refusal>)
    ensures r.Ok? ==> BadFields(data, ch, usernameOptional) == {}
  {
    if BadFields(data, ch, usernameOptional) != {} then Err(FieldErrors(BadFields(data, ch, usernameOptional)))
    else
      assert "password" !in BadFields(data, ch, usernameOptional);
      assert "email" !in BadFields(data, ch, usernameOptional);
      assert "confirm_password" !in BadFields(data, ch, usernameOptional);
      var password := Text.Strip(data.password.value);
      var email := Text.Strip(data.email.value);
      if password != Text.Strip(data.confirmPassword.value) then Err(Rejected("password", "Passwords do not match"))
      else if ch.emailTaken(email) then Err(Rejected("email", "User with this email already exists"))
      else
        var username := if data.username.None? || Text.Strip(data.username.value) == "" then None
                        else Some(Text.Strip(data.username.value));
        var name := if data.name.None? then None else Some(Text.Strip(data.name.value));
        Ok(Validated(username, email, password, name))
  }

  /** The serializer as written: `username` is the required model field. */
  function Validate(data: Registration, ch: Checks): (r: Result<Validated, Refusal>)
    // A field-level refusal names exactly the fields whose own checks fail.
    ensures r.Err? && r.error.FieldErrors? <==> BadFields(data, ch, false) != {}
    ensures r.Err? && r.error.FieldErrors? ==>
              ("username" in r.error.fields <==> !UsernameOk(data.username, ch, false)) &&
              ("email" in r.error.fields <==> !EmailOk(data.email, ch)) &&
              ("password" in r.error.fields <==> !PasswordOk(data.password)) &&
              ("confirm_password" in r.error.fields <==> !FilledIn(data.confirmPassword))
    // A missing or blank username is refused.
    ensures data.username.None? || Text.Strip(data.username.value) == "" ==>
              r.Err? && r.error.FieldErrors? && "username" in r.error.fields
    // Accepted iff every field passes, the stripped passwords agree and the email is free.
    ensures r.Ok? <==> BadFields(data, ch, false) == {} &&
                       Text.Strip(data.password.value) == Text.Strip(data.confirmPassword.value) &&
                       !ch.emailTaken(Text.Strip(data.email.value))
    ensures BadFields(data, ch, false) == {} &&
            Text.Strip(data.password.value) != Text.Strip(data.confirmPassword.value) ==>
              r == Err(Rejected("password", "Passwords do not match"))
    ensures r.Ok? ==>
              r.value.username == Some(Text.Strip(data.username.value)) && r.value.username.value != "" &&
              r.value.email == Text.Strip(data.email.value) &&
              r.value.password == Text.Strip(data.password.value) && |r.value.password| >= MinPasswordLength
  {
    ValidateWith(data, ch, false)
  }

  /** The serializer with `username` declared optional and blank-allowed, as the
      email fallback in `create` and the registration form (which sends no
      username) expect. */
  function ValidateIntended(data: Registration, ch: Checks): (r: Result<Validated, Refusal>)
    ensures r.Ok? <==> BadFields(data, ch, true) == {} &&
                       Text.Strip(data.password.value) == Text.Strip(data.confirmPassword.value) &&
                       !ch.emailTaken(Text.Strip(data.email.value))
    ensures r.Ok? && (data.username.None? || Text.Strip(data.username.value) == "") ==> r.value.username == None
    ensures r.Ok? && data.username.Some? && Text.Strip(data.username.value) != "" ==>
              r.value.username == Some(Text.Strip(data.username.value))
  {
    ValidateWith(data, ch, true)
  }

  /** `name.split(' ', 1)`: the text before the first space, and everything after it. */
  function SplitName(name: string): (parts: (string, string))
    ensures ' ' !in parts.0
    ensures ' ' !in name ==> parts == (name, "")
    ensures ' ' in name ==> name == parts.0 + " " + parts.1
    decreases |name|
  {
    if |name| == 0 then ("", "")
    else if name[0] == ' ' then ("", name[1..])
    else
      var rest := SplitName(name[1..]);
      assert name == [name[0]] + name[1..];
      ([name[0]] + rest.0, rest.1)
  }

  /** Joining the two halves with one space and splitting again gives them back,
      even when the last name itself holds spaces. */
  lemma {:induction false} SplitNameRoundTrip(first: string, last: string)
    requires ' ' !in first
    ensures SplitName(first + " " + last) == (first, last)
    decreases |first|
  {
    if |first| == 0 {
      assert first + " " + last == " " + last;
      assert (" " + last)[1..] == last;
    } else {
      SplitNameRoundTrip(first[1..], last);
      assert (first + " " + last)[1..] == first[1..] + " " + last;
      assert [first[0]] + first[1..] == first;
    }
  }

  /** What `create` passes to `User.objects.create_user`. */
  datatype NewUser = NewUser(username: string, email: string, password: string, firstName: string, lastName: string)

  /** `create`: the name is split at its first space (a missing name is `''`), and
      a missing or empty username becomes the email. */
  function Create(v: Validated, hash: string -> string): (u: NewUser)
    ensures u.email == v.email && u.password == hash(v.password)
    ensures v.username.Some? && v.username.value != "" ==> u.username == v.username.value
    ensures v.username.None? || v.username.value == "" ==> u.username == v.email
    ensures v.name.None? ==> u.firstName == "" && u.lastName == ""
    ensures v.name.Some? ==> (u.firstName, u.lastName) == SplitName(v.name.value)
  {
    var name := v.name.GetOr("");
    var parts := SplitName(name);
    var username := if v.username.None? || v.username.value == "" then v.email else v.username.value;
    NewUser(username, v.email, hash(v.password), parts.0, parts.1)
  }

  /** As written, every registration that is accepted carries its own username,
      so `create` never falls back to the email. */
  lemma EmailFallbackUnreachable(data: Registration, ch: Checks, hash: string -> string)
    requires Validate(data, ch).Ok?
    ensures Create(Validate(data, ch).value, hash).username == Text.Strip(data.username.value)
    ensures Text.Strip(data.username.value) != ""
  {
  }

  /** The registration form's request (name, email, password and confirmation, no
      username) is refused for the username alone, however valid the rest is. */
  lemma FormWithoutUsernameRefused(email: string, password: string, name: string, ch: Checks)
    requires EmailOk(Some(email), ch) && PasswordOk(Some(password)) && FilledIn(Some(name))
    ensures Validate(Registration(None, Some(email), Some(password), Some(password), Some(name)), ch) ==
            Err(FieldErrors({"username"}))
  {
    var data := Registration(None, Some(email), Some(password), Some(password), Some(name));
    assert FilledIn(Some(password)) by {
      assert |Text.Strip(password)| >= MinPasswordLength;
    }
    assert BadFields(data, ch, false) == {"username"};
  }

  /** With the username optional, the same request is accepted whenever the email
      is free, and the account is created with the email as its username. */
  lemma IntendedFallsBackToEmail(email: string, password: string, name: string, ch: Checks, hash: string -> string)
    requires EmailOk(Some(email), ch) && PasswordOk(Some(password)) && FilledIn(Some(name))
    requires !ch.emailTaken(Text.Strip(email))
    ensures var r := ValidateIntended(Registration(None, Some(email), Some(password), Some(password), Some(name)), ch);
            r.Ok? && Create(r.value, hash).username == Text.Strip(email) &&
            Create(r.value, hash).email == Text.Strip(email)
  {
    var data := Registration(None, Some(email), Some(password), Some(password), Some(name));
    assert FilledIn(Some(password)) by {
      assert |Text.Strip(password)| >= MinPasswordLength;
    }
    assert BadFields(data, ch, true) == {};
  }

  /** A name without a space is all first name. */
  lemma SingleWordName(v: Validated, hash: string -> string)
    requires v.name.Some? && ' ' !in v.name.value
    ensures Create(v, hash).firstName == v.name.value && Create(v, hash).lastName == ""
  {
  }

  /** The reporting user, as far as `get_reported_by_name` reads it. */
  datatype Reporter = Reporter(username: string, firstName: string, lastName: string)

  /** `get_full_name()`: first and last name joined by a space, then stripped. */
  function FullName(r: Reporter): string {
    Text.Strip(r.firstName + " " + r.lastName)
  }

  /** `get_reported_by_name`: the full name, else the username, and `None` without a reporter. */
  function ReportedByName(reporter: Option<Reporter>): (r: Option<string>)
    ensures reporter.None? <==> r.None?
    ensures reporter.Some? && FullName(reporter.value) != "" ==> r == Some(FullName(reporter.value))
    ensures reporter.Some? && FullName(reporter.value) == "" ==> r == Some(reporter.value.username)
  {
    match reporter
    case None => None
    case Some(u) => if FullName(u) != "" then Some(FullName(u)) else Some(u.username)
  }

  /** A reporter with neither first nor last name is shown by username. */
  lemma NamelessShowsUsername(username: string)
    ensures ReportedByName(Some(Reporter(username, "", ""))) == Some(username)
  {
    assert Text.StripLeft(" ") == "";
  }
}
