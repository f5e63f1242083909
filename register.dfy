/** The registration form (src/components/Register/index.jsx): four field
    checks, each a regular expression or a length test restated over
    characters, the error map they build, and the submission they gate. */
module Register {
  import opened Js

  /** A character of `[a-zA-Z0-9_]`, which is also `\w` without the `u` flag. */
  predicate IsWordChar(c: char) {
    'a' <= c <= 'z' || 'A' <= c <= 'Z' || '0' <= c <= '9' || c == '_'
  }

  /** `/^[a-zA-Z0-9_]+$/`. */
  predicate ValidName(name: string) {
    |name| > 0 && forall i :: 0 <= i < |name| ==> IsWordChar(name[i])
  }

  /** The fixed tail of every accepted address: `@stud\.noroff\.no$`. */
  const EmailDomain: string := "@stud.noroff.no"

  /** A character of `[\w.-]`. */
  predicate IsLocalPartChar(c: char) {
    IsWordChar(c) || c == '.' || c == '-'
  }

  /** `/^[\w.-]+@stud\.noroff\.no$/`. */
  predicate ValidEmail(email: string) {
    |email| > |EmailDomain| &&
    email[|email| - |EmailDomain|..] == EmailDomain &&
    forall i :: 0 <= i < |email| - |EmailDomain| ==> IsLocalPartChar(email[i])
  }

  /** An address is accepted exactly when it is a non-empty local part of
      `[\w.-]` characters followed by the student domain. */
  lemma EmailSplit(local: string)
    ensures ValidEmail(local + EmailDomain) <==>
      |local| > 0 && forall i :: 0 <= i < |local| ==> IsLocalPartChar(local[i])
  {
    var e := local + EmailDomain;
    assert e[|e| - |EmailDomain|..] == EmailDomain;
    assert forall i :: 0 <= i < |local| ==> e[i] == local[i];
  }

  /** Every accepted address is a non-empty local part of `[\w.-]`
      characters followed by the student domain. */
  lemma EmailForm(email: string)
    requires ValidEmail(email)
    ensures exists local :: email == local + EmailDomain && |local| > 0 &&
                            (forall i :: 0 <= i < |local| ==> IsLocalPartChar(local[i]))
  {
    var local := email[..|email| - |EmailDomain|];
    assert email == local + EmailDomain;
  }

  /** An accepted address has exactly one `@`, the one starting the domain. */
  lemma EmailHasOneAt(email: string)
    requires ValidEmail(email)
    ensures forall i :: 0 <= i < |email| ==> (email[i] == '@' <==> i == |email| - |EmailDomain|)
  {
    var k := |email| - |EmailDomain|;
    forall i | 0 <= i < |email| ensures email[i] == '@' <==> i == k {
      if i >= k {
        assert email[i] == email[k..][i - k] == EmailDomain[i - k];
      } else {
        assert IsLocalPartChar(email[i]);
      }
    }
  }

  /** `password.length >= 8`. */
  predicate ValidPassword(password: string) {
    |password| >= 8
  }

  /** `\S+\.\S+$` after the scheme: no white space, and a dot with at least
      one character before it and one after it. */
  predicate UrlRest(t: string) {
    (forall i :: 0 <= i < |t| ==> !IsWhitespace(t[i])) &&
    exists i :: 0 < i < |t| - 1 && t[i] == '.'
  }

  /** `/^https?:\/\/\S+\.\S+$/`. */
  predicate IsHttpUrl(s: string) {
    (|s| >= 7 && s[..7] == "http://" && UrlRest(s[7..])) ||
    (|s| >= 8 && s[..8] == "https://" && UrlRest(s[8..]))
  }

  /** The avatar is optional: the empty string passes without the URL test. */
  predicate AvatarAccepted(avatar: string) {
    avatar == "" || IsHttpUrl(avatar)
  }

  /** The empty avatar and a web address pass the avatar check. */
  lemma AvatarAcceptedExamples()
    ensures AvatarAccepted("")
    ensures AvatarAccepted("https://a.io")
  {
    var s := "https://a.io";
    assert s[..8] == "https://";
    assert s[8..] == "a.io";
    assert "a.io"[1] == '.';
  }

  /** Another scheme, a host without a dot and an address with a space fail. */
  lemma AvatarRejectedExamples()
    ensures !AvatarAccepted("ftp://a.io")
    ensures !AvatarAccepted("http://host")
    ensures !AvatarAccepted("https://a b.io")
  {
    var ftp := "ftp://a.io";
    assert ftp[0] != "http://"[0];
    var host := "http://host";
    assert host[..8] != "https://" by { assert host[4] != 's'; }
    assert host[7..] == "host";
    assert forall i :: 0 <= i < 4 ==> "host"[i] != '.';
    var space := "https://a b.io";
    assert space[..7] != "http://" by { assert space[4] != ':'; }
    assert space[8..][1] == ' ';
  }

  /** The keys of the `errors` object. */
  datatype Field = NameField | EmailField | PasswordField | AvatarField

  const NameMessage: string := "Username can only contain letters, numbers, and underscores."
  const EmailMessage: string := "Email must be a valid stud.noroff.no address."
  const PasswordMessage: string := "Password must be at least 8 characters."
  const AvatarMessage: string := "Avatar must be a valid URL."

  function MessageFor(f: Field): string {
    match f
    case NameField => NameMessage
    case EmailField => EmailMessage
    case PasswordField => PasswordMessage
    case AvatarField => AvatarMessage
  }

  /** Whether one field passes its own check, independently of the others. */
  predicate FieldPasses(f: Field, name: string, email: string, password: string, avatar: string) {
    match f
    case NameField => ValidName(name)
    case EmailField => ValidEmail(email)
    case PasswordField => ValidPassword(password)
    case AvatarField => AvatarAccepted(avatar)
  }

  const AllFields: set<Field> := {NameField, EmailField, PasswordField, AvatarField}

  /** `errors` is the object `validateForm` builds: it has a key exactly for
      each field that fails its check, holding that field's message. */
  predicate IsErrorMap(errors: map<Field, string>, name: string, email: string, password: string, avatar: string) {
    (NameField in errors <==> !ValidName(name)) &&
    (EmailField in errors <==> !ValidEmail(email)) &&
    (PasswordField in errors <==> !ValidPassword(password)) &&
    (AvatarField in errors <==> !AvatarAccepted(avatar)) &&
    forall f :: f in errors ==> errors[f] == MessageFor(f)
  }

  /** The error map as a comprehension over the fields. */
  function FieldErrors(name: string, email: string, password: string, avatar: string): (errors: map<Field, string>)
    ensures IsErrorMap(errors, name, email, password, avatar)
  {
    var errors := map f | f in AllFields && !FieldPasses(f, name, email, password, avatar) :: MessageFor(f);
    assert !ValidName(name) ==> NameField in errors;
    assert !ValidEmail(email) ==> EmailField in errors;
    assert !ValidPassword(password) ==> PasswordField in errors;
    assert !AvatarAccepted(avatar) ==> AvatarField in errors;
    errors
  }

  /** The four checks fix the error map: there is only one. */
  lemma ErrorMapUnique(a: map<Field, string>, b: map<Field, string>,
                       name: string, email: string, password: string, avatar: string)
    requires IsErrorMap(a, name, email, password, avatar)
    requires IsErrorMap(b, name, email, password, avatar)
    ensures a == b
  {
    assert forall f :: f in a <==> f in b by {
      forall f ensures f in a <==> f in b {
        match f
        case NameField =>
        case EmailField =>
        case PasswordField =>
        case AvatarField =>
      }
    }
  }

  /** The error map is empty exactly when all four fields pass. */
  lemma ErrorMapEmpty(errors: map<Field, string>, name: string, email: string, password: string, avatar: string)
    requires IsErrorMap(errors, name, email, password, avatar)
    ensures errors == map[] <==>
      ValidName(name) && ValidEmail(email) && ValidPassword(password) && AvatarAccepted(avatar)
  {
    if ValidName(name) && ValidEmail(email) && ValidPassword(password) && AvatarAccepted(avatar) {
      forall f ensures f !in errors {
        match f
        case NameField =>
        case EmailField =>
        case PasswordField =>
        case AvatarField =>
      }
    }
  }

  /** How `handleRegister` answered: `result.success`, or its `message`
      (the empty string when it has none). */
  datatype RegisterOutcome = Registered | Failed(message: string)

  /** The component's state: its `useState` variables. The inputs' `onChange`
      handlers only assign these fields. */
  class RegisterForm {
    var name: string
    var email: string
    var password: string
    var avatar: string
    var error: string
    var success: bool
    var fieldErrors: map<Field, string>
    var venueManager: bool

    constructor ()
      ensures name == "" && email == "" && password == "" && avatar == ""
      ensures error == "" && !success && fieldErrors == map[] && !venueManager
    {
      name, email, password, avatar := "", "", "", "";
      error, success, fieldErrors, venueManager := "", false, map[], false;
    }

    /** `validateForm`: adds one key per failing field, stores the map and
        reports whether it is empty. */
    method ValidateForm() returns (ok: bool)
      modifies this`fieldErrors
      ensures IsErrorMap(fieldErrors, name, email, password, avatar)
      ensures ok <==> fieldErrors == map[]
    {
      var errors: map<Field, string> := map[];
      if !ValidName(name) {
        errors := errors[NameField := NameMessage];
      }
      if !ValidEmail(email) {
        errors := errors[EmailField := EmailMessage];
      }
      if !ValidPassword(password) {
        errors := errors[PasswordField := PasswordMessage];
      }
      if avatar != "" && !IsHttpUrl(avatar) {
        errors := errors[AvatarField := AvatarMessage];
      }
      fieldErrors := errors;
      ok := |errors| == 0;
      assert ok <==> errors == map[] by {
        if errors != map[] {
          var f :| f in errors;
        }
      }
    }

    /** `handleSubmit`, with `handleRegister` replaced by its `outcome`: an
        invalid form returns before registering and `submitted` is false; a
        valid one is submitted, and a registration clears the four text
        fields; `venueManager` is kept. */
    method HandleSubmit(outcome: RegisterOutcome) returns (submitted: bool)
      modifies this
      ensures IsErrorMap(fieldErrors, old(name), old(email), old(password), old(avatar))
      ensures submitted <==> fieldErrors == map[]
      ensures !submitted ==>
        name == old(name) && email == old(email) && password == old(password) &&
        avatar == old(avatar) && error == old(error) && success == old(success)
      ensures submitted && outcome == Registered ==>
        success && error == "" && name == "" && email == "" && password == "" && avatar == ""
      ensures submitted && outcome.Failed? ==>
        !success && error == (if outcome.message != "" then outcome.message else "Registration failed") &&
        name == old(name) && email == old(email) && password == old(password) && avatar == old(avatar)
      ensures venueManager == old(venueManager)
    {
      submitted := ValidateForm();
      if !submitted {
        return;
      }
      error := "";
      success := false;
      match outcome
      case Registered =>
        success := true;
        name, email, password, avatar := "", "", "", "";
      case Failed(message) =>
        error := if message != "" then message else "Registration failed";
    }
  }
}
