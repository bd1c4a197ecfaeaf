/** The sign-up form (SignUp.jsx): it checks that the passwords agree, then the e-mail
    address against `^[^\s@]+@[^\s@]+\.[^\s@]+$`, and only then registers through the
    session; any registration failure is reported with one fixed text. */
module SignUp {
  import opened Js
  import opened Remote
  import opened AuthContext

  const DefaultRole := "manager"
  const PasswordsDiffer := "Passwords do not match"
  const InvalidEmail := "Invalid email format"
  const SignupFailedText := "Signup failed. Please try again."
  const SignInRoute := "/signin"

  /** `[^\s@]`. */
  predicate Plain(c: char) {
    !IsSpace(c) && c != '@'
  }

  /** `[^\s@]+`. */
  predicate AllPlain(s: string) {
    |s| > 0 && forall i :: 0 <= i < |s| ==> Plain(s[i])
  }

  /** The regular expression as written: the address splits as `a@b.c` with `a`, `b`
      and `c` non-empty runs of `[^\s@]`. */
  predicate EmailPattern(email: string) {
    exists at, dot | 0 <= at < dot < |email| ::
      && email[at] == '@' && email[dot] == '.'
      && AllPlain(email[..at]) && AllPlain(email[at + 1..dot]) && AllPlain(email[dot + 1..])
  }

  /** What the pattern means: no whitespace, exactly one '@' and not in front, and a '.'
      after the '@' that neither follows it at once nor ends the address. */
  predicate EmailShape(email: string) {
    exists at | 0 < at < |email| ::
      && email[at] == '@'
      && (forall j | 0 <= j < |email| :: !IsSpace(email[j]) && (email[j] == '@' ==> j == at))
      && (exists k | at + 1 < k < |email| - 1 :: email[k] == '.')
  }

  lemma PlainSlice(email: string, from: nat, to: nat, at: nat)
    requires from < to <= |email| && at < |email|
    requires forall j | 0 <= j < |email| :: !IsSpace(email[j]) && (email[j] == '@' ==> j == at)
    requires !(from <= at < to)
    ensures AllPlain(email[from..to])
  {
    forall i | 0 <= i < to - from
      ensures Plain(email[from..to][i])
    {
      assert email[from..to][i] == email[from + i];
    }
  }

  /** A split `a@b.c` into plain runs gives the shape, with the '@' at `at`. */
  lemma SplitGivesShape(email: string, at: nat, dot: nat)
    requires at < dot < |email| && email[at] == '@' && email[dot] == '.'
    requires AllPlain(email[..at]) && AllPlain(email[at + 1..dot]) && AllPlain(email[dot + 1..])
    ensures EmailShape(email)
  {
    forall j | 0 <= j < |email|
      ensures !IsSpace(email[j]) && (email[j] == '@' ==> j == at)
    {
      if j < at {
        assert email[..at][j] == email[j];
      } else if at < j < dot {
        assert email[at + 1..dot][j - at - 1] == email[j];
      } else if j > dot {
        assert email[dot + 1..][j - dot - 1] == email[j];
      }
    }
    assert |email[..at]| > 0 && |email[at + 1..dot]| > 0 && |email[dot + 1..]| > 0;
    assert at + 1 < dot < |email| - 1;
  }

  /** The shape, with its '@' at `at` and a '.' at `dot`, gives the split `a@b.c`. */
  lemma ShapeGivesSplit(email: string, at: nat, dot: nat)
    requires 0 < at && at + 1 < dot < |email| - 1 && email[at] == '@' && email[dot] == '.'
    requires forall j | 0 <= j < |email| :: !IsSpace(email[j]) && (email[j] == '@' ==> j == at)
    ensures EmailPattern(email)
  {
    PlainSlice(email, 0, at, at);
    PlainSlice(email, at + 1, dot, at);
    PlainSlice(email, dot + 1, |email|, at);
    assert email[dot + 1..] == email[dot + 1..|email|];
    assert email[..at] == email[0..at];
  }

  /** The regular expression accepts an address exactly when it has that shape. */
  lemma EmailPatternIffShape(email: string)
    ensures EmailPattern(email) <==> EmailShape(email)
  {
    if EmailPattern(email) {
      var at, dot :| 0 <= at < dot < |email| && email[at] == '@' && email[dot] == '.'
        && AllPlain(email[..at]) && AllPlain(email[at + 1..dot]) && AllPlain(email[dot + 1..]);
      SplitGivesShape(email, at, dot);
    }
    if EmailShape(email) {
      var at :| 0 < at < |email| && email[at] == '@'
        && (forall j | 0 <= j < |email| :: !IsSpace(email[j]) && (email[j] == '@' ==> j == at))
        && (exists k | at + 1 < k < |email| - 1 :: email[k] == '.');
      var dot :| at + 1 < dot < |email| - 1 && email[dot] == '.';
      ShapeGivesSplit(email, at, dot);
    }
  }

  /** A few addresses the pattern accepts and rejects. */
  lemma EmailExamples()
    ensures EmailPattern("a@b.c")
    ensures !EmailPattern("a@b")
    ensures !EmailPattern("@b.c")
    ensures !EmailPattern("a@.c")
    ensures !EmailPattern("a b@c.d")
  {
    EmailPatternIffShape("a@b.c");
    assert "a@b.c"[1] == '@' && "a@b.c"[3] == '.';
    assert "a@b.c"[..1] == "a" && "a@b.c"[2..3] == "b" && "a@b.c"[4..] == "c";
    EmailPatternIffShape("a@b");
    EmailPatternIffShape("@b.c");
    EmailPatternIffShape("a@.c");
    assert "a@.c"[2] == '.';
    EmailPatternIffShape("a b@c.d");
    assert IsSpace("a b@c.d"[1]);
  }

  /** The checks of `handleSignUp`, in order: the error they set, or None to go on. */
  function Validate(password: string, confirmPassword: string, email: string): (e: Option<string>)
    ensures password != confirmPassword ==> e == Some(PasswordsDiffer)
    ensures password == confirmPassword && !EmailShape(email) ==> e == Some(InvalidEmail)
    ensures e.None? <==> password == confirmPassword && EmailShape(email)
  {
    EmailPatternIffShape(email);
    if password != confirmPassword then Some(PasswordsDiffer)
    else if !EmailPattern(email) then Some(InvalidEmail)
    else None
  }

  /** The arguments `signup(name, email, password, role)` is called with. */
  datatype SignupRequest = SignupRequest(name: string, email: string, password: string, role: string)

  /** The form's state. */
  class SignUpForm {
    var name: string
    var email: string
    var password: string
    var confirmPassword: string
    var role: string
    var error: string

    constructor ()
      ensures name == "" && email == "" && password == "" && confirmPassword == ""
      ensures role == DefaultRole && error == ""
    {
      name, email, password, confirmPassword := "", "", "", "";
      role, error := DefaultRole, "";
    }

    /** The user typing into the four inputs. */
    method Fill(name': string, email': string, password': string, confirmPassword': string)
      modifies this`name, this`email, this`password, this`confirmPassword
      ensures name == name' && email == email' && password == password' && confirmPassword == confirmPassword'
    {
      name, email, password, confirmPassword := name', email', password', confirmPassword';
    }

    /** The role `<select>`: "manager", "employee" or "admin". */
    method SetRole(role': string)
      requires role' in {DefaultRole, "employee", "admin"}
      modifies this`role
      ensures role == role'
    {
      role := role';
    }

    /** `handleSignUp`: `request` is the call made to `signup`, None when a check stopped it;
        `navigateTo` is the redirect after a successful registration. */
    method HandleSignUp(session: Session, reply: Response<AuthReply>)
      returns (request: Option<SignupRequest>, navigateTo: Option<string>)
      modifies this`error, session
      ensures Validate(password, confirmPassword, email).Some? ==>
        && error == Validate(password, confirmPassword, email).value
        && request.None? && navigateTo.None?
        && session.Snapshot() == old(session.Snapshot())
      ensures Validate(password, confirmPassword, email).None? ==>
        && request == Some(SignupRequest(name, email, password, role))
        && session.Snapshot() == AfterAuth(old(session.Snapshot()), reply)
      ensures Validate(password, confirmPassword, email).None? && reply.Ok? ==>
        error == "" && navigateTo == Some(SignInRoute)
      ensures Validate(password, confirmPassword, email).None? && reply.Failed? ==>
        error == SignupFailedText && navigateTo.None?
    {
      error := "";
      var invalid := Validate(password, confirmPassword, email);
      if invalid.Some? {
        error := invalid.value;
        return None, None;
      }
      request := Some(SignupRequest(name, email, password, role));
      var thrown := session.Signup(reply);
      if thrown.Some? {
        error := SignupFailedText;
        navigateTo := None;
      } else {
        navigateTo := Some(SignInRoute);
      }
    }
  }
}
