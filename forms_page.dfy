/**
 * The contact form of the forms tutorial: `validateForm` checks the three
 * fields and stores a fresh error map, `handleSubmit` marks the form as sent
 * when the map is empty.
 */
module FormsPage {
  import opened Js
  import opened Text

  const NameRequired: string := "名前は必須です"
  const EmailRequired: string := "メールアドレスは必須です"
  const EmailMalformed: string := "有効なメールアドレスを入力してください"
  const MessageRequired: string := "メッセージは必須です"
  const MessageTooShort: string := "メッセージは10文字以上で入力してください"
  const MinMessageLength: nat := 10

  // ---------------------------------------------------------------------------
  // The address pattern /^[^\s@]+@[^\s@]+\.[^\s@]+$/
  // ---------------------------------------------------------------------------

  /** A character the class `[^\s@]` admits. */
  predicate PlainChar(c: char) {
    !IsWhitespace(c) && c != '@'
  }

  /** `s` is matched entirely by `[^\s@]+`. */
  predicate PlainRun(s: string) {
    |s| > 0 && forall i :: 0 <= i < |s| ==> PlainChar(s[i])
  }

  /** The pattern read as a regular expression: the address splits, at an `@`
      and a later `.`, into three non-empty runs of `[^\s@]`. */
  ghost predicate MatchesEmailPattern(s: string) {
    exists at: nat, dot: nat ::
      && at < dot < |s| && s[at] == '@' && s[dot] == '.'
      && PlainRun(s[..at]) && PlainRun(s[at + 1..dot]) && PlainRun(s[dot + 1..])
  }

  /** A `.` somewhere other than the first and last character. */
  predicate HasInnerDot(d: string) {
    |d| >= 3 && '.' in d[1..|d| - 1]
  }

  /** The test written out: the text before the first `@` and the text after
      it are runs of `[^\s@]`, and the domain has an inner `.`. */
  predicate IsEmailShape(s: string) {
    match IndexOf(s, '@')
    case None => false
    case Some(at) => PlainRun(s[..at]) && PlainRun(s[at + 1..]) && HasInnerDot(s[at + 1..])
  }

  lemma ShapeImpliesPattern(s: string)
    requires IsEmailShape(s)
    ensures MatchesEmailPattern(s)
  {
    var at := IndexOf(s, '@').value;
    var d := s[at + 1..];
    var k :| 0 <= k < |d[1..|d| - 1]| && d[1..|d| - 1][k] == '.';
    var dot := at + 2 + k;
    assert s[dot] == '.';
    assert s[at + 1..dot] == d[..k + 1];
    assert s[dot + 1..] == d[k + 2..];
    assert PlainRun(s[at + 1..dot]);
    assert PlainRun(s[dot + 1..]);
  }

  /** An `@` preceded by a run of `[^\s@]` is the first `@`. */
  lemma FirstAtSign(s: string, at: nat)
    requires at < |s| && s[at] == '@' && PlainRun(s[..at])
    ensures IndexOf(s, '@') == Some(at)
  {
    assert forall i :: 0 <= i < at ==> s[..at][i] == s[i];
  }

  /** Two runs of `[^\s@]` around a `.` form a domain with an inner `.`. */
  lemma DottedDomain(left: string, right: string)
    requires PlainRun(left) && PlainRun(right)
    ensures PlainRun(left + "." + right)
    ensures HasInnerDot(left + "." + right)
  {
    var d := left + "." + right;
    assert d[1..|d| - 1][|left| - 1] == '.';
  }

  /** An address split by an `@` and a later `.` into three runs of
      `[^\s@]` passes the written-out test. */
  lemma ShapeOfParts(s: string, at: nat, dot: nat)
    requires at < dot < |s| && s[at] == '@' && s[dot] == '.'
    requires PlainRun(s[..at]) && PlainRun(s[at + 1..dot]) && PlainRun(s[dot + 1..])
    ensures IsEmailShape(s)
  {
    FirstAtSign(s, at);
    var d := s[at + 1..];
    assert d == s[at + 1..dot] + "." + s[dot + 1..];
    DottedDomain(s[at + 1..dot], s[dot + 1..]);
  }

  lemma PatternImpliesShape(s: string)
    requires MatchesEmailPattern(s)
    ensures IsEmailShape(s)
  {
    var at: nat, dot: nat :| && at < dot < |s| && s[at] == '@' && s[dot] == '.'
      && PlainRun(s[..at]) && PlainRun(s[at + 1..dot]) && PlainRun(s[dot + 1..]);
    ShapeOfParts(s, at, dot);
  }

  /** The written-out test and the pattern accept the same addresses. */
  lemma EmailShapeMatchesPattern(s: string)
    ensures IsEmailShape(s) <==> MatchesEmailPattern(s)
  {
    if IsEmailShape(s) {
      ShapeImpliesPattern(s);
    }
    if MatchesEmailPattern(s) {
      PatternImpliesShape(s);
    }
  }

  /** An address matching the pattern holds no whitespace at all. */
  lemma PatternExcludesWhitespace(s: string, i: nat)
    requires MatchesEmailPattern(s) && i < |s|
    ensures !IsWhitespace(s[i])
  {
    var at: nat, dot: nat :| && at < dot < |s| && s[at] == '@' && s[dot] == '.'
      && PlainRun(s[..at]) && PlainRun(s[at + 1..dot]) && PlainRun(s[dot + 1..]);
    if i < at {
      assert s[..at][i] == s[i];
    } else if at < i < dot {
      assert s[at + 1..dot][i - at - 1] == s[i];
    } else if dot < i {
      assert s[dot + 1..][i - dot - 1] == s[i];
    }
  }

  /** The same for the whole address: it is not blank, and no character of
      it is whitespace. */
  lemma PatternHasNoWhitespace(s: string)
    ensures MatchesEmailPattern(s) ==> |s| > 0 && forall i :: 0 <= i < |s| ==> !IsWhitespace(s[i])
  {
    if MatchesEmailPattern(s) {
      forall i | 0 <= i < |s|
        ensures !IsWhitespace(s[i])
      {
        PatternExcludesWhitespace(s, i);
      }
    }
  }

  // ---------------------------------------------------------------------------
  // The field rules and the error map
  // ---------------------------------------------------------------------------

  /** The map entry for one field: present exactly when the field has an error. */
  function Entry(key: string, e: Option<string>): map<string, string> {
    match e
    case None => map[]
    case Some(msg) => map[key := msg]
  }

  /** The error map built from the outcomes of the five tests: blank name,
      blank address, address matching the pattern, blank message, message
      shorter than 10 characters. The address and the message each get at
      most one error, the first test that fails. */
  function ErrorMap(nameBlank: bool, emailBlank: bool, emailShaped: bool,
                    messageBlank: bool, messageShort: bool): (r: map<string, string>)
  {
    Entry("name", if nameBlank then Some(NameRequired) else None)
    + Entry("email", if emailBlank then Some(EmailRequired)
                     else if !emailShaped then Some(EmailMalformed) else None)
    + Entry("message", if messageBlank then Some(MessageRequired)
                       else if messageShort then Some(MessageTooShort) else None)
  }

  /** The error map `validateForm` builds for the three fields. Blankness is
      judged on the trimmed text, the pattern and the length on the text as
      typed. */
  function FieldErrors(name: string, email: string, message: string): (r: map<string, string>)
  {
    ErrorMap(IsBlank(name), IsBlank(email), IsEmailShape(email), IsBlank(message),
             |message| < MinMessageLength)
  }

  /** The name error is present exactly when the name is empty or whitespace. */
  lemma NameRule(name: string, email: string, message: string)
    ensures "name" in FieldErrors(name, email, message) <==> AllWhitespace(name)
    ensures "name" in FieldErrors(name, email, message) ==> FieldErrors(name, email, message)["name"] == NameRequired
  {
  }

  /** The e-mail field gets the required error exactly when it is blank, and
      otherwise the format error exactly when it fails the pattern. */
  lemma EmailRule(name: string, email: string, message: string)
    ensures var errors := FieldErrors(name, email, message);
      && (("email" in errors && errors["email"] == EmailRequired) <==> AllWhitespace(email))
      && (("email" in errors && errors["email"] == EmailMalformed)
            <==> !AllWhitespace(email) && !MatchesEmailPattern(email))
      && ("email" !in errors <==> MatchesEmailPattern(email))
  {
    EmailShapeMatchesPattern(email);
    PatternHasNoWhitespace(email);
  }

  /** An address with whitespace around it is reported as malformed, not as
      missing, because the pattern sees the untrimmed text. */
  lemma PaddedAddressIsMalformed(name: string, email: string, message: string)
    requires !AllWhitespace(email)
    requires IsWhitespace(email[0]) || IsWhitespace(email[|email| - 1])
    ensures FieldErrors(name, email, message)["email"] == EmailMalformed
  {
    EmailShapeMatchesPattern(email);
    PatternHasNoWhitespace(email);
  }

  /** The message gets the required error exactly when it is blank, and
      otherwise the too-short error exactly when it has fewer than 10
      characters. */
  lemma MessageRule(name: string, email: string, message: string)
    ensures var errors := FieldErrors(name, email, message);
      && (("message" in errors && errors["message"] == MessageRequired) <==> AllWhitespace(message))
      && (("message" in errors && errors["message"] == MessageTooShort)
            <==> !AllWhitespace(message) && |message| < 10)
  {
  }

  /** Only the three field names are keys, and the form is valid exactly when
      every field passes its rule. */
  lemma ErrorMapShape(name: string, email: string, message: string)
    ensures FieldErrors(name, email, message).Keys <= {"name", "email", "message"}
    ensures FieldErrors(name, email, message) == map[]
      <==> !AllWhitespace(name) && MatchesEmailPattern(email)
           && !AllWhitespace(message) && |message| >= 10
  {
    EmailRule(name, email, message);
    var errors := FieldErrors(name, email, message);
    if errors == map[] {
      assert "name" !in errors && "email" !in errors && "message" !in errors;
    }
  }

  /** The body of `validateForm`: a fresh map filled by one `if` per field. */
  method BuildErrors(nameBlank: bool, emailBlank: bool, emailShaped: bool,
                     messageBlank: bool, messageShort: bool)
    returns (newErrors: map<string, string>)
    ensures newErrors == ErrorMap(nameBlank, emailBlank, emailShaped, messageBlank, messageShort)
  {
    newErrors := map[];
    ghost var e1 := if nameBlank then Some(NameRequired) else None;
    ghost var e2 := if emailBlank then Some(EmailRequired) else if !emailShaped then Some(EmailMalformed) else None;
    ghost var e3 := if messageBlank then Some(MessageRequired) else if messageShort then Some(MessageTooShort) else None;
    if nameBlank {
      newErrors := newErrors["name" := NameRequired];
    }
    assert newErrors == Entry("name", e1);
    ghost var m1 := newErrors;
    if emailBlank {
      newErrors := newErrors["email" := EmailRequired];
    } else if !emailShaped {
      newErrors := newErrors["email" := EmailMalformed];
    }
    assert newErrors == m1 + Entry("email", e2);
    ghost var m2 := newErrors;
    if messageBlank {
      newErrors := newErrors["message" := MessageRequired];
    } else if messageShort {
      newErrors := newErrors["message" := MessageTooShort];
    }
    assert newErrors == m2 + Entry("message", e3);
  }

  // ---------------------------------------------------------------------------
  // The page state and its handlers
  // ---------------------------------------------------------------------------

  class FormsTutorial {
    var name: string
    var email: string
    var message: string
    var submitted: bool
    var errors: map<string, string>

    constructor ()
      ensures name == "" && email == "" && message == ""
      ensures !submitted && errors == map[]
    {
      name, email, message := "", "", "";
      submitted := false;
      errors := map[];
    }

    /** The three `onChange` handlers: they change one field and nothing else. */
    method SetName(value: string)
      modifies this
      ensures name == value
      ensures email == old(email) && message == old(message)
      ensures submitted == old(submitted) && errors == old(errors)
    {
      name := value;
    }

    method SetEmail(value: string)
      modifies this
      ensures email == value
      ensures name == old(name) && message == old(message)
      ensures submitted == old(submitted) && errors == old(errors)
    {
      email := value;
    }

    method SetMessage(value: string)
      modifies this
      ensures message == value
      ensures name == old(name) && email == old(email)
      ensures submitted == old(submitted) && errors == old(errors)
    {
      message := value;
    }

    /** `validateForm`: the stored map is replaced by the one just built, and
        the form is valid exactly when that map is empty. */
    method ValidateForm() returns (valid: bool)
      modifies this
      ensures errors == FieldErrors(name, email, message)
      ensures valid <==> errors == map[]
      ensures name == old(name) && email == old(email) && message == old(message)
      ensures submitted == old(submitted)
    {
      var nameBlank, emailBlank, emailShaped, messageBlank :=
        IsBlank(name), IsBlank(email), IsEmailShape(email), IsBlank(message);
      var newErrors := BuildErrors(nameBlank, emailBlank, emailShaped, messageBlank,
                                   |message| < MinMessageLength);
      errors := newErrors;
      valid := |newErrors| == 0;
    }

    /** `handleSubmit` without its reset timer: a valid form is marked as
        sent; an invalid one only has its errors refreshed. */
    method HandleSubmit()
      modifies this
      ensures errors == FieldErrors(name, email, message)
      ensures submitted == (old(submitted) || errors == map[])
      ensures name == old(name) && email == old(email) && message == old(message)
    {
      var valid := ValidateForm();
      if valid {
        submitted := true;
      }
    }
  }
}
