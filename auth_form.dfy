/** The sign-in / sign-up form (app/auth/index.tsx): the form state, validation
    into an error map, the mode switch, field edits, and the call `handleAuth`
    makes to the authentication service. */
module AuthForm {
  import opened Wrappers

  const EmailRequired: string := "Email is required"
  const EmailInvalid: string := "Please enter a valid email"
  const PasswordRequired: string := "Password is required"
  const PasswordTooShort: string := "Password must be at least 6 characters"
  const NameRequired: string := "Full name is required"
  const DepartmentRequired: string := "Department is required"
  const StudentIdRequired: string := "Student ID is required"
  const AuthenticationFailed: string := "Authentication failed"

  const MinPasswordLength: nat := 6

  // ---------------------------------------------------------------- the email pattern

  /** A character that JavaScript's `\s` matches: the WhiteSpace and LineTerminator
      code points of ECMAScript, including every space separator. */
  predicate IsSpace(c: char) {
    var n := c as int;
    || 0x09 <= n <= 0x0D          // tab, line feed, vertical tab, form feed, carriage return
    || n == 0x20 || n == 0xA0     // space, no-break space
    || n == 0x1680                // ogham space mark
    || 0x2000 <= n <= 0x200A      // en quad .. hair space
    || n == 0x2028 || n == 0x2029 // line and paragraph separators
    || n == 0x202F || n == 0x205F || n == 0x3000
    || n == 0xFEFF                // byte order mark
  }

  predicate NonSpace(c: char) {
    !IsSpace(c)
  }

  predicate NonSpaceRun(s: string, i: int, j: int)
    requires 0 <= i && j <= |s|
  {
    forall k :: i <= k < j ==> NonSpace(s[k])
  }

  /** The characters `a` to `d` plus one around them (from the non-space before the
      `@` at `a` to the non-space after the `.` at `d`) match `\S@\S+\.\S`. */
  ghost predicate MatchAt(s: string, a: int, d: int) {
    && 1 <= a && a + 1 < d && d + 1 < |s| && s[a] == '@' && s[d] == '.'
    && NonSpace(s[a - 1]) && NonSpace(s[d + 1]) && NonSpaceRun(s, a + 1, d)
  }

  /** The text contains a match of `\S+@\S+\.\S+`: an `@` after a non-space, then at
      least one non-space, a `.` and one more non-space, with no space between the
      `@` and the `.`. */
  ghost predicate EmailPattern(s: string) {
    exists a, d :: MatchAt(s, a, d)
  }

  /** The live states of the pattern's automaton after a prefix of the text: inside
      the part before `@`, just past the `@`, inside the part after it, just past a
      `.`, and matched. */
  datatype Scan = Scan(local: bool, at: bool, domain: bool, dot: bool, matched: bool)

  function Step(st: Scan, c: char): Scan {
    Scan(NonSpace(c), st.local && c == '@', NonSpace(c) && (st.at || st.domain),
         st.domain && c == '.', st.matched || (st.dot && NonSpace(c)))
  }

  /** The automaton's state after the first `n` characters. */
  function ScanTo(s: string, n: nat): Scan
    requires n <= |s|
  {
    if n == 0 then Scan(false, false, false, false, false) else Step(ScanTo(s, n - 1), s[n - 1])
  }

  /** `/\S+@\S+\.\S+/.test(s)`. */
  function MatchesEmail(s: string): bool {
    ScanTo(s, |s|).matched
  }

  /** From the non-space before the `@` at `a` up to position `n`, the text matches `\S@\S+`. */
  ghost predicate DomainFrom(s: string, a: int, n: int) {
    1 <= a && a + 1 < n <= |s| && s[a] == '@' && NonSpace(s[a - 1]) && NonSpaceRun(s, a + 1, n)
  }

  /** A prefix of length `n` ends inside an `\S+@\S+` match. */
  ghost predicate DomainEnds(s: string, n: nat) {
    exists a :: DomainFrom(s, a, n)
  }

  /** The prefix of length `n` contains a match. */
  ghost predicate Found(s: string, n: nat) {
    exists a, d :: d + 1 < n && MatchAt(s, a, d)
  }

  /** What each state of the automaton means about the prefix it has read. */
  lemma {:induction false} ScanMeaning(s: string, n: nat)
    requires n <= |s|
    ensures ScanTo(s, n).local <==> n >= 1 && NonSpace(s[n - 1])
    ensures ScanTo(s, n).at <==> n >= 2 && s[n - 1] == '@' && NonSpace(s[n - 2])
    ensures ScanTo(s, n).domain <==> DomainEnds(s, n)
    ensures ScanTo(s, n).dot <==> n >= 1 && s[n - 1] == '.' && DomainEnds(s, n - 1)
    ensures ScanTo(s, n).matched <==> Found(s, n)
  {
    if n > 0 {
      var m := n - 1;
      ScanMeaning(s, m);
      DomainStep(s, m);
      FoundStep(s, m);
    }
  }

  lemma DomainStep(s: string, m: nat)
    requires m < |s|
    ensures DomainEnds(s, m + 1) <==>
      NonSpace(s[m]) && ((m >= 2 && s[m - 1] == '@' && NonSpace(s[m - 2])) || DomainEnds(s, m))
  {
    if DomainEnds(s, m + 1) {
      var a :| DomainFrom(s, a, m + 1);
      assert NonSpace(s[m]);
      if a + 1 < m {
        assert DomainFrom(s, a, m);
      }
    }
    if NonSpace(s[m]) {
      if m >= 2 && s[m - 1] == '@' && NonSpace(s[m - 2]) {
        assert DomainFrom(s, m - 1, m + 1);
      }
      if DomainEnds(s, m) {
        var a :| DomainFrom(s, a, m);
        assert DomainFrom(s, a, m + 1);
      }
    }
  }

  lemma FoundStep(s: string, m: nat)
    requires m < |s|
    ensures Found(s, m + 1) <==>
      Found(s, m) || (m >= 1 && s[m - 1] == '.' && DomainEnds(s, m - 1) && NonSpace(s[m]))
  {
    if Found(s, m + 1) && !Found(s, m) {
      var a, d :| d + 1 < m + 1 && MatchAt(s, a, d);
      assert d + 1 == m;
      assert DomainFrom(s, a, d);
    }
    if m >= 1 && s[m - 1] == '.' && DomainEnds(s, m - 1) && NonSpace(s[m]) {
      var d := m - 1;
      var a :| DomainFrom(s, a, d);
      assert MatchAt(s, a, d);
    }
  }

  /** The automaton accepts exactly the texts containing a match of the pattern. */
  lemma MatchesEmailIff(s: string)
    ensures MatchesEmail(s) <==> EmailPattern(s)
  {
    ScanMeaning(s, |s|);
  }

  /** The pattern on a few addresses: it may sit inside a longer text. */
  lemma EmailsAccepted()
    ensures MatchesEmail("a@b.c")
    ensures MatchesEmail("x a@b.c y")
  {
    assert ScanTo("a@b.c", 5).matched;
    assert ScanTo("x a@b.c y", 9).matched;
  }

  /** It needs text on both sides of the `@` and after the `.`, and no space in between. */
  lemma EmailsRejected()
    ensures !MatchesEmail("a@b")
    ensures !MatchesEmail("a @b.c")
    ensures !MatchesEmail("@b.c")
    ensures !MatchesEmail("a@.c")
  {
    assert !ScanTo("a@b", 3).matched;
    assert !ScanTo("a @b.c", 6).matched;
    assert !ScanTo("@b.c", 4).matched;
    assert !ScanTo("a@.c", 4).matched;
  }

  // ---------------------------------------------------------------- password length

  /** `String.prototype.length`: UTF-16 code units, two for a character outside the
      Basic Multilingual Plane. */
  function Utf16Length(s: string): (n: nat)
    ensures |s| <= n <= 2 * |s|
  {
    if |s| == 0 then 0 else (if s[0] as int >= 0x10000 then 2 else 1) + Utf16Length(s[1..])
  }

  // ---------------------------------------------------------------- the form

  datatype Form = Form(email: string, password: string, name: string, role: string,
                       studentId: string, department: string)

  datatype FormField = Email | Password | Name | Role | StudentId | Department

  function FieldKey(f: FormField): string {
    match f
    case Email => "email"
    case Password => "password"
    case Name => "name"
    case Role => "role"
    case StudentId => "studentId"
    case Department => "department"
  }

  function FieldValue(form: Form, f: FormField): string {
    match f
    case Email => form.email
    case Password => form.password
    case Name => form.name
    case Role => form.role
    case StudentId => form.studentId
    case Department => form.department
  }

  /** `{ ...prev, [field]: value }`: only the named field takes the new value. */
  function WithField(form: Form, f: FormField, value: string): (r: Form)
    ensures FieldValue(r, f) == value
    ensures forall g :: g != f ==> FieldValue(r, g) == FieldValue(form, g)
  {
    match f
    case Email => form.(email := value)
    case Password => form.(password := value)
    case Name => form.(name := value)
    case Role => form.(role := value)
    case StudentId => form.(studentId := value)
    case Department => form.(department := value)
  }

  /** The email check of `validateForm`. */
  function EmailErrors(form: Form): map<string, string> {
    if form.email == "" then map["email" := EmailRequired]
    else if !MatchesEmail(form.email) then map["email" := EmailInvalid]
    else map[]
  }

  /** The password check of `validateForm`, added to `e`. */
  function WithPasswordErrors(e: map<string, string>, form: Form): map<string, string> {
    if form.password == "" then e["password" := PasswordRequired]
    else if Utf16Length(form.password) < MinPasswordLength then e["password" := PasswordTooShort]
    else e
  }

  /** The sign-up checks of `validateForm`, added to `e`. */
  function WithSignUpErrors(e: map<string, string>, form: Form): map<string, string> {
    var e1 := if form.name == "" then e["name" := NameRequired] else e;
    var e2 := if form.department == "" then e1["department" := DepartmentRequired] else e1;
    if form.role == "student" && form.studentId == "" then e2["studentId" := StudentIdRequired] else e2
  }

  /** The error map `validateForm` builds. */
  function FormErrors(isLogin: bool, form: Form): map<string, string> {
    var e := WithPasswordErrors(EmailErrors(form), form);
    if isLogin then e else WithSignUpErrors(e, form)
  }

  /** Which keys the error map holds, and with which message. */
  lemma FormErrorsMeaning(isLogin: bool, form: Form)
    ensures var e := FormErrors(isLogin, form);
      e.Keys <= {"email", "password", "name", "department", "studentId"}
    ensures var e := FormErrors(isLogin, form);
      && ("email" in e <==> form.email == "" || !EmailPattern(form.email))
      && ("email" in e ==> e["email"] == if form.email == "" then EmailRequired else EmailInvalid)
    ensures var e := FormErrors(isLogin, form);
      && ("password" in e <==> Utf16Length(form.password) < MinPasswordLength)
      && ("password" in e ==> e["password"] == if form.password == "" then PasswordRequired else PasswordTooShort)
    ensures var e := FormErrors(isLogin, form);
      isLogin ==> "name" !in e && "department" !in e && "studentId" !in e
    ensures var e := FormErrors(isLogin, form);
      !isLogin ==>
        && ("name" in e <==> form.name == "") && ("name" in e ==> e["name"] == NameRequired)
        && ("department" in e <==> form.department == "") && ("department" in e ==> e["department"] == DepartmentRequired)
        && ("studentId" in e <==> form.role == "student" && form.studentId == "")
        && ("studentId" in e ==> e["studentId"] == StudentIdRequired)
  {
    MatchesEmailIff(form.email);
    if form.password == "" {
      assert Utf16Length(form.password) == 0;
    }
  }

  /** When the form counts as complete, stated field by field. */
  ghost predicate FormValid(isLogin: bool, form: Form) {
    && EmailPattern(form.email)
    && Utf16Length(form.password) >= MinPasswordLength
    && (!isLogin ==> form.name != "" && form.department != "" && (form.role == "student" ==> form.studentId != ""))
  }

  /** `validateForm` returns true exactly when the form is complete. */
  lemma {:induction false} FormErrorsEmptyIff(isLogin: bool, form: Form)
    ensures (FormErrors(isLogin, form) == map[] <==> FormValid(isLogin, form)) && (|FormErrors(isLogin, form)| == 0 <==> FormValid(isLogin, form))
  {
    FormErrorsMeaning(isLogin, form);
    var e := FormErrors(isLogin, form);
    if !FormValid(isLogin, form) {
      if form.email == "" {
        assert !EmailPattern(form.email);
      }
      assert "email" in e || "password" in e || "name" in e || "department" in e || "studentId" in e;
    }
    if FormValid(isLogin, form) {
      assert |form.email| > 0;
      assert e.Keys == {};
    }
  }

  /** A lecturer signing up needs no student id; a password of three characters
      outside the Basic Multilingual Plane is long enough. */
  lemma RoleAndLengthExamples(form: Form)
    requires form.name != "" && form.department != "" && form.studentId == ""
    requires MatchesEmail(form.email) && Utf16Length(form.password) >= MinPasswordLength
    ensures "studentId" !in FormErrors(false, form.(role := "lecturer"))
    ensures "studentId" in FormErrors(false, form.(role := "student"))
    ensures Utf16Length("\U{1F600}\U{1F600}\U{1F600}") == 6 && Utf16Length("ééé") == 3
  {
  }

  // ---------------------------------------------------------------- the screen

  /** The call `handleAuth` makes to the authentication service. */
  datatype AuthCall =
    | NoCall
    | SignIn(email: string, password: string)
    | SignUp(email: string, password: string, name: string, role: string, additionalData: map<string, string>)

  /** `additionalData`: a student sends the student id and department, anyone else only the department. */
  function AdditionalData(form: Form): (m: map<string, string>)
    ensures form.role == "student" ==> m.Keys == {"studentId", "department"} && m["studentId"] == form.studentId
    ensures form.role != "student" ==> m.Keys == {"department"}
    ensures m["department"] == form.department
  {
    if form.role == "student" then map["studentId" := form.studentId, "department" := form.department]
    else map["department" := form.department]
  }

  class AuthScreen {
    var isLogin: bool
    var loading: bool
    var errors: map<string, string>
    var formData: Form

    /** The screen opens in login mode with an empty form for a student. */
    constructor ()
      ensures isLogin && !loading && errors == map[]
      ensures formData == Form("", "", "", "student", "", "")
    {
      isLogin, loading, errors := true, false, map[];
      formData := Form("", "", "", "student", "", "");
    }

    /** `toggleAuthMode(mode)`: selects the mode and clears every error. */
    method ToggleAuthMode(mode: bool)
      modifies this
      ensures isLogin == mode && errors == map[]
      ensures formData == old(formData) && loading == old(loading)
    {
      isLogin := mode;
      errors := map[];
    }

    /** `validateForm`: replaces the error map with the form's errors and reports whether there are none. */
    method ValidateForm() returns (ok: bool)
      modifies this
      ensures errors == FormErrors(isLogin, formData)
      ensures ok <==> FormValid(isLogin, formData)
      ensures isLogin == old(isLogin) && formData == old(formData) && loading == old(loading)
    {
      var form := formData;
      var newErrors: map<string, string> := map[];
      if form.email == "" {
        newErrors := newErrors["email" := EmailRequired];
      } else if !MatchesEmail(form.email) {
        newErrors := newErrors["email" := EmailInvalid];
      }
      if form.password == "" {
        newErrors := newErrors["password" := PasswordRequired];
      } else if Utf16Length(form.password) < MinPasswordLength {
        newErrors := newErrors["password" := PasswordTooShort];
      }
      if !isLogin {
        newErrors := AddSignUpErrors(newErrors, form);
      }
      FormErrorsEmptyIff(isLogin, form);
      errors := newErrors;
      ok := |newErrors| == 0;
    }

    /** The sign-up checks of `validateForm`, added to the errors found so far. */
    static method AddSignUpErrors(e: map<string, string>, form: Form) returns (r: map<string, string>)
      ensures r == WithSignUpErrors(e, form)
    {
      r := e;
      if form.name == "" {
        r := r["name" := NameRequired];
      }
      if form.department == "" {
        r := r["department" := DepartmentRequired];
      }
      if form.role == "student" && form.studentId == "" {
        r := r["studentId" := StudentIdRequired];
      }
    }

    /** `updateFormData(field, value)`: sets that field, and blanks that field's error
        when it shows one; every other field and error is kept. */
    method UpdateFormData(field: FormField, value: string)
      modifies this
      ensures formData == WithField(old(formData), field, value)
      ensures var k := FieldKey(field);
        errors == (if k in old(errors) && old(errors)[k] != "" then old(errors)[k := ""] else old(errors))
      ensures isLogin == old(isLogin) && loading == old(loading)
    {
      formData := WithField(formData, field, value);
      var k := FieldKey(field);
      if k in errors && errors[k] != "" {
        errors := errors[k := ""];
      }
    }

    /** `handleAuth`: no call when validation fails; otherwise a sign-in in login mode
        or a sign-up with the role's additional data. `failure` is the message the
        service's call throws, if it throws; it replaces the errors with a general
        one. */
    method HandleAuth(failure: Option<string>) returns (call: AuthCall)
      modifies this
      ensures isLogin == old(isLogin) && formData == old(formData)
      ensures !FormValid(isLogin, formData) ==>
        call == NoCall && errors == FormErrors(isLogin, formData) && loading == old(loading)
      ensures FormValid(isLogin, formData) ==> !loading
      ensures FormValid(isLogin, formData) && isLogin ==> call == SignIn(formData.email, formData.password)
      ensures FormValid(isLogin, formData) && !isLogin ==>
        call == SignUp(formData.email, formData.password, formData.name, formData.role, AdditionalData(formData))
      ensures FormValid(isLogin, formData) && failure.None? ==> errors == map[]
      ensures FormValid(isLogin, formData) && failure.Some? ==>
        errors == map["general" := if failure.value == "" then AuthenticationFailed else failure.value]
    {
      var ok := ValidateForm();
      FormErrorsEmptyIff(isLogin, formData);
      if !ok {
        return NoCall;
      }
      loading := true;
      if isLogin {
        call := SignIn(formData.email, formData.password);
      } else {
        call := SignUp(formData.email, formData.password, formData.name, formData.role, AdditionalData(formData));
      }
      if failure.Some? {
        errors := map["general" := if failure.value == "" then AuthenticationFailed else failure.value];
      }
      loading := false;
    }
  }
}
