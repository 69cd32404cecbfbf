/**
 * The input validation rules of the sign-in, sign-up, password, profile,
 * two-factor, provider-unlink and account-deletion forms. Each Zod schema is
 * a function from a typed form record to the list of issues Zod reports, in
 * Zod's order (fields in declaration order, each field's checks in order,
 * object refinements after the fields). Each comes with an acceptance
 * predicate written as a plain rule, and its contract says the two agree.
 */
module AuthSchemas {
  import opened Wrappers
  import opened Text
  import opened ZodIssues

  /**
   * The library's built-in `.email()` and `.url()` format checks, whose code
   * is not part of this model: the schemas take them as given predicates.
   */
  datatype FormatChecks = FormatChecks(isEmail: string -> bool, isUrl: string -> bool)

  // Messages, as the schemas state them.
  const EMAIL_REQUIRED := "이메일을 입력해주세요"
  const EMAIL_FORMAT := "올바른 이메일 형식이 아닙니다"
  const EMAIL_TOO_LONG := "이메일이 너무 깁니다"
  const PASSWORD_TOO_SHORT := "비밀번호는 최소 8자 이상이어야 합니다"
  const PASSWORD_TOO_LONG := "비밀번호가 너무 깁니다"
  const PASSWORD_WEAK := "비밀번호는 영문 대소문자와 숫자를 포함해야 합니다"
  const NAME_TOO_SHORT := "이름은 최소 2자 이상이어야 합니다"
  const NAME_TOO_LONG := "이름이 너무 깁니다"
  const NAME_CHARACTERS := "이름에는 한글, 영문, 공백만 사용할 수 있습니다"
  const PASSWORD_REQUIRED := "비밀번호를 입력해주세요"
  const TERMS_REQUIRED := "서비스 이용약관에 동의해주세요"
  const PASSWORD_MISMATCH := "비밀번호가 일치하지 않습니다"
  const URL_FORMAT := "올바른 URL 형식이 아닙니다"
  const BIO_TOO_LONG := "자기소개는 500자 이하로 작성해주세요"
  const LOCATION_TOO_LONG := "위치는 100자 이하로 작성해주세요"
  const CURRENT_PASSWORD_REQUIRED := "현재 비밀번호를 입력해주세요"
  const NEW_PASSWORD_MISMATCH := "새 비밀번호가 일치하지 않습니다"
  const NEW_PASSWORD_SAME := "새 비밀번호는 현재 비밀번호와 달라야 합니다"
  const TOTP_LENGTH := "인증 코드는 6자리입니다"
  const TOTP_DIGITS := "숫자만 입력해주세요"
  const PROVIDER_UNSUPPORTED := "지원하지 않는 소셜 로그인 제공자입니다"
  const DELETE_CONFIRMATION := "'DELETE'를 정확히 입력해주세요"

  const PROVIDERS: seq<string> := ["google", "github", "discord", "apple"]

  // ---------------------------------------------------------------------
  // Field rules

  /** The `email` rule: non-empty, a valid address, at most 255 code units. */
  predicate ValidEmail(fc: FormatChecks, s: string) {
    1 <= JsLength(s) <= 255 && fc.isEmail(s)
  }

  function EmailIssues(fc: FormatChecks, field: string, s: string): (r: seq<Issue>)
    ensures r == [] <==> ValidEmail(fc, s)
    ensures forall i :: 0 <= i < |r| ==> r[i].path == [field]
  {
    MinLength([field], s, 1, EMAIL_REQUIRED)
      + Check([field], fc.isEmail(s), EMAIL_FORMAT)
      + MaxLength([field], s, 255, EMAIL_TOO_LONG)
  }

  /** The character classes of the password's lookaheads. */
  datatype CharClass = Lower | Upper | Digit

  predicate InClass(c: char, k: CharClass) {
    match k
    case Lower => IsAsciiLower(c)
    case Upper => IsAsciiUpper(c)
    case Digit => IsAsciiDigit(c)
  }

  /**
   * The lookahead `(?=.*[k])` tried at the start of `s`: `.` matches any
   * character except a line terminator, so the class must occur before the
   * first line terminator.
   */
  predicate LookaheadFinds(s: string, k: CharClass) {
    if s == [] then false
    else if InClass(s[0], k) then true
    else if IsLineTerminator(s[0]) then false
    else LookaheadFinds(s[1..], k)
  }

  /** The pattern `^(?=.*[a-z])(?=.*[A-Z])(?=.*\d)`. */
  predicate PasswordPattern(p: string) {
    LookaheadFinds(p, Lower) && LookaheadFinds(p, Upper) && LookaheadFinds(p, Digit)
  }

  /** The `password` strength rule: 8 to 128 code units and the pattern. */
  predicate StrongPassword(p: string) {
    8 <= JsLength(p) <= 128 && PasswordPattern(p)
  }

  function PasswordIssues(field: string, p: string): (r: seq<Issue>)
    ensures r == [] <==> StrongPassword(p)
    ensures forall i :: 0 <= i < |r| ==> r[i].path == [field]
  {
    MinLength([field], p, 8, PASSWORD_TOO_SHORT)
      + MaxLength([field], p, 128, PASSWORD_TOO_LONG)
      + Check([field], PasswordPattern(p), PASSWORD_WEAK)
  }

  /** A lookahead that succeeds has found a character of its class somewhere. */
  lemma {:induction false} LookaheadFound(s: string, k: CharClass)
    requires LookaheadFinds(s, k)
    ensures exists i :: 0 <= i < |s| && InClass(s[i], k)
  {
    if !InClass(s[0], k) {
      LookaheadFound(s[1..], k);
      var i :| 0 <= i < |s[1..]| && InClass(s[1..][i], k);
      assert InClass(s[i + 1], k);
    }
  }

  /** On a single line, the lookahead succeeds exactly when the class occurs. */
  lemma {:induction false} LookaheadOneLine(s: string, k: CharClass)
    requires forall i :: 0 <= i < |s| ==> !IsLineTerminator(s[i])
    ensures LookaheadFinds(s, k) <==> exists i :: 0 <= i < |s| && InClass(s[i], k)
  {
    if s != [] && !InClass(s[0], k) {
      LookaheadOneLine(s[1..], k);
      if exists i :: 0 <= i < |s| && InClass(s[i], k) {
        var i :| 0 <= i < |s| && InClass(s[i], k);
        assert i > 0 && InClass(s[1..][i - 1], k);
      }
    }
  }

  /**
   * A strong password has length 8 to 128 (in code units) and contains a
   * lowercase ASCII letter, an uppercase ASCII letter and an ASCII digit.
   */
  lemma StrongPasswordContents(p: string)
    requires StrongPassword(p)
    ensures 8 <= JsLength(p) <= 128
    ensures exists i :: 0 <= i < |p| && IsAsciiLower(p[i])
    ensures exists i :: 0 <= i < |p| && IsAsciiUpper(p[i])
    ensures exists i :: 0 <= i < |p| && IsAsciiDigit(p[i])
  {
    LookaheadFound(p, Lower);
    LookaheadFound(p, Upper);
    LookaheadFound(p, Digit);
  }

  /**
   * For a password without line breaks the strength rule is exactly: length 8
   * to 128 and at least one character of each of the three classes.
   */
  lemma StrongPasswordOneLine(p: string)
    requires forall i :: 0 <= i < |p| ==> !IsLineTerminator(p[i])
    ensures StrongPassword(p) <==>
              && 8 <= JsLength(p) <= 128
              && (exists i :: 0 <= i < |p| && IsAsciiLower(p[i]))
              && (exists i :: 0 <= i < |p| && IsAsciiUpper(p[i]))
              && (exists i :: 0 <= i < |p| && IsAsciiDigit(p[i]))
  {
    LookaheadOneLine(p, Lower);
    LookaheadOneLine(p, Upper);
    LookaheadOneLine(p, Digit);
  }

  /** The as-written pattern rejects a password whose digit comes after a line break. */
  lemma LineBreakHidesDigit()
    ensures !StrongPassword("Abcdefg\n1")
  {
    assert "Abcdefg\n1"[1..] == "bcdefg\n1";
    assert "bcdefg\n1"[1..] == "cdefg\n1";
    assert "cdefg\n1"[1..] == "defg\n1";
    assert "defg\n1"[1..] == "efg\n1";
    assert "efg\n1"[1..] == "fg\n1";
    assert "fg\n1"[1..] == "g\n1";
    assert "g\n1"[1..] == "\n1";
  }

  /** A character of the name class `[가-힣a-zA-Z\s]`. */
  predicate NameChar(c: char) {
    ('가' <= c <= '힣') || IsAsciiLower(c) || IsAsciiUpper(c) || IsJsWhitespace(c)
  }

  /** The regex `^[가-힣a-zA-Z\s]+$`. */
  predicate NamePattern(n: string) {
    n != [] && forall i :: 0 <= i < |n| ==> NameChar(n[i])
  }

  /**
   * The `name` rule: 2 to 50 characters, each a Hangul syllable, an ASCII
   * letter or whitespace (all of which are one code unit each).
   */
  predicate ValidName(n: string) {
    2 <= |n| <= 50 && forall i :: 0 <= i < |n| ==> NameChar(n[i])
  }

  function NameIssues(field: string, n: string): (r: seq<Issue>)
    ensures r == [] <==> ValidName(n)
    ensures forall i :: 0 <= i < |r| ==> r[i].path == [field]
  {
    assert NamePattern(n) ==> JsLength(n) == |n|;
    MinLength([field], n, 2, NAME_TOO_SHORT)
      + MaxLength([field], n, 50, NAME_TOO_LONG)
      + Check([field], NamePattern(n), NAME_CHARACTERS)
  }

  /** `z.string().min(1, message)`: the empty string is the only one refused. */
  function RequiredIssues(field: string, s: string, message: string): (r: seq<Issue>)
    ensures r == [] <==> s != []
  {
    MinLength([field], s, 1, message)
  }

  /** The TOTP rule as a plain statement: six ASCII digits. */
  predicate ValidTotp(code: string) {
    |code| == 6 && forall i :: 0 <= i < |code| ==> IsAsciiDigit(code[i])
  }

  /** `.length(6)` followed by `.regex(/^\d+$/)`. */
  function TotpIssues(code: string): (r: seq<Issue>)
    ensures r == [] <==> ValidTotp(code)
    ensures forall i :: 0 <= i < |r| ==> r[i].path == ["totpCode"]
  {
    var digits := code != [] && forall i :: 0 <= i < |code| ==> IsAsciiDigit(code[i]);
    ExactLength(["totpCode"], code, 6, TOTP_LENGTH) + Check(["totpCode"], digits, TOTP_DIGITS)
  }

  // ---------------------------------------------------------------------
  // Form schemas

  datatype SignInInput = SignInInput(email: string, password: string, rememberMe: Option<bool>)

  predicate SignInAccepted(fc: FormatChecks, x: SignInInput) {
    ValidEmail(fc, x.email) && x.password != []
  }

  function SignInIssues(fc: FormatChecks, x: SignInInput): (r: seq<Issue>)
    ensures r == [] <==> SignInAccepted(fc, x)
  {
    EmailIssues(fc, "email", x.email) + RequiredIssues("password", x.password, PASSWORD_REQUIRED)
  }

  datatype SignUpInput = SignUpInput(
    email: string, password: string, confirmPassword: string, name: string,
    termsAccepted: bool, marketingAccepted: Option<bool>)

  predicate SignUpAccepted(fc: FormatChecks, x: SignUpInput) {
    && ValidEmail(fc, x.email)
    && StrongPassword(x.password)
    && ValidName(x.name)
    && x.termsAccepted
    && x.password == x.confirmPassword
  }

  /** Field issues first, then the object refinement that the passwords agree. */
  function SignUpIssues(fc: FormatChecks, x: SignUpInput): (r: seq<Issue>)
    ensures r == [] <==> SignUpAccepted(fc, x)
    ensures !x.termsAccepted ==> Issue(["termsAccepted"], TERMS_REQUIRED) in r
    ensures x.password != x.confirmPassword ==> r[|r| - 1] == Issue(["confirmPassword"], PASSWORD_MISMATCH)
  {
    EmailIssues(fc, "email", x.email)
      + PasswordIssues("password", x.password)
      + NameIssues("name", x.name)
      + Check(["termsAccepted"], x.termsAccepted, TERMS_REQUIRED)
      + Check(["confirmPassword"], x.password == x.confirmPassword, PASSWORD_MISMATCH)
  }

  /** Every sign-up that is accepted also passes the sign-in rules with the same credentials. */
  lemma SignUpCredentialsSignIn(fc: FormatChecks, x: SignUpInput, rememberMe: Option<bool>)
    requires SignUpAccepted(fc, x)
    ensures SignInAccepted(fc, SignInInput(x.email, x.password, rememberMe))
  {
  }

  datatype ResetPasswordRequestInput = ResetPasswordRequestInput(email: string)

  function ResetPasswordRequestIssues(fc: FormatChecks, x: ResetPasswordRequestInput): (r: seq<Issue>)
    ensures r == [] <==> ValidEmail(fc, x.email)
  {
    EmailIssues(fc, "email", x.email)
  }

  datatype ResetPasswordInput = ResetPasswordInput(password: string, confirmPassword: string)

  function ResetPasswordIssues(x: ResetPasswordInput): (r: seq<Issue>)
    ensures r == [] <==> StrongPassword(x.password) && x.password == x.confirmPassword
    ensures x.password != x.confirmPassword ==> r[|r| - 1] == Issue(["confirmPassword"], PASSWORD_MISMATCH)
  {
    PasswordIssues("password", x.password)
      + Check(["confirmPassword"], x.password == x.confirmPassword, PASSWORD_MISMATCH)
  }

  datatype UpdateProfileInput = UpdateProfileInput(
    name: Option<string>, avatarUrl: Option<string>, bio: Option<string>,
    website: Option<string>, location: Option<string>)

  /** `z.string().url().optional().or(z.literal(""))`: absent, empty, or a URL. */
  predicate UrlOrEmpty(fc: FormatChecks, o: Option<string>) {
    o.None? || o.value == "" || fc.isUrl(o.value)
  }

  predicate UpdateProfileAccepted(fc: FormatChecks, x: UpdateProfileInput) {
    && (x.name.Some? ==> ValidName(x.name.value))
    && UrlOrEmpty(fc, x.avatarUrl)
    && (x.bio.Some? ==> JsLength(x.bio.value) <= 500)
    && UrlOrEmpty(fc, x.website)
    && (x.location.Some? ==> JsLength(x.location.value) <= 100)
  }

  /**
   * The union tries the optional URL first; when that fails only by format it
   * is kept as the union's outcome unless the second option, the literal "",
   * matches.
   */
  function UrlOrEmptyIssues(fc: FormatChecks, field: string, o: Option<string>): (r: seq<Issue>)
    ensures r == [] <==> UrlOrEmpty(fc, o)
  {
    if o.None? || o.value == "" then [] else Check([field], fc.isUrl(o.value), URL_FORMAT)
  }

  function UpdateProfileIssues(fc: FormatChecks, x: UpdateProfileInput): (r: seq<Issue>)
    ensures r == [] <==> UpdateProfileAccepted(fc, x)
  {
    (if x.name.Some? then NameIssues("name", x.name.value) else [])
      + UrlOrEmptyIssues(fc, "avatar_url", x.avatarUrl)
      + (if x.bio.Some? then MaxLength(["bio"], x.bio.value, 500, BIO_TOO_LONG) else [])
      + UrlOrEmptyIssues(fc, "website", x.website)
      + (if x.location.Some? then MaxLength(["location"], x.location.value, 100, LOCATION_TOO_LONG) else [])
  }

  /** An accepted profile has a bio of at most 500 and a location of at most 100 characters. */
  lemma ProfileLengthBounds(fc: FormatChecks, x: UpdateProfileInput)
    requires UpdateProfileAccepted(fc, x)
    ensures x.bio.Some? ==> |x.bio.value| <= 500
    ensures x.location.Some? ==> |x.location.value| <= 100
  {
  }

  datatype ChangePasswordInput = ChangePasswordInput(
    currentPassword: string, newPassword: string, confirmNewPassword: string)

  predicate ChangePasswordAccepted(x: ChangePasswordInput) {
    && x.currentPassword != []
    && StrongPassword(x.newPassword)
    && x.newPassword == x.confirmNewPassword
    && x.currentPassword != x.newPassword
  }

  /** Field issues, then the confirmation refinement, then the must-differ refinement. */
  function ChangePasswordIssues(x: ChangePasswordInput): (r: seq<Issue>)
    ensures r == [] <==> ChangePasswordAccepted(x)
    ensures x.newPassword != x.confirmNewPassword ==> Issue(["confirmNewPassword"], NEW_PASSWORD_MISMATCH) in r
    ensures x.currentPassword == x.newPassword ==> r[|r| - 1] == Issue(["newPassword"], NEW_PASSWORD_SAME)
  {
    RequiredIssues("currentPassword", x.currentPassword, CURRENT_PASSWORD_REQUIRED)
      + PasswordIssues("newPassword", x.newPassword)
      + Check(["confirmNewPassword"], x.newPassword == x.confirmNewPassword, NEW_PASSWORD_MISMATCH)
      + Check(["newPassword"], x.currentPassword != x.newPassword, NEW_PASSWORD_SAME)
  }

  datatype ChangeEmailInput = ChangeEmailInput(newEmail: string, password: string)

  function ChangeEmailIssues(fc: FormatChecks, x: ChangeEmailInput): (r: seq<Issue>)
    ensures r == [] <==> ValidEmail(fc, x.newEmail) && x.password != []
  {
    EmailIssues(fc, "newEmail", x.newEmail) + RequiredIssues("password", x.password, PASSWORD_REQUIRED)
  }

  datatype Setup2FAInput = Setup2FAInput(password: string, totpCode: string)

  function Setup2FAIssues(x: Setup2FAInput): (r: seq<Issue>)
    ensures r == [] <==> x.password != [] && ValidTotp(x.totpCode)
  {
    RequiredIssues("password", x.password, PASSWORD_REQUIRED) + TotpIssues(x.totpCode)
  }

  datatype Verify2FAInput = Verify2FAInput(totpCode: string)

  function Verify2FAIssues(x: Verify2FAInput): (r: seq<Issue>)
    ensures r == [] <==> ValidTotp(x.totpCode)
  {
    TotpIssues(x.totpCode)
  }

  datatype UnlinkProviderInput = UnlinkProviderInput(provider: string, password: string)

  /** The enum's error map replaces every issue of `provider` by one message. */
  function UnlinkProviderIssues(x: UnlinkProviderInput): (r: seq<Issue>)
    ensures r == [] <==> (x.provider == "google" || x.provider == "github"
                          || x.provider == "discord" || x.provider == "apple") && x.password != []
  {
    Check(["provider"], x.provider in PROVIDERS, PROVIDER_UNSUPPORTED)
      + RequiredIssues("password", x.password, PASSWORD_REQUIRED)
  }

  datatype DeleteAccountInput = DeleteAccountInput(password: string, confirmation: string, reason: Option<string>)

  function DeleteAccountIssues(x: DeleteAccountInput): (r: seq<Issue>)
    ensures r == [] <==> x.password != [] && x.confirmation == "DELETE"
    ensures x.confirmation != "DELETE" ==> r[|r| - 1] == Issue(["confirmation"], DELETE_CONFIRMATION)
  {
    RequiredIssues("password", x.password, PASSWORD_REQUIRED)
      + Check(["confirmation"], x.confirmation == "DELETE", DELETE_CONFIRMATION)
  }

  // ---------------------------------------------------------------------
  // Helpers over any schema

  /** The object `safeParseSchema` returns. */
  datatype ParseOutcome<T> = ParseOutcome(
    success: bool, data: Option<T>, errors: Option<map<string, seq<string>>>)

  /**
   * `safeParseSchema`: on success the data and no errors; on failure no data
   * and the flattened field errors.
   */
  function SafeParseSchema<T>(schema: T -> seq<Issue>, data: T): (r: ParseOutcome<T>)
    ensures r.success <==> schema(data) == []
    ensures r.success ==> r.data == Some(data) && r.errors.None?
    ensures !r.success ==> r.data.None? && r.errors == Some(FieldErrors(schema(data)))
  {
    var issues := schema(data);
    if issues == [] then ParseOutcome(true, Some(data), None)
    else ParseOutcome(false, None, Some(FieldErrors(issues)))
  }

  /** On failure, every field in `errors` carries at least one of the schema's messages. */
  lemma SafeParseErrorsNonEmpty<T>(schema: T -> seq<Issue>, data: T)
    requires !SafeParseSchema(schema, data).success
    ensures var m := SafeParseSchema(schema, data).errors.value;
            forall k :: k in m ==> m[k] != [] && m[k] == MessagesFor(schema(data), k)
  {
    FieldErrorsSpec(schema(data));
  }

  const VALIDATION_FAILED: string := "Validation failed"

  /** The object `validateField` returns. */
  datatype FieldValidation = FieldValidation(success: bool, error: Option<string>)

  /**
   * `validateField`: success with no error, or the first issue's message, with
   * "Validation failed" when that message is empty.
   */
  function ValidateField<T>(schema: T -> seq<Issue>, data: T): (r: FieldValidation)
    ensures r.success <==> schema(data) == []
    ensures r.success ==> r.error.None?
    ensures !r.success ==> r.error.Some? && r.error.value != []
    ensures !r.success && schema(data)[0].message != [] ==> r.error == Some(schema(data)[0].message)
    ensures !r.success && schema(data)[0].message == [] ==> r.error == Some(VALIDATION_FAILED)
  {
    var issues := schema(data);
    if issues == [] then FieldValidation(true, None)
    else FieldValidation(false, Some(if issues[0].message != [] then issues[0].message else "Validation failed"))
  }
}
