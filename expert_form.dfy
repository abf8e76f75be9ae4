/** The expert sign-up form: its fields, the ordered validator, the field
    update, and the normalisation applied to the submitted data. The relay
    call that posts the submission is an input. */
module ExpertForm {
  import opened Base
  import opened Seqs
  import opened Text

  /** The form's fields, in the key order of its initial state. */
  datatype Field = FullName | CompanyName | Sector | Domain | Role | Phone | Email | LinkedIn | Location | Availability {
    function Name(): string {
      match this
      case FullName => "fullName"
      case CompanyName => "companyName"
      case Sector => "sector"
      case Domain => "domain"
      case Role => "role"
      case Phone => "phone"
      case Email => "email"
      case LinkedIn => "linkedin"
      case Location => "location"
      case Availability => "availability"
    }
  }

  /** `Object.keys(formData)`. */
  const FieldOrder: seq<Field> :=
    [FullName, CompanyName, Sector, Domain, Role, Phone, Email, LinkedIn, Location, Availability]

  /** Where a field stands in the key order. */
  function Position(f: Field): (i: nat)
    ensures i < |FieldOrder| && FieldOrder[i] == f
  {
    match f
    case FullName => 0
    case CompanyName => 1
    case Sector => 2
    case Domain => 3
    case Role => 4
    case Phone => 5
    case Email => 6
    case LinkedIn => 7
    case Location => 8
    case Availability => 9
  }

  /** The form state `formData`. */
  datatype FormData = FormData(
    fullName: string,
    companyName: string,
    sector: string,
    domain: string,
    role: string,
    phone: string,
    email: string,
    linkedin: string,
    location: string,
    availability: string)
  {
    /** `formData[field]`. */
    function Get(f: Field): string {
      match f
      case FullName => fullName
      case CompanyName => companyName
      case Sector => sector
      case Domain => domain
      case Role => role
      case Phone => phone
      case Email => email
      case LinkedIn => linkedin
      case Location => location
      case Availability => availability
    }

    /** `{ ...prev, [name]: value }`: the named field takes the value and
        every other field keeps its own. */
    function With(f: Field, value: string): (r: FormData)
      ensures r.Get(f) == value
      ensures forall g :: g != f ==> r.Get(g) == Get(g)
    {
      match f
      case FullName => this.(fullName := value)
      case CompanyName => this.(companyName := value)
      case Sector => this.(sector := value)
      case Domain => this.(domain := value)
      case Role => this.(role := value)
      case Phone => this.(phone := value)
      case Email => this.(email := value)
      case LinkedIn => this.(linkedin := value)
      case Location => this.(location := value)
      case Availability => this.(availability := value)
    }
  }

  /** The form's initial state: everything empty, availability open. */
  const InitialForm: FormData := FormData("", "", "", "", "", "", "", "", "", "Open To help")

  /** No field is empty. */
  predicate AllFilled(form: FormData) {
    forall f: Field :: form.Get(f) != ""
  }

  /** The class `[^\s@]`. */
  predicate EmailChar(c: char) {
    !IsSpace(c) && c != '@'
  }

  predicate AllEmailChars(s: string) {
    forall i :: 0 <= i < |s| ==> EmailChar(s[i])
  }

  /** `s` splits as x `@` y `.` z at positions `at` and `dot`, with x, y, z
      non-empty runs of `[^\s@]`. */
  predicate EmailSplit(s: string, at: nat, dot: nat) {
    0 < at && at + 1 < dot && dot + 1 < |s| && s[at] == '@' && s[dot] == '.' &&
    AllEmailChars(s[..at]) && AllEmailChars(s[at + 1..dot]) && AllEmailChars(s[dot + 1..])
  }

  /** The email pattern `^[^\s@]+@[^\s@]+\.[^\s@]+$`. */
  predicate EmailMatches(s: string) {
    exists at: nat, dot: nat | at < |s| && dot < |s| :: EmailSplit(s, at, dot)
  }

  predicate AtSignAt(s: string, at: nat) {
    0 < at < |s| && s[at] == '@' && forall i :: 0 <= i < |s| && i != at ==> EmailChar(s[i])
  }

  predicate DotAt(s: string, at: nat, dot: nat) {
    at + 1 < dot && dot + 1 < |s| && s[dot] == '.'
  }

  /** The pattern, character by character: no whitespace, exactly one `@`
      and not in front, and a `.` at least two characters after the `@` and
      not last. The dot need not be the last one, so `a@b.c.d` passes. */
  lemma EmailShape(s: string)
    ensures EmailMatches(s) <==> exists at: nat :: AtSignAt(s, at) && exists dot: nat :: DotAt(s, at, dot)
  {
    if EmailMatches(s) {
      var at: nat, dot: nat :| at < |s| && dot < |s| && EmailSplit(s, at, dot);
      SplitHasShape(s, at, dot);
    }
    if exists at: nat :: AtSignAt(s, at) && exists dot: nat :: DotAt(s, at, dot) {
      var at: nat :| AtSignAt(s, at) && exists dot: nat :: DotAt(s, at, dot);
      var dot: nat :| DotAt(s, at, dot);
      ShapeHasSplit(s, at, dot);
    }
  }

  /** A split of the pattern has its `@` and `.` where the shape says. */
  lemma SplitHasShape(s: string, at: nat, dot: nat)
    requires EmailSplit(s, at, dot)
    ensures AtSignAt(s, at) && DotAt(s, at, dot)
  {
    forall i | 0 <= i < |s| && i != at ensures EmailChar(s[i]) {
      if i < at {
        assert s[..at][i] == s[i];
      } else if i < dot {
        assert s[at + 1..dot][i - at - 1] == s[i];
      } else if dot < i {
        assert s[dot + 1..][i - dot - 1] == s[i];
      }
    }
  }

  /** An `@` and a `.` placed as the shape says split the string as the
      pattern does. */
  lemma ShapeHasSplit(s: string, at: nat, dot: nat)
    requires AtSignAt(s, at) && DotAt(s, at, dot)
    ensures at < |s| && dot < |s| && EmailSplit(s, at, dot)
  {
    assert AllEmailChars(s[..at]);
    assert AllEmailChars(s[at + 1..dot]);
    assert AllEmailChars(s[dot + 1..]);
  }

  /** A dot inside the domain part is allowed. */
  lemma EmailAccepts()
    ensures EmailMatches("a@b.c") && EmailMatches("a@b.c.d")
  {
    assert EmailSplit("a@b.c", 1, 3);
    assert EmailSplit("a@b.c.d", 1, 5);
  }

  /** No dot after the `@`, a space, or a second `@` fail. */
  lemma EmailRejects()
    ensures !EmailMatches("a@b") && !EmailMatches("a b@c.d") && !EmailMatches("a@@b.c")
  {
    EmailShape("a@b");
    EmailShape("a b@c.d");
    assert !EmailChar("a b@c.d"[1]);
    assert !AtSignAt("a b@c.d", 3);
    EmailShape("a@@b.c");
    assert !EmailChar("a@@b.c"[1]) && !EmailChar("a@@b.c"[2]);
    assert !AtSignAt("a@@b.c", 1) && !AtSignAt("a@@b.c", 2);
  }

  /** The phone pattern `^\+?[1-9]\d{1,14}$`. */
  predicate PhonePattern(t: string) {
    var u := if |t| > 0 && t[0] == '+' then t[1..] else t;
    2 <= |u| <= 15 && '1' <= u[0] <= '9' && AllDigits(u)
  }

  /** The phone check, applied to the digits of the input: the optional `+`
      of the pattern can never match, so it passes exactly when there are 2
      to 15 digits and the first is not 0. */
  function PhoneOk(phone: string): (ok: bool)
    ensures ok <==> 2 <= |Digits(phone)| <= 15 && '1' <= Digits(phone)[0] <= '9'
  {
    DigitsOfDigits(phone);
    PhonePatternOnDigits(Digits(phone));
    PhonePattern(Digits(phone))
  }

  /** On a string of digits the optional `+` plays no part. */
  lemma PhonePatternOnDigits(d: string)
    requires AllDigits(d)
    ensures PhonePattern(d) <==> 2 <= |d| <= 15 && '1' <= d[0] <= '9'
  {
    if |d| > 0 {
      assert IsDigit(d[0]);
    }
  }

  /** The LinkedIn check. */
  predicate LinkedInOk(linkedin: string) {
    Contains(linkedin, "linkedin.com/")
  }

  /** The outcome of `validateForm`: `Accepted` is `true`; every other
      value is `false` together with the reason the toast reports. */
  datatype Verdict = Accepted | Missing(field: Field) | BadEmail | BadPhone | BadLinkedIn {
    /** The toast's description: empty only for an accepted form; a
        missing field is reported by its label. */
    function Message(): (m: string)
      ensures m == "" <==> Accepted?
      ensures Missing? ==> StartsWith(m, Label(field.Name()))
    {
      match this
      case Accepted => ""
      case Missing(f) => Label(f.Name()) + " is required"
      case BadEmail => "Please enter a valid email address"
      case BadPhone => "Please enter a valid phone number (E.164 format, e.g., +1234567890)"
      case BadLinkedIn => "Please enter a valid LinkedIn profile URL"
    }
  }

  function UpperChar(c: char): char {
    if 'a' <= c <= 'z' then (c as int - 32) as char else c
  }

  /** One character of `s.replace(/([A-Z])/g, ' $1')`. */
  function Spaced(c: char): string {
    if IsCapital(c) then [' ', c] else [c]
  }

  /** `s.replace(/([A-Z])/g, ' $1')`. */
  function SpaceBeforeCapitals(s: string): string
    decreases |s|
  {
    if s == [] then [] else Spaced(s[0]) + SpaceBeforeCapitals(s[1..])
  }

  /** The field label of a missing-field message: the key with its first
      letter upper-cased and a space before each later capital. */
  function Label(name: string): string {
    if name == [] then [] else [UpperChar(name[0])] + SpaceBeforeCapitals(name[1..])
  }

  predicate IsCapital(c: char) {
    'A' <= c <= 'Z'
  }

  /** `s` holds no capital letter. */
  predicate NoCapitals(s: string) {
    forall i :: 0 <= i < |s| ==> !IsCapital(s[i])
  }

  /** No capital letters, nothing inserted. */
  lemma {:induction false} SpaceBeforeNoCapitals(s: string)
    requires NoCapitals(s)
    ensures SpaceBeforeCapitals(s) == s
    decreases |s|
  {
    if s != [] {
      SpaceBeforeNoCapitals(s[1..]);
    }
  }

  /** The insertion works piecewise. */
  lemma {:induction false} SpaceBeforeConcat(a: string, b: string)
    ensures SpaceBeforeCapitals(a + b) == SpaceBeforeCapitals(a) + SpaceBeforeCapitals(b)
    decreases |a|
  {
    if a != [] {
      assert (a + b)[0] == a[0];
      assert (a + b)[1..] == a[1..] + b;
      SpaceBeforeConcat(a[1..], b);
      calc {
        SpaceBeforeCapitals(a + b);
        Spaced(a[0]) + SpaceBeforeCapitals(a[1..] + b);
        Spaced(a[0]) + (SpaceBeforeCapitals(a[1..]) + SpaceBeforeCapitals(b));
        (Spaced(a[0]) + SpaceBeforeCapitals(a[1..])) + SpaceBeforeCapitals(b);
      }
    } else {
      assert a + b == b;
    }
  }

  /** A capital letter gets a space in front of it, and any other
      character is kept as it is. */
  lemma SpaceBeforeOne(c: char)
    ensures SpaceBeforeCapitals([c]) == if IsCapital(c) then " " + [c] else [c]
  {
    assert [c][1..] == [];
  }

  /** A key without capitals after its first letter is reported with that
      letter upper-cased and nothing else changed. */
  lemma LabelOfOneWord(first: char, rest: string)
    requires NoCapitals(rest)
    ensures Label([first] + rest) == [UpperChar(first)] + rest
  {
    assert ([first] + rest)[1..] == rest;
    SpaceBeforeNoCapitals(rest);
  }

  /** `linkedin` is reported as `Linkedin`. */
  lemma LabelLinkedIn()
    ensures Label("linkedin") == "Linkedin"
  {
    var rest := "inkedin";
    assert "linkedin" == ['l'] + rest;
    LabelOfOneWord('l', rest);
    assert UpperChar('l') == 'L';
    assert ['L'] + rest == "Linkedin";
  }

  /** Text without digits (spaces, brackets, dashes, a `+`) in front of
      or behind a phone does not change the phone check. */
  lemma PhoneIgnoresSeparators(phone: string, separators: string)
    requires forall i :: 0 <= i < |separators| ==> !IsDigit(separators[i])
    ensures PhoneOk(separators + phone) == PhoneOk(phone)
    ensures PhoneOk(phone + separators) == PhoneOk(phone)
  {
    FilterKeepsNone(separators, IsDigit);
    FilterConcat(separators, phone, IsDigit);
    assert Digits(separators + phone) == Digits(phone);
    FilterConcat(phone, separators, IsDigit);
    assert Digits(phone + separators) == Digits(phone);
  }

  /** Two digits not starting with 0 are enough, with or without a `+`. */
  lemma PhoneAccepts()
    ensures PhoneOk("12") && PhoneOk("+12")
  {
    DigitsOfDigits("12");
    assert "+12" == "+" + "12";
    PhoneIgnoresSeparators("12", "+");
  }

  /** A leading zero is refused. */
  lemma PhoneRejectsLeadingZero()
    ensures !PhoneOk("01")
  {
    DigitsOfDigits("01");
  }

  /** One digit is too few, even behind a `+`. */
  lemma PhoneRejectsOneDigit()
    ensures !PhoneOk("+7")
  {
    assert "+7" == "+" + "7";
    DigitsOfDigits("7");
    PhoneIgnoresSeparators("7", "+");
  }

  /** `validateForm`: the fields in key order, the first empty one
      reported; then the email, the phone and the LinkedIn checks, in that
      order, the first failing one reported. */
  method ValidateForm(form: FormData) returns (v: Verdict)
    ensures VerdictFor(form, v)
    ensures v.Missing? <==> !AllFilled(form)
    ensures v.Missing? ==> form.Get(v.field) == "" &&
                           forall g: Field :: Position(g) < Position(v.field) ==> form.Get(g) != ""
    ensures v == BadEmail <==> AllFilled(form) && !EmailMatches(form.email)
    ensures v == BadPhone <==> AllFilled(form) && EmailMatches(form.email) && !PhoneOk(form.phone)
    ensures v == BadLinkedIn <==>
              AllFilled(form) && EmailMatches(form.email) && PhoneOk(form.phone) && !LinkedInOk(form.linkedin)
    ensures v == Accepted <==>
              AllFilled(form) && EmailMatches(form.email) && PhoneOk(form.phone) && LinkedInOk(form.linkedin)
  {
    var i := 0;
    while i < |FieldOrder|
      invariant 0 <= i <= |FieldOrder|
      invariant forall j :: 0 <= j < i ==> form.Get(FieldOrder[j]) != ""
    {
      var field := FieldOrder[i];
      if form.Get(field) == "" {
        assert Position(field) == i;
        return Missing(field);
      }
      i := i + 1;
    }
    assert AllFilled(form) by {
      forall f: Field ensures form.Get(f) != "" {
        assert FieldOrder[Position(f)] == f;
      }
    }
    if !EmailMatches(form.email) {
      return BadEmail;
    }
    if !PhoneOk(form.phone) {
      return BadPhone;
    }
    if !LinkedInOk(form.linkedin) {
      return BadLinkedIn;
    }
    return Accepted;
  }

  /** The phone submitted: `+` and the input's digits. The source keeps the
      digits unprefixed when they start with `+`, which they never do. */
  function NormalizePhone(phone: string): (r: string)
    ensures r == "+" + Digits(phone)
  {
    var digits := Digits(phone);
    DigitsOfDigits(phone);
    assert !StartsWith(digits, "+") by {
      if |digits| > 0 {
        assert IsDigit(digits[0]);
      }
    }
    if StartsWith(digits, "+") then digits else "+" + digits
  }

  /** Normalising a normalised phone changes nothing, and normalising keeps
      the phone check's verdict. */
  lemma NormalizePhoneStable(phone: string)
    ensures NormalizePhone(NormalizePhone(phone)) == NormalizePhone(phone)
    ensures PhoneOk(NormalizePhone(phone)) == PhoneOk(phone)
  {
    var digits := Digits(phone);
    DigitsOfDigits(phone);
    FilterConcat("+", digits, IsDigit);
    assert Digits("+") == [];
    DigitsOfDigits(digits);
    assert Digits("+" + digits) == digits;
  }

  /** The LinkedIn value submitted: as typed when it starts with `http`,
      otherwise with `https://` in front. */
  function NormalizeLinkedIn(linkedin: string): (r: string)
    ensures StartsWith(r, "http")
    ensures StartsWith(linkedin, "http") ==> r == linkedin
    ensures !StartsWith(linkedin, "http") ==> r == "https://" + linkedin
  {
    if StartsWith(linkedin, "http") then linkedin else "https://" + linkedin
  }

  /** Normalising a normalised LinkedIn value changes nothing, and keeps
      the LinkedIn check's verdict. */
  lemma NormalizeLinkedInStable(linkedin: string)
    ensures NormalizeLinkedIn(NormalizeLinkedIn(linkedin)) == NormalizeLinkedIn(linkedin)
    ensures LinkedInOk(linkedin) ==> LinkedInOk(NormalizeLinkedIn(linkedin))
  {
    if LinkedInOk(linkedin) && !StartsWith(linkedin, "http") {
      var i: nat :| i <= |linkedin| && OccursAt(linkedin, "linkedin.com/", i);
      var r := "https://" + linkedin;
      assert r[i + 8..i + 8 + 13] == linkedin[i..i + 13];
      assert OccursAt(r, "linkedin.com/", i + 8);
    }
  }

  /** `submissionData`: the form's fields, with the phone and the LinkedIn
      value normalised, and the submission time. */
  datatype Submission = Submission(fields: FormData, submittedAt: string)

  function BuildSubmission(form: FormData, submittedAt: string): (s: Submission)
    ensures s.submittedAt == submittedAt
    ensures s.fields.phone == "+" + Digits(form.phone)
    ensures s.fields.linkedin == NormalizeLinkedIn(form.linkedin)
    ensures forall f: Field :: f != Phone && f != LinkedIn ==> s.fields.Get(f) == form.Get(f)
  {
    Submission(
      form.(phone := NormalizePhone(form.phone), linkedin := NormalizeLinkedIn(form.linkedin)),
      submittedAt)
  }

  /** The body posted to the relay. */
  datatype Payload = Payload(kind: string, data: Submission, source: string, userAgent: string, timestamp: string)

  /** What a submit attempt came to: refused by validation, or posted, with
      whether the relay reported success. */
  datatype SubmitOutcome = NotSubmitted(verdict: Verdict) | Posted(payload: Payload, delivered: bool)

  /** The form component's state. */
  class FormState {
    var formData: FormData
    var loading: bool

    constructor ()
      ensures formData == InitialForm && !loading
    {
      formData := InitialForm;
      loading := false;
    }

    /** `handleInputChange` and the select handlers: only the named field
        changes. */
    method HandleInputChange(field: Field, value: string)
      modifies this
      ensures formData == old(formData).With(field, value)
      ensures loading == old(loading)
    {
      formData := formData.With(field, value);
    }

    /** `handleSubmit`: a form that fails validation is not posted and the
        state is untouched; otherwise the normalised data is posted and
        `loading`, raised for the post, is false again afterwards. `now`
        is the clock, `source` and `userAgent` the browser's, `delivered`
        the relay's reply. The form is not reset. */
    method HandleSubmit(now: string, source: string, userAgent: string, delivered: bool)
      returns (outcome: SubmitOutcome)
      modifies this
      ensures formData == old(formData)
      ensures outcome.NotSubmitted? ==> !outcome.verdict.Accepted? && loading == old(loading)
      ensures outcome.NotSubmitted? ==> VerdictFor(formData, outcome.verdict)
      ensures outcome.Posted? ==> !loading && outcome.delivered == delivered &&
                                  outcome.payload == Payload("expert_submission", BuildSubmission(formData, now),
                                                             source, userAgent, now)
      ensures outcome.NotSubmitted? <==> !ValidationOf(formData)
    {
      var verdict := ValidateForm(formData);
      if !verdict.Accepted? {
        return NotSubmitted(verdict);
      }
      loading := true;
      var submission := BuildSubmission(formData, now);
      var payload := Payload("expert_submission", submission, source, userAgent, submission.submittedAt);
      loading := false;
      outcome := Posted(payload, delivered);
    }
  }

  /** `v` is the verdict `validateForm` reaches on `form`: the first empty
      field in key order, else the first of the email, phone and LinkedIn
      checks that fails, else acceptance. */
  predicate VerdictFor(form: FormData, v: Verdict) {
    (v.Missing? <==> !AllFilled(form)) &&
    (v.Missing? ==> form.Get(v.field) == "" &&
                    forall g: Field :: Position(g) < Position(v.field) ==> form.Get(g) != "") &&
    (v == BadEmail <==> AllFilled(form) && !EmailMatches(form.email)) &&
    (v == BadPhone <==> AllFilled(form) && EmailMatches(form.email) && !PhoneOk(form.phone)) &&
    (v == BadLinkedIn <==> AllFilled(form) && EmailMatches(form.email) && PhoneOk(form.phone) && !LinkedInOk(form.linkedin)) &&
    (v == Accepted <==> ValidationOf(form))
  }

  /** The verdict is a function of the form: two verdicts meeting the
      description are the same. */
  lemma VerdictForUnique(form: FormData, v: Verdict, w: Verdict)
    requires VerdictFor(form, v) && VerdictFor(form, w)
    ensures v == w
  {
    if v.Missing? {
      assert form.Get(v.field) == "" && form.Get(w.field) == "";
      assert Position(v.field) == Position(w.field);
      assert v.field == FieldOrder[Position(v.field)] == w.field;
    }
  }

  /** Whether `validateForm` passes the form, as one truth value. */
  predicate ValidationOf(form: FormData) {
    AllFilled(form) && EmailMatches(form.email) && PhoneOk(form.phone) && LinkedInOk(form.linkedin)
  }
}
