/**
 * The job-application component's validator and submit callback, and the
 * component itself as the hook instantiated with them.
 */
module JobApplicationForm {
  import opened Wrappers
  import opened Patterns
  import opened UseForm

  /**
   * The browser built-ins the validator calls, as total predicates on strings:
   * whether `new URL(s)` succeeds (the constructor's exception is caught, so the
   * check itself never fails), whether `isNaN(s)` holds, and whether
   * `parseInt(s) <= 0` holds (false when parseInt yields NaN).
   */
  datatype Builtins = Builtins(
    isValidUrl: string -> bool,
    isNaN: string -> bool,
    parseIntNonPositive: string -> bool)

  /**
   * What JavaScript guarantees of isNaN and parseInt on a digit string:
   * it is a number, and it is at most zero exactly when its value is zero.
   */
  ghost predicate Conforms(b: Builtins) {
    forall s :: IsDigits(s) ==>
      !b.isNaN(s) && (b.parseIntNonPositive(s) <==> DigitsValue(s) == 0)
  }

  const FullNameRequired := "Full Name is required"
  const EmailRequired := "Email is required"
  const EmailInvalid := "Email address is invalid"
  const PhoneRequired := "Phone Number is required"
  const PhoneNotDigits := "Phone Number must contain only digits"
  const PhoneWrongLength := "Phone Number must be 10 digits long"
  const ExperienceRequired := "Relevant Experience is required"
  const ExperienceNotPositive := "Relevant Experience must be a number greater than 0"
  const PortfolioRequired := "Portfolio URL is required"
  const PortfolioInvalid := "Portfolio URL must be a valid URL"
  const ManagementRequired := "Management Experience is required"
  const SkillsRequired := "At least one skill must be selected"
  const InterviewTimeRequired := "Preferred Interview Time is required"

  const AllFields: set<Field> := {
    FullName, Email, PhoneNumber, ApplyingFor, RelevantExperience,
    PortfolioUrl, ManagementExperience, AdditionalSkills, PreferredInterviewTime }

  /** The eight fields that carry a rule; `applyingFor` only selects rules. */
  const ValidatedFields: set<Field> := AllFields - {ApplyingFor}

  /** The roles for which relevant experience is asked. */
  predicate AsksExperience(role: string) {
    role == "Developer" || role == "Designer"
  }

  /** `fullName`: required. */
  function FullNameCheck(v: FormValues): Option<string> {
    if v.fullName == "" then Some(FullNameRequired) else None
  }

  /** `email`: required, then it must contain a match of the email regex. */
  function EmailCheck(v: FormValues): Option<string> {
    if v.email == "" then Some(EmailRequired)
    else if !HasEmailShape(v.email) then Some(EmailInvalid)
    else None
  }

  /** `phoneNumber`: required, then digits only, then exactly ten of them. */
  function PhoneCheck(v: FormValues): Option<string> {
    if v.phoneNumber == "" then Some(PhoneRequired)
    else if !IsDigits(v.phoneNumber) then Some(PhoneNotDigits)
    else if |v.phoneNumber| != 10 then Some(PhoneWrongLength)
    else None
  }

  /** `relevantExperience`, for developers and designers: required, then a number above zero. */
  function ExperienceCheck(v: FormValues, b: Builtins): Option<string> {
    if !AsksExperience(v.applyingFor) then None
    else if v.relevantExperience == "" then Some(ExperienceRequired)
    else if b.isNaN(v.relevantExperience) || b.parseIntNonPositive(v.relevantExperience)
    then Some(ExperienceNotPositive)
    else None
  }

  /** `portfolioUrl`, for designers: required, then accepted by the URL constructor. */
  function PortfolioCheck(v: FormValues, b: Builtins): Option<string> {
    if v.applyingFor != "Designer" then None
    else if v.portfolioUrl == "" then Some(PortfolioRequired)
    else if !b.isValidUrl(v.portfolioUrl) then Some(PortfolioInvalid)
    else None
  }

  /** `managementExperience`, for managers: required. */
  function ManagementCheck(v: FormValues): Option<string> {
    if v.applyingFor == "Manager" && v.managementExperience == ""
    then Some(ManagementRequired) else None
  }

  /** `additionalSkills`: at least one. */
  function SkillsCheck(v: FormValues): Option<string> {
    if |v.additionalSkills| == 0 then Some(SkillsRequired) else None
  }

  /** `preferredInterviewTime`: required. */
  function InterviewTimeCheck(v: FormValues): Option<string> {
    if v.preferredInterviewTime == "" then Some(InterviewTimeRequired) else None
  }

  /**
   * The rule for one field: the message it fails with, checks in priority
   * order (required, then shape, then length or range), or None.
   */
  function FieldCheck(f: Field, v: FormValues, b: Builtins): Option<string> {
    match f
    case FullName => FullNameCheck(v)
    case Email => EmailCheck(v)
    case PhoneNumber => PhoneCheck(v)
    case ApplyingFor => None
    case RelevantExperience => ExperienceCheck(v, b)
    case PortfolioUrl => PortfolioCheck(v, b)
    case ManagementExperience => ManagementCheck(v)
    case AdditionalSkills => SkillsCheck(v)
    case PreferredInterviewTime => InterviewTimeCheck(v)
  }

  /** The rules of all fields, as one function from field to verdict. */
  function Checks(v: FormValues, b: Builtins): Field -> Option<string> {
    f => FieldCheck(f, v, b)
  }

  /**
   * Each field's verdict in Checks is its own rule's, and the role has none;
   * stated once, so that ValidateForm's proof need not unfold FieldCheck.
   */
  lemma ChecksAt(v: FormValues, b: Builtins)
    ensures Checks(v, b)(FullName) == FullNameCheck(v)
    ensures Checks(v, b)(Email) == EmailCheck(v)
    ensures Checks(v, b)(PhoneNumber) == PhoneCheck(v)
    ensures Checks(v, b)(ApplyingFor) == None
    ensures Checks(v, b)(RelevantExperience) == ExperienceCheck(v, b)
    ensures Checks(v, b)(PortfolioUrl) == PortfolioCheck(v, b)
    ensures Checks(v, b)(ManagementExperience) == ManagementCheck(v)
    ensures Checks(v, b)(AdditionalSkills) == SkillsCheck(v)
    ensures Checks(v, b)(PreferredInterviewTime) == InterviewTimeCheck(v)
  {
  }

  /** The dictionary of the given fields' failed checks, each with its message. */
  function Collect(fields: set<Field>, check: Field -> Option<string>): map<Field, string> {
    map f | f in fields && check(f).Some? :: check(f).value
  }

  /** The errors of a record: every field whose rule fails, with its message. */
  function Errors(v: FormValues, b: Builtins): map<Field, string> {
    Collect(AllFields, Checks(v, b))
  }

  /** One rule's step: add the field's message to the dictionary when its check fails. */
  function AddVerdict(m: map<Field, string>, f: Field, verdict: Option<string>): map<Field, string> {
    if verdict.Some? then m[f := verdict.value] else m
  }

  /** Running one more check adds exactly its own verdict to those collected so far. */
  lemma AddVerdictCollects(fields: set<Field>, f: Field, next: set<Field>, check: Field -> Option<string>)
    requires f !in fields && next == fields + {f}
    ensures AddVerdict(Collect(fields, check), f, check(f)) == Collect(next, check)
  {
  }

  /**
   * Adding the verdicts of the eight validated fields one after another, in
   * the order of `validateForm`, starting from an empty dictionary, collects every
   * field's verdict, given that the role's own verdict is None.
   */
  lemma VerdictsCollect(c: Field -> Option<string>,
                       e1: map<Field, string>, e2: map<Field, string>, e3: map<Field, string>,
                       e4: map<Field, string>, e5: map<Field, string>, e6: map<Field, string>,
                       e7: map<Field, string>, e8: map<Field, string>)
    requires c(ApplyingFor) == None
    requires e1 == AddVerdict(map[], FullName, c(FullName))
    requires e2 == AddVerdict(e1, Email, c(Email))
    requires e3 == AddVerdict(e2, PhoneNumber, c(PhoneNumber))
    requires e4 == AddVerdict(e3, RelevantExperience, c(RelevantExperience))
    requires e5 == AddVerdict(e4, PortfolioUrl, c(PortfolioUrl))
    requires e6 == AddVerdict(e5, ManagementExperience, c(ManagementExperience))
    requires e7 == AddVerdict(e6, AdditionalSkills, c(AdditionalSkills))
    requires e8 == AddVerdict(e7, PreferredInterviewTime, c(PreferredInterviewTime))
    ensures e8 == Collect(AllFields, c)
  {
    assert map[] == Collect({}, c);
    AddVerdictCollects({}, FullName, {FullName}, c);
    AddVerdictCollects({FullName}, Email, {FullName, Email}, c);
    AddVerdictCollects({FullName, Email}, PhoneNumber, {FullName, Email, PhoneNumber}, c);
    AddVerdictCollects({FullName, Email, PhoneNumber}, ApplyingFor,
      {FullName, Email, PhoneNumber, ApplyingFor}, c);
    AddVerdictCollects({FullName, Email, PhoneNumber, ApplyingFor}, RelevantExperience,
      {FullName, Email, PhoneNumber, ApplyingFor, RelevantExperience}, c);
    AddVerdictCollects({FullName, Email, PhoneNumber, ApplyingFor, RelevantExperience}, PortfolioUrl,
      {FullName, Email, PhoneNumber, ApplyingFor, RelevantExperience, PortfolioUrl}, c);
    AddVerdictCollects(
      {FullName, Email, PhoneNumber, ApplyingFor, RelevantExperience, PortfolioUrl},
      ManagementExperience,
      {FullName, Email, PhoneNumber, ApplyingFor, RelevantExperience, PortfolioUrl,
       ManagementExperience}, c);
    AddVerdictCollects(
      {FullName, Email, PhoneNumber, ApplyingFor, RelevantExperience, PortfolioUrl,
       ManagementExperience},
      AdditionalSkills,
      {FullName, Email, PhoneNumber, ApplyingFor, RelevantExperience, PortfolioUrl,
       ManagementExperience, AdditionalSkills}, c);
    AddVerdictCollects(
      {FullName, Email, PhoneNumber, ApplyingFor, RelevantExperience, PortfolioUrl,
       ManagementExperience, AdditionalSkills},
      PreferredInterviewTime, AllFields, c);
  }

  /**
   * `validateForm`: the rules run one after another, each adding at most one
   * key to the error dictionary; no rule stops the others.
   */
  method ValidateForm(v: FormValues, b: Builtins) returns (errors: map<Field, string>)
    ensures errors == Errors(v, b)
  {
    var e1 := ValidateFullName(v, map[]);
    var e2 := ValidateEmail(v, e1);
    var e3 := ValidatePhone(v, e2);
    var e4 := ValidateExperience(v, b, e3);
    var e5 := ValidatePortfolio(v, b, e4);
    var e6 := ValidateManagement(v, e5);
    var e7 := ValidateSkills(v, e6);
    errors := ValidateInterviewTime(v, e7);
    ChecksAt(v, b);
    VerdictsCollect(Checks(v, b), e1, e2, e3, e4, e5, e6, e7, errors);
  }

  /** The `fullName` rule of `validateForm`, applied to the dictionary built so far. */
  method ValidateFullName(v: FormValues, errors: map<Field, string>) returns (r: map<Field, string>)
    ensures r == AddVerdict(errors, FullName, FullNameCheck(v))
  {
    r := errors;
    if v.fullName == "" {
      r := r[FullName := FullNameRequired];
    }
  }

  /** The `email` rule: required, else the regex test. */
  method ValidateEmail(v: FormValues, errors: map<Field, string>) returns (r: map<Field, string>)
    ensures r == AddVerdict(errors, Email, EmailCheck(v))
  {
    r := errors;
    if v.email == "" {
      r := r[Email := EmailRequired];
    } else if !HasEmailShape(v.email) {
      r := r[Email := EmailInvalid];
    }
  }

  /** The `phoneNumber` rule: required, else digits only, else ten of them. */
  method ValidatePhone(v: FormValues, errors: map<Field, string>) returns (r: map<Field, string>)
    ensures r == AddVerdict(errors, PhoneNumber, PhoneCheck(v))
  {
    r := errors;
    if v.phoneNumber == "" {
      r := r[PhoneNumber := PhoneRequired];
    } else if !IsDigits(v.phoneNumber) {
      r := r[PhoneNumber := PhoneNotDigits];
    } else if |v.phoneNumber| != 10 {
      r := r[PhoneNumber := PhoneWrongLength];
    }
  }

  /** The `relevantExperience` rule, asked only of developers and designers. */
  method ValidateExperience(v: FormValues, b: Builtins, errors: map<Field, string>)
    returns (r: map<Field, string>)
    ensures r == AddVerdict(errors, RelevantExperience, ExperienceCheck(v, b))
  {
    r := errors;
    if v.applyingFor == "Developer" || v.applyingFor == "Designer" {
      if v.relevantExperience == "" {
        r := r[RelevantExperience := ExperienceRequired];
      } else if b.isNaN(v.relevantExperience) || b.parseIntNonPositive(v.relevantExperience) {
        r := r[RelevantExperience := ExperienceNotPositive];
      }
    }
  }

  /** The `portfolioUrl` rule, asked only of designers. */
  method ValidatePortfolio(v: FormValues, b: Builtins, errors: map<Field, string>)
    returns (r: map<Field, string>)
    ensures r == AddVerdict(errors, PortfolioUrl, PortfolioCheck(v, b))
  {
    r := errors;
    if v.applyingFor == "Designer" {
      if v.portfolioUrl == "" {
        r := r[PortfolioUrl := PortfolioRequired];
      } else if !b.isValidUrl(v.portfolioUrl) {
        r := r[PortfolioUrl := PortfolioInvalid];
      }
    }
  }

  /** The `managementExperience` rule, asked only of managers. */
  method ValidateManagement(v: FormValues, errors: map<Field, string>) returns (r: map<Field, string>)
    ensures r == AddVerdict(errors, ManagementExperience, ManagementCheck(v))
  {
    r := errors;
    if v.applyingFor == "Manager" {
      if v.managementExperience == "" {
        r := r[ManagementExperience := ManagementRequired];
      }
    }
  }

  /** The `additionalSkills` rule: at least one skill. */
  method ValidateSkills(v: FormValues, errors: map<Field, string>) returns (r: map<Field, string>)
    ensures r == AddVerdict(errors, AdditionalSkills, SkillsCheck(v))
  {
    r := errors;
    if |v.additionalSkills| == 0 {
      r := r[AdditionalSkills := SkillsRequired];
    }
  }

  /** The `preferredInterviewTime` rule: required. */
  method ValidateInterviewTime(v: FormValues, errors: map<Field, string>) returns (r: map<Field, string>)
    ensures r == AddVerdict(errors, PreferredInterviewTime, InterviewTimeCheck(v))
  {
    r := errors;
    if v.preferredInterviewTime == "" {
      r := r[PreferredInterviewTime := InterviewTimeRequired];
    }
  }

  /** The full-name error is present exactly when the name is empty. */
  lemma FullNameRule(v: FormValues, b: Builtins)
    ensures FullName in Errors(v, b) <==> v.fullName == ""
    ensures FullName in Errors(v, b) ==> Errors(v, b)[FullName] == FullNameRequired
  {
  }

  /** The email is required first, then must contain a match of the email regex. */
  lemma EmailRule(v: FormValues, b: Builtins)
    ensures v.email == "" ==>
      Email in Errors(v, b) && Errors(v, b)[Email] == EmailRequired
    ensures v.email != "" && !MatchesEmailRegex(v.email) ==>
      Email in Errors(v, b) && Errors(v, b)[Email] == EmailInvalid
    ensures v.email != "" && MatchesEmailRegex(v.email) ==> Email !in Errors(v, b)
  {
    EmailShapeIff(v.email);
  }

  /** The phone number is required, then digits only, then exactly ten of them. */
  lemma PhoneRule(v: FormValues, b: Builtins)
    ensures v.phoneNumber == "" ==>
      PhoneNumber in Errors(v, b) && Errors(v, b)[PhoneNumber] == PhoneRequired
    ensures (exists i :: 0 <= i < |v.phoneNumber| && !IsDigit(v.phoneNumber[i])) ==>
      PhoneNumber in Errors(v, b) && Errors(v, b)[PhoneNumber] == PhoneNotDigits
    ensures IsDigits(v.phoneNumber) && |v.phoneNumber| != 10 ==>
      PhoneNumber in Errors(v, b) && Errors(v, b)[PhoneNumber] == PhoneWrongLength
    ensures IsDigits(v.phoneNumber) && |v.phoneNumber| == 10 ==> PhoneNumber !in Errors(v, b)
  {
  }

  /** Relevant experience is checked only for developers and designers. */
  lemma RelevantExperienceRule(v: FormValues, b: Builtins)
    ensures RelevantExperience in Errors(v, b) ==> AsksExperience(v.applyingFor)
    ensures AsksExperience(v.applyingFor) && v.relevantExperience == "" ==>
      RelevantExperience in Errors(v, b)
      && Errors(v, b)[RelevantExperience] == ExperienceRequired
    ensures AsksExperience(v.applyingFor) && v.relevantExperience != "" ==>
      (RelevantExperience in Errors(v, b) <==>
        b.isNaN(v.relevantExperience) || b.parseIntNonPositive(v.relevantExperience))
    ensures (AsksExperience(v.applyingFor) && v.relevantExperience != ""
             && RelevantExperience in Errors(v, b)) ==>
      Errors(v, b)[RelevantExperience] == ExperienceNotPositive
  {
  }

  /**
   * For a digit string, the range check fails exactly when its value is zero,
   * that is when every digit is '0'.
   */
  lemma RelevantExperienceDigits(v: FormValues, b: Builtins)
    requires Conforms(b)
    requires AsksExperience(v.applyingFor) && IsDigits(v.relevantExperience)
    ensures RelevantExperience in Errors(v, b) <==> DigitsValue(v.relevantExperience) == 0
    ensures RelevantExperience in Errors(v, b) <==>
      forall i :: 0 <= i < |v.relevantExperience| ==> v.relevantExperience[i] == '0'
    ensures RelevantExperience in Errors(v, b) ==>
      Errors(v, b)[RelevantExperience] == ExperienceNotPositive
  {
    DigitsValueZero(v.relevantExperience);
  }

  /** The portfolio URL is checked only for designers: required, then parseable. */
  lemma PortfolioUrlRule(v: FormValues, b: Builtins)
    ensures PortfolioUrl in Errors(v, b) ==> v.applyingFor == "Designer"
    ensures v.applyingFor == "Designer" && v.portfolioUrl == "" ==>
      PortfolioUrl in Errors(v, b) && Errors(v, b)[PortfolioUrl] == PortfolioRequired
    ensures v.applyingFor == "Designer" && v.portfolioUrl != "" ==>
      (PortfolioUrl in Errors(v, b) <==> !b.isValidUrl(v.portfolioUrl))
    ensures v.applyingFor == "Designer" && v.portfolioUrl != "" && PortfolioUrl in Errors(v, b) ==>
      Errors(v, b)[PortfolioUrl] == PortfolioInvalid
  {
  }

  /** Management experience is required of managers only. */
  lemma ManagementExperienceRule(v: FormValues, b: Builtins)
    ensures ManagementExperience in Errors(v, b) <==>
      v.applyingFor == "Manager" && v.managementExperience == ""
    ensures ManagementExperience in Errors(v, b) ==>
      Errors(v, b)[ManagementExperience] == ManagementRequired
  {
  }

  /** At least one skill and an interview time are always required. */
  lemma SkillsAndTimeRules(v: FormValues, b: Builtins)
    ensures AdditionalSkills in Errors(v, b) <==> v.additionalSkills == []
    ensures AdditionalSkills in Errors(v, b) ==> Errors(v, b)[AdditionalSkills] == SkillsRequired
    ensures PreferredInterviewTime in Errors(v, b) <==> v.preferredInterviewTime == ""
    ensures PreferredInterviewTime in Errors(v, b) ==>
      Errors(v, b)[PreferredInterviewTime] == InterviewTimeRequired
  {
  }

  /** Only the eight validated fields can carry an error; the role never does. */
  lemma ErrorKeys(v: FormValues, b: Builtins)
    ensures Errors(v, b).Keys <= ValidatedFields
    ensures ApplyingFor !in Errors(v, b)
  {
  }

  /**
   * Rules do not interfere: whether a field has an error, and which, depends
   * only on that field's value and the selected role.
   */
  lemma ErrorsAreLocal(v: FormValues, w: FormValues, b: Builtins, f: Field)
    requires Value(v, f) == Value(w, f) && v.applyingFor == w.applyingFor
    ensures f in Errors(v, b) <==> f in Errors(w, b)
    ensures f in Errors(v, b) ==> Errors(v, b)[f] == Errors(w, b)[f]
  {
    assert FieldCheck(f, v, b) == FieldCheck(f, w, b);
  }

  /** A record every rule accepts, stated field by field. */
  ghost predicate Complete(v: FormValues, b: Builtins) {
    && v.fullName != ""
    && MatchesEmailRegex(v.email)
    && IsDigits(v.phoneNumber) && |v.phoneNumber| == 10
    && (AsksExperience(v.applyingFor) ==>
          v.relevantExperience != ""
          && !b.isNaN(v.relevantExperience) && !b.parseIntNonPositive(v.relevantExperience))
    && (v.applyingFor == "Designer" ==> v.portfolioUrl != "" && b.isValidUrl(v.portfolioUrl))
    && (v.applyingFor == "Manager" ==> v.managementExperience != "")
    && v.additionalSkills != []
    && v.preferredInterviewTime != ""
  }

  /** The validator reports nothing exactly when the record is complete. */
  lemma NoErrorsIffComplete(v: FormValues, b: Builtins)
    ensures Errors(v, b) == map[] <==> Complete(v, b)
  {
    var e := Errors(v, b);
    if e == map[] {
      assert FullName !in e && Email !in e && PhoneNumber !in e && RelevantExperience !in e;
      assert PortfolioUrl !in e && ManagementExperience !in e;
      assert AdditionalSkills !in e && PreferredInterviewTime !in e;
      assert v.email != "";
    }
    EmailShapeIff(v.email);
    if Complete(v, b) {
      forall f | f in AllFields ensures FieldCheck(f, v, b) == None {
      }
      assert e.Keys == {};
    }
  }

  /** Submitting the initial record reports the five unconditional fields. */
  lemma InitialErrors(b: Builtins)
    ensures Errors(InitialValues, b).Keys ==
      {FullName, Email, PhoneNumber, AdditionalSkills, PreferredInterviewTime}
  {
    var e := Errors(InitialValues, b);
    assert e.Keys == {FullName, Email, PhoneNumber, AdditionalSkills, PreferredInterviewTime};
  }

  /**
   * No rule stops another: with the name, the email and the skills missing,
   * and every other field acceptable for whatever role is selected, exactly
   * those three fields are reported.
   */
  lemma MissingIdentityAndSkills(v: FormValues, b: Builtins)
    requires v.fullName == "" && v.email == "" && v.additionalSkills == []
    requires forall f :: f !in {FullName, Email, AdditionalSkills} ==> FieldCheck(f, v, b) == None
    ensures Errors(v, b).Keys == {FullName, Email, AdditionalSkills}
  {
    var e := Errors(v, b);
    assert e.Keys == {FullName, Email, AdditionalSkills};
  }

  /**
   * The component's `submittedData`: the record most recently handed to the
   * submit callback `onSubmitForm`, or none before its first call.
   */
  function SubmittedData(submissions: seq<FormValues>): Option<FormValues> {
    if submissions == [] then None else Some(submissions[|submissions| - 1])
  }

  /**
   * Submitting the component's form: the hook's submit, whose callback keeps
   * the record for the summary. A clean submit shows the submitted values; a
   * submit with errors leaves the summary as it was.
   */
  method SubmitForm(form: Form)
    modifies form
    ensures form.values == old(form.values) && form.errors == form.validate(form.values)
    ensures SubmittedData(form.submissions) ==
      if form.errors == map[] then Some(form.values) else SubmittedData(old(form.submissions))
  {
    form.Submit();
  }

  /** Mounting the component: the hook instantiated with this validator. */
  method Mount(b: Builtins) returns (form: Form)
    ensures fresh(form)
    ensures forall v :: form.validate(v) == Errors(v, b)
    ensures form.values == InitialValues && form.errors == map[]
    ensures SubmittedData(form.submissions) == None
  {
    form := new Form((v: FormValues) => Errors(v, b));
  }
}
