/**
 * The form-state hook: the record of field values, the map of field errors,
 * and the three handlers that change them (a text change, a checkbox toggle
 * of a skill, and a submit that validates and hands the values to a callback).
 */
module UseForm {

  /** The names of the nine fields of the application record. */
  datatype Field =
    | FullName | Email | PhoneNumber | ApplyingFor | RelevantExperience
    | PortfolioUrl | ManagementExperience | AdditionalSkills | PreferredInterviewTime

  /** The field values; every field is text except the list of checked skills. */
  datatype FormValues = FormValues(
    fullName: string,
    email: string,
    phoneNumber: string,
    applyingFor: string,
    relevantExperience: string,
    portfolioUrl: string,
    managementExperience: string,
    additionalSkills: seq<string>,
    preferredInterviewTime: string)

  /** What one field holds. */
  datatype FieldValue = Text(text: string) | Skills(skills: seq<string>)

  /** The value held under a field name. */
  function Value(v: FormValues, f: Field): FieldValue {
    match f
    case FullName => Text(v.fullName)
    case Email => Text(v.email)
    case PhoneNumber => Text(v.phoneNumber)
    case ApplyingFor => Text(v.applyingFor)
    case RelevantExperience => Text(v.relevantExperience)
    case PortfolioUrl => Text(v.portfolioUrl)
    case ManagementExperience => Text(v.managementExperience)
    case AdditionalSkills => Skills(v.additionalSkills)
    case PreferredInterviewTime => Text(v.preferredInterviewTime)
  }

  /** The record the hook starts from. */
  const InitialValues := FormValues("", "", "", "", "", "", "", [], "")

  /** The initial record: every text field is empty and no skill is checked. */
  lemma InitialValuesEmpty()
    ensures forall f :: f != AdditionalSkills ==> Value(InitialValues, f) == Text("")
    ensures Value(InitialValues, AdditionalSkills) == Skills([])
  {
    forall f | f != AdditionalSkills ensures Value(InitialValues, f) == Text("") {
      match f
      case FullName =>
      case Email =>
      case PhoneNumber =>
      case ApplyingFor =>
      case RelevantExperience =>
      case PortfolioUrl =>
      case ManagementExperience =>
      case PreferredInterviewTime =>
    }
  }

  /** `{...values, [name]: value}` for a text field. */
  function WithText(v: FormValues, name: Field, value: string): (r: FormValues)
    requires name != AdditionalSkills
    ensures Value(r, name) == Text(value)
    ensures forall g :: g != name ==> Value(r, g) == Value(v, g)
  {
    match name
    case FullName => v.(fullName := value)
    case Email => v.(email := value)
    case PhoneNumber => v.(phoneNumber := value)
    case ApplyingFor => v.(applyingFor := value)
    case RelevantExperience => v.(relevantExperience := value)
    case PortfolioUrl => v.(portfolioUrl := value)
    case ManagementExperience => v.(managementExperience := value)
    case PreferredInterviewTime => v.(preferredInterviewTime := value)
  }

  /** `skills.filter((skill) => skill !== value)`. */
  function WithoutSkill(skills: seq<string>, value: string): (r: seq<string>)
    ensures forall y :: y in r <==> y in skills && y != value
    ensures |r| <= |skills|
  {
    if skills == [] then []
    else if skills[0] == value then WithoutSkill(skills[1..], value)
    else [skills[0]] + WithoutSkill(skills[1..], value)
  }

  /** Filtering distributes over concatenation, so the kept skills stay in their order. */
  lemma {:induction false} WithoutSkillAppend(a: seq<string>, b: seq<string>, value: string)
    ensures WithoutSkill(a + b, value) == WithoutSkill(a, value) + WithoutSkill(b, value)
  {
    if a != [] {
      assert (a + b)[0] == a[0] && (a + b)[1..] == a[1..] + b;
      WithoutSkillAppend(a[1..], b, value);
    } else {
      assert a + b == b;
    }
  }

  /** Filtering removes every occurrence of the value and nothing else. */
  lemma {:induction false} WithoutSkillCounts(skills: seq<string>, value: string)
    ensures multiset(WithoutSkill(skills, value)) == multiset(skills)[value := 0]
  {
    if skills != [] {
      WithoutSkillCounts(skills[1..], value);
      assert skills == [skills[0]] + skills[1..];
    }
  }

  /** Filtering out a value that is not there changes nothing. */
  lemma {:induction false} WithoutAbsentSkill(skills: seq<string>, value: string)
    requires value !in skills
    ensures WithoutSkill(skills, value) == skills
  {
    if skills != [] {
      WithoutAbsentSkill(skills[1..], value);
      assert skills == [skills[0]] + skills[1..];
    }
  }

  /** Checking a skill that was not checked and then unchecking it restores the list. */
  lemma CheckThenUncheck(skills: seq<string>, value: string)
    requires value !in skills
    ensures WithoutSkill(skills + [value], value) == skills
  {
    WithoutSkillAppend(skills, [value], value);
    WithoutAbsentSkill(skills, value);
    assert WithoutSkill([value], value) == [];
  }

  /** No skill occurs twice. */
  predicate NoDuplicates(s: seq<string>) {
    forall i, j :: 0 <= i < j < |s| ==> s[i] != s[j]
  }

  /** Appending an absent skill keeps the list duplicate-free. */
  lemma CheckAbsentKeepsDistinct(skills: seq<string>, value: string)
    requires NoDuplicates(skills) && value !in skills
    ensures NoDuplicates(skills + [value])
  {
  }

  /** Removing a skill keeps a duplicate-free list duplicate-free. */
  lemma {:induction false} UncheckKeepsDistinct(skills: seq<string>, value: string)
    requires NoDuplicates(skills)
    ensures NoDuplicates(WithoutSkill(skills, value))
  {
    if skills != [] {
      var rest := skills[1..];
      assert NoDuplicates(rest) by {
        forall i, j | 0 <= i < j < |rest| ensures rest[i] != rest[j] {
          assert rest[i] == skills[i + 1] && rest[j] == skills[j + 1];
        }
      }
      UncheckKeepsDistinct(rest, value);
      if skills[0] != value {
        assert skills[0] !in rest;
        assert skills[0] !in WithoutSkill(rest, value);
      }
    }
  }

  /**
   * The hook's state. `validate` and the submission log stand for the two
   * arguments of the hook: the validator it runs on submit, and the callback,
   * of which `submissions` records every call in order.
   */
  class Form {
    const validate: FormValues -> map<Field, string>
    var values: FormValues
    var errors: map<Field, string>
    var submissions: seq<FormValues>

    /** Mounting: the initial record, no errors and no call of the callback yet. */
    constructor (validate: FormValues -> map<Field, string>)
      ensures this.validate == validate
      ensures values == InitialValues && errors == map[] && submissions == []
    {
      this.validate := validate;
      values := InitialValues;
      errors := map[];
      submissions := [];
    }

    /** A change event from a text input: the named field takes the new value. */
    method ChangeField(name: Field, value: string)
      requires name != AdditionalSkills
      modifies this
      ensures values == WithText(old(values), name, value)
      ensures errors == old(errors) && submissions == old(submissions)
    {
      values := WithText(values, name, value);
    }

    /** A change event from a skill checkbox: append the value, or remove it. */
    method ToggleSkill(value: string, checked: bool)
      modifies this
      ensures values.additionalSkills ==
        if checked then old(values.additionalSkills) + [value]
        else WithoutSkill(old(values.additionalSkills), value)
      ensures forall f :: f != AdditionalSkills ==> Value(values, f) == Value(old(values), f)
      ensures errors == old(errors) && submissions == old(submissions)
    {
      var updatedSkills := values.additionalSkills;
      if checked {
        updatedSkills := updatedSkills + [value];
      } else {
        updatedSkills := WithoutSkill(updatedSkills, value);
      }
      values := values.(additionalSkills := updatedSkills);
    }

    /**
     * Submit: store the validator's result wholesale, and call the callback
     * with the current values exactly when there are no errors.
     */
    method Submit()
      modifies this
      ensures values == old(values)
      ensures errors == validate(values)
      ensures submissions ==
        if errors == map[] then old(submissions) + [values] else old(submissions)
    {
      var validationErrors := validate(values);
      errors := validationErrors;
      if |validationErrors| == 0 {
        submissions := submissions + [values];
      }
    }
  }
}
