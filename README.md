# Job application form: validator and form-state hook

This project models the logic of a small client-side job-application form:

- the validator `validateForm`, which maps the current field values to a
  dictionary from field name to error message;
- the form-state hook `useForm`, which holds the values and the errors, applies
  change events (a text input replaces one field; a skill checkbox appends its
  value to, or removes it from, the list of skills), and on submit runs the
  validator, stores its result wholesale and calls the submit callback only
  when no error came back.

Four modules:

- `Patterns` (`patterns.dfy`) gives the meaning of the two regular expressions
  the validator uses. `MatchesEmailRegex` states what the unanchored
  `/\S+@\S+\.\S+/` means: some substring reads X@Y.Z, where X, Y and Z are
  non-empty runs of non-whitespace. `HasEmailShape` decides it by looking for
  the '@' and the '.' directly, and `EmailShapeIff` proves the two equal. `IsDigits` is `/^\d+$/`: non-empty and ASCII digits
  only. `IsWhitespace` is the set of characters ECMAScript's `\s` matches.
- `UseForm` (`use_form.dfy`) holds the record of values (`FormValues`, with a
  `Field` name for each member), the pure updates that `handleChange` makes, and
  the class `Form`. Its fields `values` and `errors` are the hook's two pieces of
  state. `validate` is the validator the hook is given. `submissions` logs, in
  order, every record passed to the submit callback.
- `JobApplicationForm` (`job_application_form.dfy`) holds the thirteen error
  messages and the rules. `FieldCheck` is the rule for one field in priority
  order, and `Errors` collects the failed ones over all fields as a declarative
  reference. `ValidateForm` is the validator as written: one step per rule, each
  adding at most one key to the dictionary, and it is proved equal to `Errors`. This module also states the properties
  of the rules and defines `Mount`, the component: the hook instantiated with
  this validator. The component's own state, the summary `SubmittedData`, is
  the latest record in the form's callback log, and `SubmitForm` states how a
  submit changes it.
- `Wrappers` (`wrappers.dfy`) defines `Option`.

The browser built-ins the validator calls are parameters, gathered in
`Builtins`: whether `new URL(s)` succeeds, `isNaN(s)`, and `parseInt(s) <= 0`.
Each is a total predicate, because `isValidUrl` catches the constructor's
exception. `Conforms` states the one fact about `isNaN` and `parseInt` the
properties rely on. On a digit string, neither is NaN, and `parseInt` is at
most zero exactly when the value is zero.

The model follows the code in three places that a reader might expect
otherwise:

- The form has no terminal "submitted" state. After a successful submit the
  form stays editable and can be submitted again; the summary is only shown
  beside it.
- Checking a skill appends it even if it is already listed. The list is free
  of duplicates only as long as every check adds an absent value.
- The skills are an ordered list, not a set.

## Model

| member | source | states |
|---|---|---|
| Patterns.EmailShapeIff | src/components/JobApplicationForm.js:23 | an '@' after a non-space character, followed after one or more non-space characters by a '.' and a non-space character, occurs exactly when the unanchored regex matches |
| Patterns.DigitsValueZero | src/components/JobApplicationForm.js:41-42 | a digit string denotes zero exactly when every digit is '0' |
| UseForm.InitialValuesEmpty | src/hooks/useForm.js:6-16 | in the initial record every text field is empty and the skill list is empty |
| UseForm.WithText | src/hooks/useForm.js:33-37 | a text change sets the named field to the new value and leaves every other field unchanged |
| UseForm.WithoutSkill | src/hooks/useForm.js:27 | after the filter a skill is present exactly when it was present and differs from the removed value, and the list is no longer |
| UseForm.WithoutSkillAppend | src/hooks/useForm.js:27 | the filter distributes over concatenation, so the remaining skills keep their relative order |
| UseForm.WithoutSkillCounts | src/hooks/useForm.js:27 | the filter removes every occurrence of the value and no occurrence of any other skill |
| UseForm.WithoutAbsentSkill | src/hooks/useForm.js:27 | unchecking a value that is not listed leaves the list unchanged |
| UseForm.CheckThenUncheck | src/hooks/useForm.js:22-32 | checking a skill that was not listed and then unchecking it restores the original list |
| UseForm.CheckAbsentKeepsDistinct | src/hooks/useForm.js:25 | appending an absent skill keeps a duplicate-free list duplicate-free |
| UseForm.UncheckKeepsDistinct | src/hooks/useForm.js:27 | uncheck keeps a duplicate-free list duplicate-free |
| UseForm.Form.constructor | src/hooks/useForm.js:5-18 | mounting stores the validator and starts from the initial record, no errors and no callback call |
| UseForm.Form.ChangeField | src/hooks/useForm.js:33-37 | a non-checkbox change replaces the named field; errors and the callback log are untouched |
| UseForm.Form.ToggleSkill | src/hooks/useForm.js:22-32 | a checkbox change appends the value when checked and filters it out when unchecked; every other field, the errors and the callback log are untouched |
| UseForm.Form.Submit | src/hooks/useForm.js:41-51 | submit leaves the values unchanged, sets the errors to exactly the validator's result on them, and logs one callback call with the current values exactly when that result is empty |
| JobApplicationForm.SubmitForm | src/components/JobApplicationForm.js:74-77 | a submit without errors makes the summary show the submitted values; a submit with errors leaves the summary as it was; values stay and the errors become the validator's result |
| JobApplicationForm.ValidateForm | src/components/JobApplicationForm.js:14-72 | the dictionary built rule by rule equals the field-by-field errors: every field whose rule fails, with that rule's message |
| JobApplicationForm.VerdictsCollect | src/components/JobApplicationForm.js:15-71 | adding eight verdicts one after another into an empty dictionary, in the validator's order, gives every field's failed verdict and nothing else, the role having none |
| JobApplicationForm.ValidateFullName | src/components/JobApplicationForm.js:17-19 | the full-name step adds its verdict to the dictionary built so far and changes nothing else |
| JobApplicationForm.ValidateEmail | src/components/JobApplicationForm.js:21-25 | the email step adds "required" or "invalid" by priority, or nothing |
| JobApplicationForm.ValidatePhone | src/components/JobApplicationForm.js:26-32 | the phone step adds "required", "only digits" or "10 digits long" by priority, or nothing |
| JobApplicationForm.ValidateExperience | src/components/JobApplicationForm.js:34-47 | the experience step adds its verdict only for Developer or Designer |
| JobApplicationForm.ValidatePortfolio | src/components/JobApplicationForm.js:49-55 | the portfolio step adds its verdict only for Designer |
| JobApplicationForm.ValidateManagement | src/components/JobApplicationForm.js:57-61 | the management step adds its verdict only for Manager |
| JobApplicationForm.ValidateSkills | src/components/JobApplicationForm.js:63-65 | the skills step adds its verdict when no skill is checked |
| JobApplicationForm.ValidateInterviewTime | src/components/JobApplicationForm.js:67-69 | the interview-time step adds its verdict when the field is empty |
| JobApplicationForm.FullNameRule | src/components/JobApplicationForm.js:17-19 | a full-name error is present exactly when the name is empty, with the "required" message |
| JobApplicationForm.EmailRule | src/components/JobApplicationForm.js:21-25 | an empty email is "required"; a non-empty one without an X@Y.Z substring is "invalid"; otherwise the email has no error |
| JobApplicationForm.PhoneRule | src/components/JobApplicationForm.js:26-32 | an empty phone number is "required"; one with any non-digit is "only digits"; all digits but not ten is "10 digits long"; exactly ten digits gives no error |
| JobApplicationForm.RelevantExperienceRule | src/components/JobApplicationForm.js:34-47 | an experience error occurs only for Developer or Designer; there, empty is "required", and a non-empty value fails with "greater than 0" exactly when isNaN holds or parseInt is at most zero |
| JobApplicationForm.RelevantExperienceDigits | src/components/JobApplicationForm.js:38-46 | for Developer or Designer and a digit string, the experience error is present exactly when the value is zero (all digits '0') |
| JobApplicationForm.PortfolioUrlRule | src/components/JobApplicationForm.js:49-55 | a portfolio error occurs only for Designer; there, empty is "required", and a non-empty URL fails with "valid URL" exactly when the URL constructor rejects it |
| JobApplicationForm.ManagementExperienceRule | src/components/JobApplicationForm.js:57-61 | a management-experience error is present exactly when the role is Manager and the field is empty |
| JobApplicationForm.SkillsAndTimeRules | src/components/JobApplicationForm.js:63-69 | a skills error is present exactly when no skill is checked, and an interview-time error exactly when that field is empty |
| JobApplicationForm.ErrorKeys | src/components/JobApplicationForm.js:14-72 | error keys are among the eight validated fields and never the role |
| JobApplicationForm.ErrorsAreLocal | src/components/JobApplicationForm.js:14-72 | whether a field has an error, and which message, depends only on that field's value and the role |
| JobApplicationForm.NoErrorsIffComplete | src/components/JobApplicationForm.js:14-72 | the validator returns no error exactly when every field meets its rule for the selected role |
| JobApplicationForm.InitialErrors | src/hooks/useForm.js:6-16 | validating the initial record reports exactly full name, email, phone number, skills and interview time |
| JobApplicationForm.MissingIdentityAndSkills | src/components/JobApplicationForm.js:14-72 | no rule stops another: with name, email and skills missing and every other field acceptable for the selected role (any role, or none), exactly those three fields are reported |
| JobApplicationForm.Mount | src/components/JobApplicationForm.js:6-10 | the component's form validates with this validator and starts from the initial record, with no errors and no summary |

## Left out

- Rendering: the JSX, the CSS classes and which inputs are shown for which role (src/components/JobApplicationForm.js:88-410) are user interface, not logic.
- The summary's `toLocaleString` date formatting is locale-dependent and is not modelled.
- `console.log` and `e.preventDefault()` in the hook are I/O and DOM event plumbing. The log prints the previous errors, which the model does not record.
- React's `useState` semantics (batched updates, stale closures) are not modelled. Each handler runs to completion on the current state, and the validator is a function of the current values. The source's validator reads the values from its closure rather than from its argument, which is the same record at submit time.
- The URL constructor, `isNaN` and `parseInt` are parameters (`Builtins`), not implementations. The WHATWG basic URL parser and JavaScript's string-to-number coercion are not part of this model. `Conforms` pins down only what they do on digit strings.
- UseForm.Form.ChangeField: requires a field other than `additionalSkills`, and takes only the record's own field names. The form sends that name only from checkboxes. A text event carrying it, or carrying an unknown name, would put a string or a new key into the record, and the record type cannot hold either.
- The submit callback is recorded as a log of the records passed to it. Its only effect in the component is to keep the record for the summary: `SubmittedData` is the latest entry of that log.
- The `!values.additionalSkills` guard is left out: in the model the skills are always a list.
- JavaScript strings are UTF-16 code units, and the model's strings are Unicode scalar values. The two regexes and the ten-digit length check give the same answers either way, because `\S` treats both halves of a surrogate pair as non-whitespace and digits are ASCII.
- src/compnents/JobApplicationForm.js and src/hooks/useFormHook.js are not part of this model. The first is an unused variant that imports a missing component. The second returns markup instead of its handlers, so nothing can call them.
