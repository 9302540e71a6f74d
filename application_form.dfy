/**
 * The candidate application form: its five-field state, the validation rules
 * for that state, and the component whose handlers replace a field or, on
 * submission, record the validation errors.
 *
 * JavaScript truthiness is written out: a text field is present when it is
 * not the empty string, and the resume when a file has been chosen.
 */
module CandidateApplicationForm {
  import opened Wrappers
  import opened EmailPattern

  /** The file chosen in the resume input. */
  datatype ResumeFile = ResumeFile(fileName: string)

  /** The form's state record; resume is null until a file is chosen. */
  datatype FormData = FormData(
    name: string,
    email: string,
    linkedInUrl: string,
    resume: Option<ResumeFile>,
    skillsExperience: string)

  const InitialFormData := FormData("", "", "", None, "")

  /** The four inputs whose onChange is handleChange. */
  datatype TextInput = NameInput | EmailInput | LinkedInUrlInput | SkillsExperienceInput

  /** The value of a text input's field. */
  function TextValue(fd: FormData, input: TextInput): string {
    match input
    case NameInput => fd.name
    case EmailInput => fd.email
    case LinkedInUrlInput => fd.linkedInUrl
    case SkillsExperienceInput => fd.skillsExperience
  }

  /** The properties of the form state that can carry an error. */
  datatype Field = Name | Email | LinkedInUrl | Resume | SkillsExperience

  const AllFields: set<Field> := {Name, Email, LinkedInUrl, Resume, SkillsExperience}

  /** The property names of the form state and of its errors object. */
  const PropertyNames: set<string> := {"name", "email", "linkedInUrl", "resume", "skillsExperience"}

  /** The JavaScript property name under which a field's value and error are kept. */
  function Key(f: Field): (k: string)
    ensures k in PropertyNames
  {
    match f
    case Name => "name"
    case Email => "email"
    case LinkedInUrl => "linkedInUrl"
    case Resume => "resume"
    case SkillsExperience => "skillsExperience"
  }

  const NameRequired := "Name is required"
  const EmailRequired := "Email is required"
  const EmailInvalid := "Email is invalid"
  const LinkedInUrlRequired := "LinkedIn URL is required"
  const ResumeRequired := "Resume is required"
  const SkillsExperienceRequired := "Skills & Experience is required"

  /** The rule of one field, read on its own: the message it records, if any. */
  function FieldError(fd: FormData, f: Field): Option<string> {
    match f
    case Name => if fd.name == "" then Some(NameRequired) else None
    case Email =>
      if fd.email == "" then Some(EmailRequired)
      else if !EmailTest(fd.email) then Some(EmailInvalid)
      else None
    case LinkedInUrl => if fd.linkedInUrl == "" then Some(LinkedInUrlRequired) else None
    case Resume => if fd.resume.None? then Some(ResumeRequired) else None
    case SkillsExperience => if fd.skillsExperience == "" then Some(SkillsExperienceRequired) else None
  }

  /** The error map validation builds: every field whose rule fails, with its message. */
  function ExpectedErrors(fd: FormData): map<Field, string> {
    map f | f in AllFields && FieldError(fd, f).Some? :: FieldError(fd, f).value
  }

  /** Every field a submission needs is filled in, and the e-mail matches the pattern. */
  ghost predicate IsComplete(fd: FormData) {
    && fd.name != ""
    && fd.email != "" && PatternOccurs(fd.email)
    && fd.linkedInUrl != ""
    && fd.resume.Some?
    && fd.skillsExperience != ""
  }

  /** An empty name always gives the name error, and a non-empty one never does. */
  lemma NameRule(fd: FormData)
    ensures Name in ExpectedErrors(fd) <==> fd.name == ""
    ensures Name in ExpectedErrors(fd) ==> ExpectedErrors(fd)[Name] == NameRequired
  {
  }

  /** The two-tier e-mail rule: required first, otherwise invalid when the
      pattern does not occur; the two messages never both apply. */
  lemma EmailRule(fd: FormData)
    ensures fd.email == "" ==> Email in ExpectedErrors(fd) && ExpectedErrors(fd)[Email] == EmailRequired
    ensures fd.email != "" && !PatternOccurs(fd.email) ==>
      Email in ExpectedErrors(fd) && ExpectedErrors(fd)[Email] == EmailInvalid
    ensures fd.email != "" && PatternOccurs(fd.email) ==> Email !in ExpectedErrors(fd)
    ensures Email in ExpectedErrors(fd) ==>
      (ExpectedErrors(fd)[Email] == EmailRequired <==> fd.email == "")
  {
    EmailTestMeansPatternOccurs(fd.email);
  }

  /** The three other fields only need to be present. */
  lemma PresenceRules(fd: FormData)
    ensures LinkedInUrl in ExpectedErrors(fd) <==> fd.linkedInUrl == ""
    ensures LinkedInUrl in ExpectedErrors(fd) ==> ExpectedErrors(fd)[LinkedInUrl] == LinkedInUrlRequired
    ensures Resume in ExpectedErrors(fd) <==> fd.resume.None?
    ensures Resume in ExpectedErrors(fd) ==> ExpectedErrors(fd)[Resume] == ResumeRequired
    ensures SkillsExperience in ExpectedErrors(fd) <==> fd.skillsExperience == ""
    ensures SkillsExperience in ExpectedErrors(fd) ==>
      ExpectedErrors(fd)[SkillsExperience] == SkillsExperienceRequired
  {
  }

  /** The error map is empty exactly when the form is complete. */
  lemma NoErrorsIffComplete(fd: FormData)
    ensures ExpectedErrors(fd) == map[] <==> IsComplete(fd)
  {
    EmailTestMeansPatternOccurs(fd.email);
    if ExpectedErrors(fd) == map[] {
      assert Name !in ExpectedErrors(fd) && Email !in ExpectedErrors(fd);
      assert LinkedInUrl !in ExpectedErrors(fd) && Resume !in ExpectedErrors(fd);
      assert SkillsExperience !in ExpectedErrors(fd);
    } else {
      var f :| f in ExpectedErrors(fd);
    }
  }

  /** Distinct fields have distinct property names, so each error sits under its own property. */
  lemma KeysDistinct(f: Field, g: Field)
    ensures f != g ==> Key(f) != Key(g)
  {
  }

  /** Errors are recorded only under the five fields, at most one per field:
      the map has at most five entries. Both facts hold by the Field type
      alone; Key and KeysDistinct tie the fields to the property names. */
  lemma AtMostOneErrorPerField(fd: FormData)
    ensures ExpectedErrors(fd).Keys <= AllFields
    ensures |ExpectedErrors(fd)| <= 5
  {
    assert |AllFields| == 5;
    SubsetCardinality(ExpectedErrors(fd).Keys, AllFields);
  }

  lemma SubsetCardinality<T>(a: set<T>, b: set<T>)
    requires a <= b
    ensures |a| <= |b|
  {
    assert b == a + (b - a);
  }

  /** The form component: its formData and errors state and its event handlers. */
  class ApplicationForm {
    var formData: FormData
    var errors: map<Field, string>

    constructor ()
      ensures formData == InitialFormData && errors == map[]
    {
      formData := InitialFormData;
      errors := map[];
    }

    /** A text input changed: only that input's field takes the new value. */
    method HandleChange(input: TextInput, value: string)
      modifies this
      ensures TextValue(formData, input) == value
      ensures forall other :: other != input ==> TextValue(formData, other) == TextValue(old(formData), other)
      ensures formData.resume == old(formData.resume)
      ensures errors == old(errors)
    {
      match input
      case NameInput => formData := formData.(name := value);
      case EmailInput => formData := formData.(email := value);
      case LinkedInUrlInput => formData := formData.(linkedInUrl := value);
      case SkillsExperienceInput => formData := formData.(skillsExperience := value);
    }

    /** A file was chosen, or the choice was cancelled (None): only resume changes. */
    method HandleFileChange(file: Option<ResumeFile>)
      modifies this
      ensures formData.resume == file
      ensures forall input :: TextValue(formData, input) == TextValue(old(formData), input)
      ensures errors == old(errors)
    {
      formData := formData.(resume := file);
    }

    /** Runs the field rules in order, adding one entry per failing field. */
    method Validate() returns (newErrors: map<Field, string>)
      ensures newErrors == ExpectedErrors(formData)
    {
      newErrors := map[];
      if formData.name == "" {
        newErrors := newErrors[Name := NameRequired];
      }
      if formData.email == "" {
        newErrors := newErrors[Email := EmailRequired];
      } else if !EmailTest(formData.email) {
        newErrors := newErrors[Email := EmailInvalid];
      }
      if formData.linkedInUrl == "" {
        newErrors := newErrors[LinkedInUrl := LinkedInUrlRequired];
      }
      if formData.resume.None? {
        newErrors := newErrors[Resume := ResumeRequired];
      }
      if formData.skillsExperience == "" {
        newErrors := newErrors[SkillsExperience := SkillsExperienceRequired];
      }
    }

    /** Submission: the errors state is replaced only when validation finds
        errors; otherwise the form is submitted and errors keeps its old value. */
    method HandleSubmit() returns (submitted: bool)
      modifies this
      ensures formData == old(formData)
      ensures submitted <==> ExpectedErrors(formData) == map[]
      ensures errors == if submitted then old(errors) else ExpectedErrors(formData)
    {
      var validationErrors := Validate();
      if |validationErrors| > 0 {
        errors := validationErrors;
        submitted := false;
      } else {
        submitted := true;
      }
    }
  }

  /** A submission that succeeds after a failed one leaves the old messages in place. */
  method StaleErrorsAfterCorrection()
  {
    var form := new ApplicationForm();
    NameRule(InitialFormData);
    var ok := form.HandleSubmit();
    assert !ok && form.errors[Name] == NameRequired;
    var filled := FormData("A", "a@b.c", "u", Some(ResumeFile("r.pdf")), "s");
    form.HandleChange(NameInput, filled.name);
    form.HandleChange(EmailInput, filled.email);
    form.HandleChange(LinkedInUrlInput, filled.linkedInUrl);
    form.HandleChange(SkillsExperienceInput, filled.skillsExperience);
    form.HandleFileChange(filled.resume);
    assert form.formData == filled;
    AtFromComplete(filled.email, 0, 1, 3);
    EmailTestMeansPatternOccurs(filled.email);
    NoErrorsIffComplete(filled);
    ok := form.HandleSubmit();
    assert ok && form.errors[Name] == NameRequired;
  }
}
