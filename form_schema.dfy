/** The values the resume form holds, their initial state and the rules of its
    validation schema. A value the schema marks `required` must be a non-empty
    string; phone and year fields must also match `/^\d+$/`; each list must hold
    at least one entry. Yup's e-mail and URL checks are not re-derived: the
    schema is parameterised by them (`FormatChecks`). */
module FormSchema {
  import opened Resume
  import Text

  datatype PersonalInfo = PersonalInfo(
    name: string,
    lastName: string,
    emailAddress: string,
    phoneNumber: string,
    linkedinUrl: string)

  /** The form's `values`, field for field. */
  datatype FormValues = FormValues(
    templateId: string,
    personal: PersonalInfo,
    jobTitle: string,
    careerObjective: string,
    skills: seq<string>,
    education: seq<Education>,
    experience: seq<Experience>,
    achievements: seq<Achievement>)

  /** Yup's `string().email()` and `string().url()` tests, supplied from outside. */
  datatype FormatChecks = FormatChecks(isEmail: string -> bool, isUrl: string -> bool)

  const BlankEducation: Education := Education("", "", "")
  const BlankExperience: Experience := Experience("", "", "")
  const BlankAchievement: Achievement := Achievement("", "")

  /** `initialValues`: every string empty, one blank entry in each list. It fails
      validation whatever the format checks, since no template is chosen. */
  function InitialValues(): (v: FormValues)
    ensures v.templateId == ""
    ensures v.skills == [""] && v.education == [BlankEducation]
    ensures v.experience == [BlankExperience] && v.achievements == [BlankAchievement]
    ensures forall checks :: !Valid(v, checks)
  {
    FormValues("", PersonalInfo("", "", "", "", ""), "", "", [""],
      [BlankEducation], [BlankExperience], [BlankAchievement])
  }

  /** `string().required()`: present and not the empty string. */
  predicate Required(s: string)
  {
    |s| > 0
  }

  /** `string().matches(/^\d+$/).required()`: the phone and passing-year rule. */
  function DigitsRequired(s: string): (r: bool)
    ensures r <==> s != [] && forall i :: 0 <= i < |s| ==> '0' <= s[i] <= '9'
  {
    Text.MatchesDigitsOnly(s) && Required(s)
  }

  predicate ValidPersonal(p: PersonalInfo, checks: FormatChecks)
  {
    && Required(p.name)
    && Required(p.lastName)
    && checks.isEmail(p.emailAddress) && Required(p.emailAddress)
    && DigitsRequired(p.phoneNumber)
    && checks.isUrl(p.linkedinUrl) && Required(p.linkedinUrl)
  }

  predicate ValidEducation(e: Education)
  {
    Required(e.schoolName) && DigitsRequired(e.passingYear) && Required(e.description)
  }

  predicate ValidExperience(e: Experience)
  {
    Required(e.companyName) && DigitsRequired(e.passingYear) && Required(e.responsibilities)
  }

  predicate ValidAchievement(a: Achievement)
  {
    Required(a.field) && Required(a.awards)
  }

  /** The whole `validationSchema`. Skill strings carry no rule of their own;
      only the skills list must be non-empty. */
  predicate Valid(v: FormValues, checks: FormatChecks)
  {
    && Required(v.templateId)
    && ValidPersonal(v.personal, checks)
    && Required(v.jobTitle)
    && Required(v.careerObjective)
    && |v.skills| > 0
    && |v.education| > 0 && (forall i :: 0 <= i < |v.education| ==> ValidEducation(v.education[i]))
    && |v.experience| > 0 && (forall i :: 0 <= i < |v.experience| ==> ValidExperience(v.experience[i]))
    && |v.achievements| > 0 && (forall i :: 0 <= i < |v.achievements| ==> ValidAchievement(v.achievements[i]))
  }

  /** A valid form has a non-empty template id, an all-digit phone number and
      all-digit passing years, and no empty list. */
  lemma ValidConsequences(v: FormValues, checks: FormatChecks)
    requires Valid(v, checks)
    ensures v.templateId != ""
    ensures v.personal.phoneNumber != [] && Text.AllDigits(v.personal.phoneNumber)
    ensures forall i :: 0 <= i < |v.education| ==> Text.AllDigits(v.education[i].passingYear)
    ensures forall i :: 0 <= i < |v.experience| ==> Text.AllDigits(v.experience[i].passingYear)
    ensures v.skills != [] && v.education != [] && v.experience != [] && v.achievements != []
  {
  }

  /** The content of a skill never affects validity: a blank skill passes. */
  lemma SkillTextIrrelevant(v: FormValues, checks: FormatChecks, i: nat, text: string)
    requires i < |v.skills|
    ensures Valid(v.(skills := v.skills[i := text]), checks) == Valid(v, checks)
  {
  }
}
