/** How the form's values change: the template picker, typing into a field, and
    the Add/Remove buttons of the four repeatable lists. `Step` says what one
    user action does to the values; the class `ResumeForm` holds the form's state
    and changes it in place, one method per action, each proved to agree with
    `Step`. A Remove button is rendered only beside an entry whose index is
    above 0, and the Add Achievement button only while the list is non-empty; a
    click on a button that is not rendered cannot happen, so `Step` leaves the
    values unchanged for it. */
module FormEditing {
  import opened Resume
  import opened FormSchema
  import FileController

  /** The three template images of the picker. */
  datatype TemplateImage = Template1 | Template2 | Template3

  /** The id each image's click handler passes to `handleTemplateSelect`. The
      picker can only produce ids the backend accepts, and it produces each of
      them. */
  function ImageTemplateId(image: TemplateImage): (id: string)
    ensures id in FileController.ValidTemplateIds
  {
    match image
    case Template1 => "1"
    case Template2 => "2"
    case Template3 => "3"
  }

  /** Distinct images select distinct templates. */
  lemma ImageTemplateIdInjective(a: TemplateImage, b: TemplateImage)
    requires ImageTemplateId(a) == ImageTemplateId(b)
    ensures a == b
  {
  }

  lemma PickerCoversAcceptedIds(id: string)
    requires id in FileController.ValidTemplateIds
    ensures exists image :: ImageTemplateId(image) == id
  {
    if id == "1" {
      assert ImageTemplateId(Template1) == id;
    } else if id == "2" {
      assert ImageTemplateId(Template2) == id;
    } else {
      assert ImageTemplateId(Template3) == id;
    }
  }

  /** One user action on the form. */
  datatype Edit =
    | SelectTemplate(image: TemplateImage)
    | TypePersonal(personal: PersonalInfo)
    | TypeJobTitle(jobTitle: string)
    | TypeCareerObjective(careerObjective: string)
    | TypeSkill(skillIndex: nat, skill: string)
    | AddSkill
    | RemoveSkill(skillIndex: nat)
    | TypeEducation(educationIndex: nat, education: Education)
    | AddEducation
    | RemoveEducation(educationIndex: nat)
    | TypeExperience(experienceIndex: nat, experience: Experience)
    | AddExperience
    | RemoveExperience(experienceIndex: nat)
    | TypeAchievement(achievementIndex: nat, achievement: Achievement)
    | AddAchievement
    | RemoveAchievement(achievementIndex: nat)

  /** `arrayHelpers.remove(i)`: the entry at `i` is gone, those before it keep
      their index and those after it move down by one. */
  function RemoveAt<T>(s: seq<T>, i: nat): (r: seq<T>)
    requires i < |s|
    ensures |r| == |s| - 1
    ensures forall j :: 0 <= j < i ==> r[j] == s[j]
    ensures forall j :: i <= j < |r| ==> r[j] == s[j + 1]
  {
    s[..i] + s[i + 1..]
  }

  /** A Remove button is rendered for the entry at `i` exactly when `0 < i`. */
  predicate RemoveOffered<T>(s: seq<T>, i: nat)
  {
    0 < i < |s|
  }

  /** A click on the Remove button at `i`, if it is rendered. The first entry is
      never removed, so a non-empty list stays non-empty. */
  function ClickRemove<T>(s: seq<T>, i: nat): (r: seq<T>)
    ensures RemoveOffered(s, i) ==> r == RemoveAt(s, i)
    ensures !RemoveOffered(s, i) ==> r == s
    ensures |s| > 0 ==> |r| > 0 && r[0] == s[0]
  {
    if RemoveOffered(s, i) then RemoveAt(s, i) else s
  }

  /** Typing into the entry at `i`; only rendered entries have an input. */
  function TypeAt<T>(s: seq<T>, i: nat, x: T): (r: seq<T>)
    ensures |r| == |s|
    ensures forall j :: 0 <= j < |s| && j != i ==> r[j] == s[j]
    ensures i < |s| ==> r[i] == x
  {
    if i < |s| then s[i := x] else s
  }

  /** The values after one action. */
  function Step(v: FormValues, e: Edit): FormValues
  {
    match e
    case SelectTemplate(image) => v.(templateId := ImageTemplateId(image))
    case TypePersonal(p) => v.(personal := p)
    case TypeJobTitle(t) => v.(jobTitle := t)
    case TypeCareerObjective(t) => v.(careerObjective := t)
    case TypeSkill(i, t) => v.(skills := TypeAt(v.skills, i, t))
    case AddSkill => v.(skills := v.skills + [""])
    case RemoveSkill(i) => v.(skills := ClickRemove(v.skills, i))
    case TypeEducation(i, x) => v.(education := TypeAt(v.education, i, x))
    case AddEducation => v.(education := v.education + [BlankEducation])
    case RemoveEducation(i) => v.(education := ClickRemove(v.education, i))
    case TypeExperience(i, x) => v.(experience := TypeAt(v.experience, i, x))
    case AddExperience => v.(experience := v.experience + [BlankExperience])
    case RemoveExperience(i) => v.(experience := ClickRemove(v.experience, i))
    case TypeAchievement(i, x) => v.(achievements := TypeAt(v.achievements, i, x))
    case AddAchievement =>
      if |v.achievements| > 0 then v.(achievements := v.achievements + [BlankAchievement]) else v
    case RemoveAchievement(i) => v.(achievements := ClickRemove(v.achievements, i))
  }

  /** The values after a sequence of actions, first action first. */
  function Run(v: FormValues, edits: seq<Edit>): FormValues
    decreases |edits|
  {
    if |edits| == 0 then v else Run(Step(v, edits[0]), edits[1..])
  }

  /** What every reachable state satisfies: no list is empty, and the template
      id is still blank or one the picker set. */
  predicate Editable(v: FormValues)
  {
    && |v.skills| > 0 && |v.education| > 0 && |v.experience| > 0 && |v.achievements| > 0
    && (v.templateId == "" || v.templateId in FileController.ValidTemplateIds)
  }

  /** Adding appends one blank entry and leaves the existing entries in place. */
  lemma AddAppendsBlank(v: FormValues)
    ensures var w := Step(v, AddSkill);
            |w.skills| == |v.skills| + 1 && w.skills[..|v.skills|] == v.skills && w.skills[|v.skills|] == ""
    ensures var w := Step(v, AddEducation);
            |w.education| == |v.education| + 1 && w.education[..|v.education|] == v.education
            && w.education[|v.education|] == BlankEducation
    ensures var w := Step(v, AddExperience);
            |w.experience| == |v.experience| + 1 && w.experience[..|v.experience|] == v.experience
            && w.experience[|v.experience|] == BlankExperience
    ensures |v.achievements| > 0 ==>
            var w := Step(v, AddAchievement);
            |w.achievements| == |v.achievements| + 1 && w.achievements[..|v.achievements|] == v.achievements
            && w.achievements[|v.achievements|] == BlankAchievement
  {
  }

  /** Every action keeps a reachable state reachable. */
  lemma StepKeepsEditable(v: FormValues, e: Edit)
    requires Editable(v)
    ensures Editable(Step(v, e))
  {
  }

  /** Add and Remove never touch the first entry of any list. */
  lemma FirstEntriesStable(v: FormValues, e: Edit)
    requires Editable(v)
    requires e.AddSkill? || e.RemoveSkill? || e.AddEducation? || e.RemoveEducation?
          || e.AddExperience? || e.RemoveExperience? || e.AddAchievement? || e.RemoveAchievement?
    ensures var w := Step(v, e);
            w.skills[0] == v.skills[0] && w.education[0] == v.education[0]
            && w.experience[0] == v.experience[0] && w.achievements[0] == v.achievements[0]
  {
  }

  lemma {:induction false} RunKeepsEditable(v: FormValues, edits: seq<Edit>)
    requires Editable(v)
    ensures Editable(Run(v, edits))
    decreases |edits|
  {
    if |edits| > 0 {
      StepKeepsEditable(v, edits[0]);
      RunKeepsEditable(Step(v, edits[0]), edits[1..]);
    }
  }

  /** From the initial values, no sequence of actions empties a list or sets a
      template id the backend would refuse. */
  lemma {:induction false} ReachableIsEditable(edits: seq<Edit>)
    ensures var v := Run(InitialValues(), edits);
            |v.skills| >= 1 && |v.education| >= 1 && |v.experience| >= 1 && |v.achievements| >= 1
            && (v.templateId == "" || v.templateId in FileController.ValidTemplateIds)
  {
    RunKeepsEditable(InitialValues(), edits);
  }

  /** The form's state: its `values` and the picker's `selectedTemplate`. */
  class ResumeForm {
    var selectedTemplate: string
    var templateId: string
    var personal: PersonalInfo
    var jobTitle: string
    var careerObjective: string
    var skills: seq<string>
    var education: seq<Education>
    var experience: seq<Experience>
    var achievements: seq<Achievement>

    function Values(): FormValues
      reads this
    {
      FormValues(templateId, personal, jobTitle, careerObjective, skills, education, experience, achievements)
    }

    /** The picker's highlight always shows the template id in the values, and the
        values are reachable. */
    ghost predicate Invariant()
      reads this
    {
      Editable(Values()) && selectedTemplate == templateId
    }

    constructor ()
      ensures Invariant()
      ensures Values() == InitialValues() && selectedTemplate == ""
    {
      selectedTemplate := "";
      templateId, personal := "", PersonalInfo("", "", "", "", "");
      jobTitle, careerObjective := "", "";
      skills, education, experience, achievements := [""], [BlankEducation], [BlankExperience], [BlankAchievement];
    }

    /** A click on a template image: `handleTemplateSelect` with that image's id. */
    method ClickTemplate(image: TemplateImage)
      requires Invariant()
      modifies this
      ensures Invariant()
      ensures Values() == Step(old(Values()), SelectTemplate(image))
      ensures selectedTemplate == templateId == ImageTemplateId(image)
    {
      var id := ImageTemplateId(image);
      selectedTemplate := id;
      templateId := id;
    }

    method SetPersonal(p: PersonalInfo)
      requires Invariant()
      modifies this
      ensures Invariant()
      ensures Values() == Step(old(Values()), TypePersonal(p)) && selectedTemplate == old(selectedTemplate)
    {
      personal := p;
    }

    method SetJobTitle(t: string)
      requires Invariant()
      modifies this
      ensures Invariant()
      ensures Values() == Step(old(Values()), TypeJobTitle(t)) && selectedTemplate == old(selectedTemplate)
    {
      jobTitle := t;
    }

    method SetCareerObjective(t: string)
      requires Invariant()
      modifies this
      ensures Invariant()
      ensures Values() == Step(old(Values()), TypeCareerObjective(t)) && selectedTemplate == old(selectedTemplate)
    {
      careerObjective := t;
    }

    method SetSkill(i: nat, t: string)
      requires Invariant()
      modifies this
      ensures Invariant()
      ensures Values() == Step(old(Values()), TypeSkill(i, t)) && selectedTemplate == old(selectedTemplate)
    {
      if i < |skills| {
        skills := skills[i := t];
      }
    }

    /** Add Skill: `arrayHelpers.push("")`. */
    method PushSkill()
      requires Invariant()
      modifies this
      ensures Invariant()
      ensures Values() == Step(old(Values()), AddSkill) && selectedTemplate == old(selectedTemplate)
    {
      skills := skills + [""];
    }

    /** Remove Skill beside entry `i`: rendered only for `i > 0`. */
    method ClickRemoveSkill(i: nat)
      requires Invariant()
      modifies this
      ensures Invariant()
      ensures Values() == Step(old(Values()), RemoveSkill(i)) && selectedTemplate == old(selectedTemplate)
    {
      if 0 < i < |skills| {
        skills := skills[..i] + skills[i + 1..];
      }
    }

    method SetEducation(i: nat, x: Education)
      requires Invariant()
      modifies this
      ensures Invariant()
      ensures Values() == Step(old(Values()), TypeEducation(i, x)) && selectedTemplate == old(selectedTemplate)
    {
      if i < |education| {
        education := education[i := x];
      }
    }

    /** Add Education: push a blank entry. */
    method PushEducation()
      requires Invariant()
      modifies this
      ensures Invariant()
      ensures Values() == Step(old(Values()), AddEducation) && selectedTemplate == old(selectedTemplate)
    {
      education := education + [BlankEducation];
    }

    /** Remove Education beside entry `i`: rendered only for `i > 0`. */
    method ClickRemoveEducation(i: nat)
      requires Invariant()
      modifies this
      ensures Invariant()
      ensures Values() == Step(old(Values()), RemoveEducation(i)) && selectedTemplate == old(selectedTemplate)
    {
      if 0 < i < |education| {
        education := education[..i] + education[i + 1..];
      }
    }

    method SetExperience(i: nat, x: Experience)
      requires Invariant()
      modifies this
      ensures Invariant()
      ensures Values() == Step(old(Values()), TypeExperience(i, x)) && selectedTemplate == old(selectedTemplate)
    {
      if i < |experience| {
        experience := experience[i := x];
      }
    }

    /** Add Experience: push a blank entry. */
    method PushExperience()
      requires Invariant()
      modifies this
      ensures Invariant()
      ensures Values() == Step(old(Values()), AddExperience) && selectedTemplate == old(selectedTemplate)
    {
      experience := experience + [BlankExperience];
    }

    /** Remove Experience beside entry `i`: rendered only for `i > 0`. */
    method ClickRemoveExperience(i: nat)
      requires Invariant()
      modifies this
      ensures Invariant()
      ensures Values() == Step(old(Values()), RemoveExperience(i)) && selectedTemplate == old(selectedTemplate)
    {
      if 0 < i < |experience| {
        experience := experience[..i] + experience[i + 1..];
      }
    }

    method SetAchievement(i: nat, x: Achievement)
      requires Invariant()
      modifies this
      ensures Invariant()
      ensures Values() == Step(old(Values()), TypeAchievement(i, x)) && selectedTemplate == old(selectedTemplate)
    {
      if i < |achievements| {
        achievements := achievements[i := x];
      }
    }

    /** Add Achievement: push a blank entry; the button is rendered only while
        the list is non-empty. */
    method PushAchievement()
      requires Invariant()
      modifies this
      ensures Invariant()
      ensures Values() == Step(old(Values()), AddAchievement) && selectedTemplate == old(selectedTemplate)
    {
      if |achievements| > 0 {
        achievements := achievements + [BlankAchievement];
      }
    }

    /** Remove Achievement beside entry `i`: rendered only for `i > 0`. */
    method ClickRemoveAchievement(i: nat)
      requires Invariant()
      modifies this
      ensures Invariant()
      ensures Values() == Step(old(Values()), RemoveAchievement(i)) && selectedTemplate == old(selectedTemplate)
    {
      if 0 < i < |achievements| {
        achievements := achievements[..i] + achievements[i + 1..];
      }
    }
  }
}
