/** The POST /api/resume handler `dataUpload`: template-id check, the missing
    personal-information check, the reshaping of the submission into the merge
    payload, the template-file lookup and the response outcome. The document
    generation itself and the file read are an input (`Generation`), and the
    response is a value (`Outcome`) instead of calls on the Express response. */
module FileController {
  import opened Resume
  import Text

  /** The ids the handler accepts. */
  const ValidTemplateIds: seq<string> := ["1", "2", "3"]

  /** The keys `personal_information` must own, in the order they are reported. */
  const RequiredFields: seq<string> := ["name", "last_name", "email_address", "phone_number", "linkedin_url"]

  const TemplateNotFoundPrefix: string := "Template not found! Invalid Template: "
  const MissingFieldsPrefix: string := "Bad Request! Missing required fields in personal_information: "
  const AnchorOpen: string := "<a href=\""
  const AnchorClose: string := "\">LinkedIn</a>"

  /** The JSON body of the request. `personalInformation` maps the keys the
      object owns to their values. */
  datatype RequestBody = RequestBody(
    templateId: string,
    personalInformation: map<string, string>,
    jobTitle: string,
    careerObjective: string,
    skills: seq<string>,
    education: seq<Education>,
    experience: seq<Experience>,
    achievements: seq<Achievement>)

  /** Payload entries, named after the template placeholders. */
  datatype EducationEntry = EducationEntry(schoolName: string, year: string, description: string)
  datatype ExperienceEntry = ExperienceEntry(companyName: string, year: string, description: string)
  /** `achievementType` is the payload's `Type` key. */
  datatype AchievementEntry = AchievementEntry(achievementType: string, description: string)

  /** `transformedJson`, the data merged into the template. */
  datatype MergePayload = MergePayload(
    name: string,
    lastName: string,
    emailAddress: string,
    phoneNumber: string,
    linkedIn: string,
    jobTitle: string,
    summary: string,
    skills: seq<string>,
    education: seq<EducationEntry>,
    experience: seq<ExperienceEntry>,
    achievements: seq<AchievementEntry>)

  /** What the generator left behind: the PDF read back from the output file, or
      no file (the generator swallows service errors, so a failed run shows up as
      the read of the output file throwing). */
  datatype Generation = Saved(pdf: seq<byte>) | NotSaved

  /** The response the handler sends. */
  datatype Outcome =
    | ErrorJson(status: int, error: string)
    | PdfAttachment(disposition: string, contentType: string, data: seq<byte>)

  /** The handler's decision before generation: answer at once, or generate
      from this template with this payload. */
  datatype Plan =
    | Respond(outcome: Outcome)
    | Generate(templatePath: string, payload: MergePayload)

  /** HTTP status of an outcome; `res.send` without `res.status` answers 200. */
  function Status(o: Outcome): int
  {
    match o
    case ErrorJson(status, _) => status
    case PdfAttachment(_, _, _) => 200
  }

  // ---------------------------------------------------------------------------
  // Missing personal-information fields

  /** `[k]` when `pi` does not own `k`, otherwise nothing. */
  function IfAbsent(k: string, pi: map<string, string>): seq<string>
  {
    if k in pi then [] else [k]
  }

  /** The keys of `keys` from index `from` on that `pi` does not own, in the
      order of `keys`. */
  function MissingFrom(keys: seq<string>, from: nat, pi: map<string, string>): (r: seq<string>)
    requires from <= |keys|
    ensures |r| <= |keys| - from
    decreases |keys| - from
  {
    if from == |keys| then []
    else IfAbsent(keys[from], pi) + MissingFrom(keys, from + 1, pi)
  }

  /** A key is reported exactly when it is one of the keys scanned and is absent. */
  lemma {:induction false} MissingFromMembers(keys: seq<string>, from: nat, pi: map<string, string>, k: string)
    requires from <= |keys|
    ensures k in MissingFrom(keys, from, pi) <==> k in keys[from..] && k !in pi
    decreases |keys| - from
  {
    if from < |keys| {
      assert keys[from..] == [keys[from]] + keys[from + 1..];
      MissingFromMembers(keys, from + 1, pi, k);
    }
  }

  /** `personal_informationMissingFields`: the required keys that are absent.
      Only presence is checked, so a key owned with an empty value is not missing. */
  function MissingFields(pi: map<string, string>): (r: seq<string>)
    ensures forall k :: k in r <==> k in RequiredFields && k !in pi
    ensures r == [] <==> forall k :: k in RequiredFields ==> k in pi
  {
    assert RequiredFields[0..] == RequiredFields;
    var r := MissingFrom(RequiredFields, 0, pi);
    assert forall k :: k in r <==> k in RequiredFields && k !in pi by {
      forall k ensures k in r <==> k in RequiredFields && k !in pi {
        MissingFromMembers(RequiredFields, 0, pi, k);
      }
    }
    assert r != [] ==> r[0] in r;
    r
  }

  /** The missing-field list is exactly the absent required keys, each once, in
      the order name, last_name, email_address, phone_number, linkedin_url. */
  lemma MissingFieldsInOrder(pi: map<string, string>)
    ensures MissingFields(pi)
         == IfAbsent("name", pi)
          + IfAbsent("last_name", pi)
          + IfAbsent("email_address", pi)
          + IfAbsent("phone_number", pi)
          + IfAbsent("linkedin_url", pi)
  {
    var keys := RequiredFields;
    var m4 := MissingFrom(keys, 4, pi);
    assert m4 == IfAbsent("linkedin_url", pi) + [];
    var m3 := MissingFrom(keys, 3, pi);
    assert m3 == IfAbsent("phone_number", pi) + m4;
    var m2 := MissingFrom(keys, 2, pi);
    assert m2 == IfAbsent("email_address", pi) + m3;
    var m1 := MissingFrom(keys, 1, pi);
    assert m1 == IfAbsent("last_name", pi) + m2;
    assert MissingFrom(keys, 0, pi) == IfAbsent("name", pi) + m1;
    assert RequiredFields[0..] == RequiredFields;
    ghost var a, b, c, d, e := IfAbsent("name", pi), IfAbsent("last_name", pi),
      IfAbsent("email_address", pi), IfAbsent("phone_number", pi), IfAbsent("linkedin_url", pi);
    assert MissingFields(pi) == a + (b + (c + (d + (e + []))));
    ConcatAssoc5(a, b, c, d, e);
  }

  lemma ConcatAssoc5(a: seq<string>, b: seq<string>, c: seq<string>, d: seq<string>, e: seq<string>)
    ensures a + (b + (c + (d + (e + [])))) == a + b + c + d + e
  {
  }

  lemma RequiredFieldsCommaFree()
    ensures forall j :: 0 <= j < |RequiredFields| ==> ',' !in RequiredFields[j]
  {
  }

  /** No required key holds a comma, so the joined list in the 400 message can be
      split back. */
  lemma {:induction false} MissingFieldsCommaFree(pi: map<string, string>)
    ensures forall i :: 0 <= i < |MissingFields(pi)| ==> ',' !in MissingFields(pi)[i]
  {
    var r := MissingFields(pi);
    forall i | 0 <= i < |r| ensures ',' !in r[i] {
      assert r[i] in r;
      assert r[i] in RequiredFields;
      var j :| 0 <= j < |RequiredFields| && RequiredFields[j] == r[i];
      RequiredFieldsCommaFree();
    }
  }

  // ---------------------------------------------------------------------------
  // The LinkedIn hyperlink

  /** The `LinkedIn` payload value: the URL embedded verbatim, without escaping. */
  function LinkedInAnchor(url: string): (r: string)
    ensures |r| == |AnchorOpen| + |url| + |AnchorClose|
    ensures r[..|AnchorOpen|] == AnchorOpen
    ensures r[|AnchorOpen|..|AnchorOpen| + |url|] == url
    ensures r[|AnchorOpen| + |url|..] == AnchorClose
  {
    AnchorOpen + url + AnchorClose
  }

  /** Recovers the embedded URL from an anchor built by `LinkedInAnchor`, by its
      fixed opening and closing text. */
  function UnwrapAnchor(a: string): Option<string>
  {
    if |a| >= |AnchorOpen| + |AnchorClose|
       && a[..|AnchorOpen|] == AnchorOpen
       && a[|a| - |AnchorClose|..] == AnchorClose
    then Some(a[|AnchorOpen|..|a| - |AnchorClose|])
    else None
  }

  lemma UnwrapLinkedInAnchor(url: string)
    ensures UnwrapAnchor(LinkedInAnchor(url)) == Some(url)
  {
  }

  /** The text before the first double quote. */
  function UpToQuote(s: string): (r: string)
    ensures |r| <= |s| && r == s[..|r|] && '"' !in r
    ensures |r| < |s| ==> s[|r|] == '"'
  {
    if |s| == 0 || s[0] == '"' then "" else [s[0]] + UpToQuote(s[1..])
  }

  /** The value of the `href` attribute as an HTML reader sees it: the text after
      `<a href="` up to the next double quote. */
  function HrefValue(a: string): Option<string>
  {
    if |a| >= |AnchorOpen| && a[..|AnchorOpen|] == AnchorOpen
    then Some(UpToQuote(a[|AnchorOpen|..]))
    else None
  }

  /** The anchor's href is exactly the submitted URL if and only if the URL holds
      no double quote; otherwise the link is cut short at the quote. */
  lemma {:induction false} HrefIsUrlIffNoQuote(url: string)
    ensures HrefValue(LinkedInAnchor(url)) == Some(url) <==> '"' !in url
  {
    var a := LinkedInAnchor(url);
    assert a[|AnchorOpen|..] == url + AnchorClose;
    var h := UpToQuote(url + AnchorClose);
    assert (url + AnchorClose)[|url|] == '"';
    if '"' !in url {
      assert forall i :: 0 <= i < |url| ==> (url + AnchorClose)[i] == url[i];
      assert h == url;
    } else {
      var j :| 0 <= j < |url| && url[j] == '"';
      assert '"' !in h;
      assert h != url;
    }
  }

  // ---------------------------------------------------------------------------
  // The merge payload

  function EducationToEntry(e: Education): EducationEntry
  {
    EducationEntry(e.schoolName, e.passingYear, e.description)
  }

  function ExperienceToEntry(e: Experience): ExperienceEntry
  {
    ExperienceEntry(e.companyName, e.passingYear, e.responsibilities)
  }

  function AchievementToEntry(a: Achievement): AchievementEntry
  {
    AchievementEntry(a.field, a.awards)
  }

  /** `education.map(...)`: same length and order, entry i renamed from input i. */
  function MapEducation(s: seq<Education>): (r: seq<EducationEntry>)
    ensures |r| == |s|
    ensures forall i :: 0 <= i < |s| ==> r[i] == EducationToEntry(s[i])
  {
    if |s| == 0 then [] else [EducationToEntry(s[0])] + MapEducation(s[1..])
  }

  /** `experience.map(...)`: same length and order, entry i renamed from input i. */
  function MapExperience(s: seq<Experience>): (r: seq<ExperienceEntry>)
    ensures |r| == |s|
    ensures forall i :: 0 <= i < |s| ==> r[i] == ExperienceToEntry(s[i])
  {
    if |s| == 0 then [] else [ExperienceToEntry(s[0])] + MapExperience(s[1..])
  }

  /** `achievements.map(...)`: same length and order, entry i renamed from input i. */
  function MapAchievements(s: seq<Achievement>): (r: seq<AchievementEntry>)
    ensures |r| == |s|
    ensures forall i :: 0 <= i < |s| ==> r[i] == AchievementToEntry(s[i])
  {
    if |s| == 0 then [] else [AchievementToEntry(s[0])] + MapAchievements(s[1..])
  }

  /** `transformedJson`, built once every required key is present. */
  function Transform(b: RequestBody): (p: MergePayload)
    requires forall k :: k in RequiredFields ==> k in b.personalInformation
    ensures p.name == b.personalInformation["name"]
    ensures p.lastName == b.personalInformation["last_name"]
    ensures p.emailAddress == b.personalInformation["email_address"]
    ensures p.phoneNumber == b.personalInformation["phone_number"]
    ensures UnwrapAnchor(p.linkedIn) == Some(b.personalInformation["linkedin_url"])
    ensures p.jobTitle == b.jobTitle && p.summary == b.careerObjective && p.skills == b.skills
    ensures |p.education| == |b.education| && |p.experience| == |b.experience|
    ensures |p.achievements| == |b.achievements|
  {
    var pi := b.personalInformation;
    UnwrapLinkedInAnchor(pi["linkedin_url"]);
    MergePayload(
      pi["name"], pi["last_name"], pi["email_address"], pi["phone_number"],
      LinkedInAnchor(pi["linkedin_url"]),
      b.jobTitle, b.careerObjective, b.skills,
      MapEducation(b.education), MapExperience(b.experience), MapAchievements(b.achievements))
  }

  /** The personal information restricted to the required keys: all the
      transform reads of it. */
  function RequiredPart(pi: map<string, string>): (m: map<string, string>)
    ensures m.Keys == pi.Keys * (set k | k in RequiredFields)
  {
    map k | k in pi && k in RequiredFields :: pi[k]
  }

  function EntriesToEducation(s: seq<EducationEntry>): (r: seq<Education>)
    ensures |r| == |s|
  {
    if |s| == 0 then [] else [Education(s[0].schoolName, s[0].year, s[0].description)] + EntriesToEducation(s[1..])
  }

  function EntriesToExperience(s: seq<ExperienceEntry>): (r: seq<Experience>)
    ensures |r| == |s|
  {
    if |s| == 0 then [] else [Experience(s[0].companyName, s[0].year, s[0].description)] + EntriesToExperience(s[1..])
  }

  function EntriesToAchievements(s: seq<AchievementEntry>): (r: seq<Achievement>)
    ensures |r| == |s|
  {
    if |s| == 0 then [] else [Achievement(s[0].achievementType, s[0].description)] + EntriesToAchievements(s[1..])
  }

  lemma {:induction false} EducationRoundTrip(s: seq<Education>)
    ensures EntriesToEducation(MapEducation(s)) == s
  {
    if |s| > 0 {
      EducationRoundTrip(s[1..]);
      assert MapEducation(s)[1..] == MapEducation(s[1..]);
    }
  }

  lemma {:induction false} ExperienceRoundTrip(s: seq<Experience>)
    ensures EntriesToExperience(MapExperience(s)) == s
  {
    if |s| > 0 {
      ExperienceRoundTrip(s[1..]);
      assert MapExperience(s)[1..] == MapExperience(s[1..]);
    }
  }

  lemma {:induction false} AchievementsRoundTrip(s: seq<Achievement>)
    ensures EntriesToAchievements(MapAchievements(s)) == s
  {
    if |s| > 0 {
      AchievementsRoundTrip(s[1..]);
      assert MapAchievements(s)[1..] == MapAchievements(s[1..]);
    }
  }

  /** Rebuilds a request body (with the given template id) from a payload. */
  function Untransform(templateId: string, p: MergePayload): Option<RequestBody>
  {
    match UnwrapAnchor(p.linkedIn)
    case None => None
    case Some(url) =>
      Some(RequestBody(
        templateId,
        map["name" := p.name, "last_name" := p.lastName, "email_address" := p.emailAddress,
            "phone_number" := p.phoneNumber, "linkedin_url" := url],
        p.jobTitle, p.summary, p.skills,
        EntriesToEducation(p.education), EntriesToExperience(p.experience),
        EntriesToAchievements(p.achievements)))
  }

  /** The transform loses nothing but the keys of `personal_information` that
      are not required: the request can be rebuilt from the payload. */
  lemma RequiredPartOfComplete(pi: map<string, string>)
    requires forall k :: k in RequiredFields ==> k in pi
    ensures RequiredPart(pi)
         == map["name" := pi["name"], "last_name" := pi["last_name"],
                "email_address" := pi["email_address"], "phone_number" := pi["phone_number"],
                "linkedin_url" := pi["linkedin_url"]]
  {
  }

  lemma TransformLossless(b: RequestBody)
    requires forall k :: k in RequiredFields ==> k in b.personalInformation
    ensures Untransform(b.templateId, Transform(b))
         == Some(b.(personalInformation := RequiredPart(b.personalInformation)))
  {
    var pi := b.personalInformation;
    EducationRoundTrip(b.education);
    ExperienceRoundTrip(b.experience);
    AchievementsRoundTrip(b.achievements);
    RequiredPartOfComplete(pi);
  }

  // ---------------------------------------------------------------------------
  // Template lookup

  /** The if-chain from template id to template file; `None` is its 404 branch. */
  function TemplatePath(id: string): (r: Option<string>)
    ensures r.Some? <==> id in ValidTemplateIds
  {
    if id == "1" then Some("../Templates/BasicTemplate.docx")
    else if id == "2" then Some("../Templates/LinkTemplate.docx")
    else if id == "3" then Some("../Templates/ImageTemplate.docx")
    else None
  }

  /** Distinct accepted ids name distinct template files. */
  lemma TemplatePathInjective(a: string, b: string)
    requires TemplatePath(a).Some? && TemplatePath(a) == TemplatePath(b)
    ensures a == b
  {
  }

  // ---------------------------------------------------------------------------
  // The handler

  /** `dataUpload` up to the call of the generator. */
  function Prepare(b: RequestBody): (r: Plan)
    ensures b.templateId !in ValidTemplateIds
            ==> r == Respond(ErrorJson(404, TemplateNotFoundPrefix + b.templateId))
    ensures b.templateId in ValidTemplateIds && MissingFields(b.personalInformation) != []
            ==> r == Respond(ErrorJson(400, MissingFieldsPrefix + Text.Join(MissingFields(b.personalInformation), ", ")))
    ensures r.Generate? <==> b.templateId in ValidTemplateIds && MissingFields(b.personalInformation) == []
    ensures r.Generate? ==> Some(r.templatePath) == TemplatePath(b.templateId) && r.payload == Transform(b)
  {
    if b.templateId !in ValidTemplateIds then
      Respond(ErrorJson(404, TemplateNotFoundPrefix + b.templateId))
    else
      var missing := MissingFields(b.personalInformation);
      if |missing| > 0 then
        Respond(ErrorJson(400, MissingFieldsPrefix + Text.Join(missing, ", ")))
      else
        var payload := Transform(b);
        match TemplatePath(b.templateId)
        case Some(path) => Generate(path, payload)
        case None => Respond(ErrorJson(404, "Invalid Template ID: " + b.templateId + ", Template Not Found!"))
  }

  /** The `.then`/`.catch` of the generator call. */
  function Deliver(g: Generation): (r: Outcome)
    ensures r.PdfAttachment? <==> g.Saved?
    ensures r.PdfAttachment? ==> r.data == g.pdf && r.contentType == "application/pdf"
                                 && r.disposition == "attachment; filename=cv.pdf"
    ensures r.ErrorJson? ==> r == ErrorJson(401, "Unauthorised")
  {
    match g
    case Saved(pdf) => PdfAttachment("attachment; filename=cv.pdf", "application/pdf", pdf)
    case NotSaved => ErrorJson(401, "Unauthorised")
  }

  /** `dataUpload`: the response for a body, given what the generator left. */
  function DataUpload(b: RequestBody, g: Generation): (r: Outcome)
    ensures Status(r) in {200, 400, 401, 404}
    ensures Status(r) == 404 <==> b.templateId !in ValidTemplateIds
    ensures Status(r) == 400 <==> b.templateId in ValidTemplateIds && MissingFields(b.personalInformation) != []
    ensures Status(r) == 200 <==> Prepare(b).Generate? && g.Saved?
  {
    match Prepare(b)
    case Respond(o) => o
    case Generate(_, _) => Deliver(g)
  }

  /** A rejected body never depends on the generator: no generation happens. */
  lemma RejectedIgnoresGeneration(b: RequestBody, g1: Generation, g2: Generation)
    requires b.templateId !in ValidTemplateIds || MissingFields(b.personalInformation) != []
    ensures DataUpload(b, g1) == DataUpload(b, g2) && Prepare(b).Respond?
  {
  }

  /** The 400 message names exactly the missing fields, in order: splitting its
      list back yields the missing-field list. */
  lemma {:induction false} BadRequestNamesMissingFields(b: RequestBody, g: Generation)
    requires b.templateId in ValidTemplateIds && MissingFields(b.personalInformation) != []
    ensures DataUpload(b, g).ErrorJson?
    ensures var e := DataUpload(b, g).error;
            |e| >= |MissingFieldsPrefix| && e[..|MissingFieldsPrefix|] == MissingFieldsPrefix
            && Text.SplitAtCommaSpace(e[|MissingFieldsPrefix|..]) == MissingFields(b.personalInformation)
  {
    var missing := MissingFields(b.personalInformation);
    MissingFieldsCommaFree(b.personalInformation);
    Text.SplitJoin(missing);
    var e := DataUpload(b, g).error;
    assert e == MissingFieldsPrefix + Text.Join(missing, ", ");
    assert e[|MissingFieldsPrefix|..] == Text.Join(missing, ", ");
  }
}
