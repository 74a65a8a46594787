/** The link between the form and the handler: the body the form posts is its
    `values`, serialised as JSON. Every such body owns all five personal
    information keys, and a reachable form that passes the schema also passes
    the handler's checks. */
module Submission {
  import opened Resume
  import opened FormSchema
  import FormEditing
  import FileController

  /** The request body the handler reads for the posted `values`. */
  function RequestBodyOf(v: FormValues): (b: FileController.RequestBody)
    ensures b.templateId == v.templateId
    ensures FileController.MissingFields(b.personalInformation) == []
    ensures b.personalInformation["linkedin_url"] == v.personal.linkedinUrl
  {
    FileController.RequestBody(
      v.templateId,
      map["name" := v.personal.name, "last_name" := v.personal.lastName,
          "email_address" := v.personal.emailAddress, "phone_number" := v.personal.phoneNumber,
          "linkedin_url" := v.personal.linkedinUrl],
      v.jobTitle, v.careerObjective, v.skills, v.education, v.experience, v.achievements)
  }

  /** A form reached from the initial values is refused by the handler only for
      want of a template (404), never for missing fields (400). */
  lemma {:induction false} ReachableFormRejections(edits: seq<FormEditing.Edit>, g: FileController.Generation)
    ensures var v := FormEditing.Run(InitialValues(), edits);
            var o := FileController.DataUpload(RequestBodyOf(v), g);
            && FileController.Status(o) != 400
            && (FileController.Status(o) == 404 <==> v.templateId == "")
  {
    FormEditing.ReachableIsEditable(edits);
  }

  /** A reachable form that passes the schema is always handed to the generator,
      with the chosen template and the form's data, and the response is then
      decided by the generator alone. */
  lemma {:induction false} ValidReachableFormGenerates(
    edits: seq<FormEditing.Edit>, checks: FormatChecks, g: FileController.Generation)
    requires Valid(FormEditing.Run(InitialValues(), edits), checks)
    ensures var v := FormEditing.Run(InitialValues(), edits);
            var plan := FileController.Prepare(RequestBodyOf(v));
            && plan.Generate?
            && Some(plan.templatePath) == FileController.TemplatePath(v.templateId)
            && plan.payload.name == v.personal.name
            && plan.payload.linkedIn == FileController.LinkedInAnchor(v.personal.linkedinUrl)
            && |plan.payload.education| == |v.education| > 0
            && |plan.payload.experience| == |v.experience| > 0
            && |plan.payload.achievements| == |v.achievements| > 0
            && plan.payload.skills == v.skills
            && FileController.DataUpload(RequestBodyOf(v), g) == FileController.Deliver(g)
  {
    var v := FormEditing.Run(InitialValues(), edits);
    FormEditing.ReachableIsEditable(edits);
    assert v.templateId != "";
  }
}
