# Resume Builder: request handling and form rules in Dafny

This project models the two parts of the Resume Builder that have precise behaviour:

- **The resume handler** (`dataUpload`, `POST /api/resume`). It refuses a template id outside
  `"1"`, `"2"`, `"3"` with 404. It refuses a `personal_information` object that lacks any of the
  five required keys with 400, and the message lists the missing keys. Otherwise it reshapes the
  snake_case submission into the merge payload for the document template. That step renames
  fields, maps the three entry lists and wraps the LinkedIn URL in an HTML anchor. It then looks up
  the template file by id and answers with the generated PDF, or with 401 when generation failed.
  These are pure functions in module `FileController`. The generator's effect is an input value
  (`Generation`) and the response is an output value (`Outcome`).
- **The resume form.** Module `FormSchema` holds the validation schema as predicates over the
  form's values: required strings, digits-only phone and year fields, and lists of at least one
  entry. Module `FormEditing` holds the editing actions: the template picker, typing into a field,
  and the Add/Remove buttons of the four repeatable lists. `Step` and `Run` say what actions do to
  the values. The class `FormEditing.ResumeForm` holds the form state and updates it in place,
  with one method per action, each proved to agree with `Step`. The main result is that no
  sequence of actions starting from the initial values empties a list, or sets a template id the
  handler refuses.
- Module `Submission` joins the two halves. The posted body always owns all five personal keys.
  A reachable form that passes the schema is always handed to the generator.

Module `Resume` holds the entry records shared by both sides. Module `Text` holds `join(", ")`,
its inverse and the `/^\d+$/` rule.

Modelling choices:

- `personal_information` is a `map<string, string>`: membership is `hasOwnProperty`, so a key
  present with an empty value is not missing.
- The other body fields have the types the form sends: strings, and lists of string records.
- Yup's `email()` and `url()` tests are not re-derived. The schema takes them as parameters
  (`FormatChecks`).
- `generatePDF` removes the old output file and then swallows every service error
  (`backend/PdfGenerator.js:11-14, 44-55`). A failed run therefore leaves no file, and the
  handler's read of it throws into the `.catch` that answers 401. `Generation = Saved(pdf) |
  NotSaved` is what the read finds.
- A button the form does not render cannot be clicked: a Remove at index 0, or Add Achievement on
  an empty list (`frontend/src/form.js:677`). `Step` leaves the values unchanged for those.

## Model

| member | source | states |
|---|---|---|
| `FileController.MissingFields` | backend/fileController.js:34-44 | the result holds a key exactly when it is a required key that `personal_information` does not own; it is empty exactly when all five keys are owned |
| `FileController.MissingFromMembers` | backend/fileController.js:41-44 | the filter reports a key exactly when it is among the keys scanned and `personal_information` does not own it |
| `FileController.MissingFieldsInOrder` | backend/fileController.js:34-44 | the missing list is exactly the absent keys, each once, in the order name, last_name, email_address, phone_number, linkedin_url |
| `FileController.BadRequestNamesMissingFields` | backend/fileController.js:46-52 | with a valid id and a key missing, the response is an error whose message is the fixed prefix followed by a list that splits at ", " back into exactly the missing keys |
| `Text.SplitJoin` | backend/fileController.js:48-50 | joining comma-free names with ", " loses nothing: splitting at ", " returns the same non-empty list |
| `FileController.LinkedInAnchor` | backend/fileController.js:65 | the LinkedIn value is `<a href="`, then the URL verbatim, then `">LinkedIn</a>` |
| `FileController.UnwrapLinkedInAnchor` | backend/fileController.js:65 | the URL can always be recovered from the anchor by its fixed opening and closing text |
| `FileController.HrefIsUrlIffNoQuote` | backend/fileController.js:65 | the anchor's href attribute, read up to the next double quote, equals the URL if and only if the URL holds no double quote (the URL is not escaped) |
| `FileController.MapEducation` | backend/fileController.js:69-73 | same length as the input, and entry i is input entry i with school_name→SchoolName, passing_year→Year, description→Description |
| `FileController.MapExperience` | backend/fileController.js:74-78 | same length as the input, and entry i is input entry i with company_name→CompanyName, passing_year→Year, responsibilities→Description |
| `FileController.MapAchievements` | backend/fileController.js:79-82 | same length as the input, and entry i is input entry i with field→Type, awards→Description |
| `FileController.Transform` | backend/fileController.js:54-83 | Name, LastName, EmailAddress and PhoneNumber are the owned values of the required keys; the LinkedIn value unwraps to the URL; JobTitle, Summary and Skills are the inputs unchanged; the three lists keep their lengths |
| `FileController.TransformLossless` | backend/fileController.js:60-83 | the request can be rebuilt from the payload: only the keys of personal_information that are not required are lost |
| `FileController.TemplatePath` | backend/fileController.js:87-96 | the lookup yields a file exactly for the ids "1", "2", "3" |
| `FileController.TemplatePathInjective` | backend/fileController.js:87-96 | distinct accepted ids yield distinct template files |
| `FileController.Prepare` | backend/fileController.js:23-96 | an id outside the set answers 404 "Template not found! Invalid Template: " + id; a missing key answers 400 with the joined list; generation is planned exactly when both checks pass, with the looked-up template and the transformed payload, so the second 404 branch is unreachable |
| `FileController.Deliver` | backend/fileController.js:101-117 | a saved PDF is sent with disposition "attachment; filename=cv.pdf" and type "application/pdf"; no file answers 401 "Unauthorised" |
| `FileController.DataUpload` | backend/fileController.js:5-118 | the status is 200, 400, 401 or 404; 404 exactly for an unknown id, 400 exactly for a known id with missing keys, 200 exactly when generation was planned and the file was saved |
| `FileController.RejectedIgnoresGeneration` | backend/fileController.js:23-52 | a refused body gets the same response whatever the generator would do: nothing is generated |
| `FormSchema.InitialValues` | frontend/src/form.js:17-32 | the template id is empty, each list holds exactly one blank entry, and the initial values fail validation whatever the format checks |
| `FormSchema.DigitsRequired` | frontend/src/form.js:44-46 | the phone and passing-year rule holds exactly for non-empty strings of ASCII digits |
| `Text.MatchesDigitsOnly` | frontend/src/form.js:45 | `/^\d+$/` matches exactly the non-empty strings whose every character is a digit |
| `FormSchema.ValidConsequences` | frontend/src/form.js:36-110 | a valid form has a template id, an all-digit phone number and passing years, and four non-empty lists |
| `FormSchema.SkillTextIrrelevant` | frontend/src/form.js:53-58 | changing the text of a skill never changes validity, so a blank skill passes |
| `FormEditing.ImageTemplateId` | frontend/src/form.js:167-193 | each picker image selects an id the handler accepts |
| `FormEditing.ImageTemplateIdInjective` | frontend/src/form.js:167-193 | distinct images select distinct ids |
| `FormEditing.PickerCoversAcceptedIds` | frontend/src/form.js:167-193 | every id the handler accepts is selected by some image |
| `FormEditing.RemoveAt` | frontend/src/form.js:373 | removal deletes one entry; entries before it keep their index and entries after it move down by one |
| `FormEditing.ClickRemove` | frontend/src/form.js:369-377 | the entry is removed only when its index is above 0, so a non-empty list stays non-empty with its first entry unchanged |
| `FormEditing.TypeAt` | frontend/src/form.js:357-363 | typing into entry i changes entry i only, and no length |
| `FormEditing.AddAppendsBlank` | frontend/src/form.js:384-390 | each Add appends one blank entry at the end and keeps the existing entries (Add Achievement only on a non-empty list) |
| `FormEditing.StepKeepsEditable` | frontend/src/form.js:354-690 | no single action empties a list or sets a template id outside the accepted set |
| `FormEditing.FirstEntriesStable` | frontend/src/form.js:354-690 | Add and Remove never change the first entry of any list |
| `FormEditing.RunKeepsEditable` | frontend/src/form.js:354-690 | any sequence of actions keeps every list non-empty and the template id blank or accepted |
| `FormEditing.ReachableIsEditable` | frontend/src/form.js:17-32 | from the initial values, every list keeps length ≥ 1 and the template id stays "" or one of "1", "2", "3" under any sequence of actions |
| `FormEditing.ResumeForm.constructor` | frontend/src/form.js:11-32 | the form starts with the initial values and no selected template |
| `FormEditing.ResumeForm.ClickTemplate` | frontend/src/form.js:147-150 | both the highlighted template and `template_id` become the image's id; the invariant holds |
| `FormEditing.ResumeForm.PushSkill` | frontend/src/form.js:384-390 | the skills become the old skills plus one empty string; nothing else changes |
| `FormEditing.ResumeForm.ClickRemoveSkill` | frontend/src/form.js:369-377 | the skill at the index is removed if the index is above 0; nothing else changes |
| `FormEditing.ResumeForm.SetSkill` | frontend/src/form.js:359-363 | the skill at the index takes the typed text; nothing else changes |
| `FormEditing.ResumeForm.PushEducation` | frontend/src/form.js:484-496 | one blank education entry is appended; nothing else changes |
| `FormEditing.ResumeForm.ClickRemoveEducation` | frontend/src/form.js:466-474 | the education entry at the index is removed if the index is above 0; nothing else changes |
| `FormEditing.ResumeForm.SetEducation` | frontend/src/form.js:417-464 | the education entry at the index takes the typed fields; nothing else changes |
| `FormEditing.ResumeForm.PushExperience` | frontend/src/form.js:590-602 | one blank experience entry is appended; nothing else changes |
| `FormEditing.ResumeForm.ClickRemoveExperience` | frontend/src/form.js:572-580 | the experience entry at the index is removed if the index is above 0; nothing else changes |
| `FormEditing.ResumeForm.SetExperience` | frontend/src/form.js:523-570 | the experience entry at the index takes the typed fields; nothing else changes |
| `FormEditing.ResumeForm.PushAchievement` | frontend/src/form.js:677-687 | one blank achievement entry is appended while the list is non-empty; nothing else changes |
| `FormEditing.ResumeForm.ClickRemoveAchievement` | frontend/src/form.js:659-667 | the achievement entry at the index is removed if the index is above 0; nothing else changes |
| `FormEditing.ResumeForm.SetAchievement` | frontend/src/form.js:629-657 | the achievement entry at the index takes the typed fields; nothing else changes |
| `FormEditing.ResumeForm.SetPersonal` | frontend/src/form.js:201-303 | the personal information takes the typed values; nothing else changes |
| `FormEditing.ResumeForm.SetJobTitle` | frontend/src/form.js:315-320 | the job title takes the typed text; nothing else changes |
| `FormEditing.ResumeForm.SetCareerObjective` | frontend/src/form.js:333-338 | the career objective takes the typed text; nothing else changes |
| `Submission.RequestBodyOf` | frontend/src/form.js:125 | the posted body carries the form's template id and owns all five personal keys, so it never lacks a required field |
| `Submission.ReachableFormRejections` | backend/fileController.js:23-52 | a form reached from the initial values never gets a 400, and gets a 404 exactly when no template was picked |
| `Submission.ValidReachableFormGenerates` | frontend/src/form.js:36-110 | a reachable form that passes the schema is always sent to generation, with the picked template and the form's data; the response is then decided by the generator alone |

## Left out

- `backend/PdfGenerator.js`: the PDF services SDK calls are not modelled. That covers credentials from the environment, the execution context, the document merge and the save. The service's output is the `Generation` input. Its separate API-error and usage-error branches behave alike, and both are absorbed into `NotSaved`.
- `backend/index.js` and `backend/routes.js`: Express, CORS and environment wiring, with no logic.
- The file system and the response object. `fs.readFileSync`, `res.setHeader`, `res.send` and `res.status().json()` become the `Outcome` value. `console` logging is dropped.
- The fixed output path `./output/cv.pdf` shared by all requests, and the race between concurrent requests on it. This is file-system state and concurrency.
- The handler's crash when the body lacks `personal_information` or one of the lists. Such a value cannot be built in the model's types, so those bodies are excluded. Non-string template ids are excluded too: `includes` compares strictly, so they would answer 404.
- `handleSubmit`: the fetch, the blob, `URL.createObjectURL` and the loading, success and error popups. Only the body it posts (`values`) is modelled, by `Submission.RequestBodyOf`.
- All JSX rendering, except the facts that decide which buttons exist.
- Yup's error messages and their attachment to field paths. Validation is modelled as a yes/no predicate.
- The internals of Yup's `email()` and `url()`. They are the parameters `FormatChecks.isEmail` and `FormatChecks.isUrl`.
