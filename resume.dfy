/** The entities of a resume submission that the form edits and the backend reshapes.
    Each list entry is a record of strings, exactly as the form holds it and as the
    JSON body carries it. */
module Resume {

  /** One entry of the `education` list: school_name, passing_year, description. */
  datatype Education = Education(schoolName: string, passingYear: string, description: string)

  /** One entry of the `experience` list: company_name, passing_year, responsibilities. */
  datatype Experience = Experience(companyName: string, passingYear: string, responsibilities: string)

  /** One entry of the `achievements` list: field, awards. */
  datatype Achievement = Achievement(field: string, awards: string)

  /** A byte of the generated PDF file. */
  newtype byte = x: int | 0 <= x < 256

  datatype Option<+T> = None | Some(value: T)
}
