/**
 * The records the backend passes around (app/schemas/): the stored CV fields the letter writers
 * read, and the body of a cover-letter request.
 */
module Schemas {
  import opened Wrappers

  /**
   * A stored CV as the letter writers see it: its `skills` and `experience` lists, either of
   * which may be missing or null (`None`).
   */
  datatype CvDoc = CvDoc(skills: Option<seq<string>>, experience: Option<seq<string>>)

  /** `CoverLetterRequest`: every field required except `tone`, which may be null. */
  datatype CoverLetterRequest = CoverLetterRequest(
    cvId: string,
    jobId: string,
    jobTitle: string,
    company: string,
    jobDescription: string,
    tone: Option<string>)

  /** Python's `x or default` on an optional string: `None` and `""` both give the default. */
  function OrDefault(x: Option<string>, default: string): (r: string)
    ensures x.Some? && x.value != [] ==> r == x.value
    ensures x.None? || x.value == [] ==> r == default
  {
    if x.Some? && x.value != [] then x.value else default
  }

  /** `doc.get(field) or []` on an optional list. */
  function ItemsOf(field: Option<seq<string>>): seq<string>
  {
    field.GetOr([])
  }

  /** The tone request handlers use: `req.tone or "professional"`. */
  function ToneOf(req: CoverLetterRequest): string
  {
    OrDefault(req.tone, "professional")
  }
}
