/** The JSON responses the API routes write with `res.status(...).json(...)`. */
module Http {

  datatype Body =
    | ResumeBody(resume: string)
    | CoverLetterBody(coverLetter: string)
    | DocumentsBody(resume: string, coverLetter: string)
    | ErrorBody(error: string)

  datatype Response = Response(status: int, body: Body)

  /** Every route answers a method other than POST with this, before reading the body. */
  const MethodNotAllowed := Response(405, ErrorBody("Method Not Allowed"))
}
