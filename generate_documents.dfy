/** The route of `pages/api/generateDocuments.ts`: both documents in one response. */
module GenerateDocuments {
  import opened Wrappers
  import opened Http
  import opened LibTypes
  import LibGenerateResume
  import LibGenerateCoverLetter

  const Failed := Response(500, ErrorBody("Failed to generate documents"))

  /**
   * Any HTTP verb other than POST is refused before the body is read. A POST
   * generates the resume, then the cover letter; if either throws, the
   * route answers 500 and sends neither. A body without an offer (`None`)
   * throws at the first field the resume reads.
   */
  function Handle(verb: string, offer: Option<RequestOffer>): (r: Response)
    ensures r.status == 405 <==> verb != "POST"
    ensures r.status == 405 ==> r == MethodNotAllowed
    ensures r.status == 200 <==> verb == "POST" && offer.Some? && Complete(offer.value)
    ensures r.status == 200 ==>
      && LibGenerateResume.GenerateResume(offer.value).Ok?
      && LibGenerateCoverLetter.GenerateCoverLetter(offer.value).Ok?
      && r.body == DocumentsBody(
      LibGenerateResume.GenerateResume(offer.value).value,
      LibGenerateCoverLetter.GenerateCoverLetter(offer.value).value)
    ensures r.status != 200 && r.status != 405 ==> r == Failed
  {
    if verb != "POST" then MethodNotAllowed
    else if offer.None? then Failed
    else
      match LibGenerateResume.GenerateResume(offer.value)
      case Err(_) => Failed
      case Ok(resume) =>
        match LibGenerateCoverLetter.GenerateCoverLetter(offer.value)
        case Err(_) => Failed
        case Ok(coverLetter) => Response(200, DocumentsBody(resume, coverLetter))
  }
}
