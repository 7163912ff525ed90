/** The cover letter generator of `lib/generateCoverLetter.ts`, used by the documents route. */
module LibGenerateCoverLetter {
  import opened Wrappers
  import opened Text
  import opened Templates
  import opened ApiTypes
  import opened LibTypes
  import opened CoverLetterText
  import ApiGenerateCoverLetter

  /** The employer as this template names it: the offer carries no company. */
  const YourCompany := "your company"

  function CoverLetterBlocks(position: string, description: string, recruiter: Contact, manager: Contact): seq<Block> {
    [ Greeting,
      InterestBlock(position, YourCompany),
      FirstSentenceBlock(description),
      CareerBlock(position),
      ClosingBlock(YourCompany),
      Signature,
      InterviewBlock(ContactText(recruiter), ContactText(manager)) ]
  }

  /**
   * `generateCoverLetter(offer)`. The template prints `position` first, but
   * reads `description.split` before `position.toLowerCase()`, then the
   * recruiter's and the hiring manager's names: the first of these that is
   * missing throws.
   */
  function GenerateCoverLetter(o: RequestOffer): (r: Result<string, Failure>)
    ensures r.Ok? <==> Complete(o)
    ensures o.description.None? ==> r == Err(MissingField("description"))
    ensures o.description.Some? && o.position.None? ==> r == Err(MissingField("position"))
    ensures o.description.Some? && o.position.Some? && o.recruiter.None? ==> r == Err(MissingField("recruiter"))
    ensures o.description.Some? && o.position.Some? && o.recruiter.Some? && o.hiringManager.None?
      ==> r == Err(MissingField("hiringManager"))
  {
    if o.description.None? then Err(MissingField("description"))
    else if o.position.None? then Err(MissingField("position"))
    else if o.recruiter.None? then Err(MissingField("recruiter"))
    else if o.hiringManager.None? then Err(MissingField("hiringManager"))
    else Ok(Render(CoverLetterBlocks(o.position.value, o.description.value,
                                     o.recruiter.value, o.hiringManager.value)))
  }

  /**
   * The letter is the one the `pages/api` route writes for an offer whose
   * company is "your company" and whose contact lists hold just the offer's
   * recruiter and hiring manager. The offer's title plays no part.
   */
  lemma CoverLetterIsApiLetter(o: RequestOffer, id: string, postedDate: string)
    requires Complete(o)
    ensures GenerateCoverLetter(o) == Ok(ApiGenerateCoverLetter.GenerateCoverLetter(
      JobOffer(id, "your company", o.position.value, o.description.value, postedDate,
               [o.recruiter.value], [o.hiringManager.value])))
  {
    var api := JobOffer(id, "your company", o.position.value, o.description.value, postedDate,
                        [o.recruiter.value], [o.hiringManager.value]);
    assert ApiGenerateCoverLetter.CoverLetterBlocks(api)
      == CoverLetterBlocks(o.position.value, o.description.value, o.recruiter.value, o.hiringManager.value);
  }

  /** Whatever the offer holds, a generated letter opens with the greeting line. */
  lemma CoverLetterFirstLine(o: RequestOffer)
    requires Complete(o)
    ensures FirstPiece(GenerateCoverLetter(o).value, '\n') == "Dear Hiring Manager,"
  {
    CoverLetterIsApiLetter(o, "", "");
    ApiGenerateCoverLetter.CoverLetterFirstLine(
      JobOffer("", "your company", o.position.value, o.description.value, "",
               [o.recruiter.value], [o.hiringManager.value]));
  }

  /** Read back at line breaks and blank lines, a generated letter gives back its seven paragraphs. */
  lemma CoverLetterSections(o: RequestOffer)
    requires Complete(o) && SingleLineRequest(o)
    ensures GenerateCoverLetter(o).Ok?
    ensures ReadBlocks(GenerateCoverLetter(o).value)
      == CoverLetterBlocks(o.position.value, o.description.value, o.recruiter.value, o.hiringManager.value)
  {
    var api := JobOffer("", "your company", o.position.value, o.description.value, "",
                        [o.recruiter.value], [o.hiringManager.value]);
    CoverLetterIsApiLetter(o, "", "");
    BreaklessNotIn("your company");
    ApiGenerateCoverLetter.CoverLetterSections(api);
    assert ApiGenerateCoverLetter.CoverLetterBlocks(api)
      == CoverLetterBlocks(o.position.value, o.description.value, o.recruiter.value, o.hiringManager.value);
  }
}
