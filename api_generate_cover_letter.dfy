/** The cover letter template and route of `pages/api/generateCoverLetter.ts`. */
module ApiGenerateCoverLetter {
  import opened Wrappers
  import opened Text
  import opened Templates
  import opened Http
  import opened ApiTypes
  import opened CoverLetterText

  /** The paragraphs of the letter; the company is named in the opening and the closing paragraph. */
  function CoverLetterBlocks(o: JobOffer): seq<Block> {
    [ Greeting,
      InterestBlock(o.position, o.company),
      FirstSentenceBlock(o.description),
      CareerBlock(o.position),
      ClosingBlock(o.company),
      Signature,
      InterviewBlock(FirstContactText(o.recruiters), FirstContactText(o.hiringManagers)) ]
  }

  /** `generateCoverLetter(offer)`. */
  function GenerateCoverLetter(o: JobOffer): string {
    Render(CoverLetterBlocks(o))
  }

  lemma CoverLetterTrimSafe(o: JobOffer)
    ensures TrimSafe(CoverLetterBlocks(o))
  {
    var last := "Hiring Manager: " + FirstContactText(o.hiringManagers);
    assert last[|last| - 1] == ')';
  }

  /** With single-line fields the letter is a well-formed sequence of paragraphs. */
  lemma CoverLetterWellFormed(o: JobOffer)
    requires SingleLineFields(o)
    ensures WellFormed(CoverLetterBlocks(o))
  {
    CoverLetterTrimSafe(o);
    GoodGreeting();
    GoodInterest(o.position, o.company);
    GoodFirstSentence(o.description);
    GoodCareer(o.position);
    GoodClosing(o.company);
    GoodInterview(FirstContactText(o.recruiters), FirstContactText(o.hiringManagers));
  }

  /** Whatever the offer holds, the letter opens with the greeting line. */
  lemma CoverLetterFirstLine(o: JobOffer)
    ensures FirstPiece(GenerateCoverLetter(o), '\n') == "Dear Hiring Manager,"
  {
    CoverLetterTrimSafe(o);
    RenderFirstLine(CoverLetterBlocks(o));
  }

  /**
   * Read back at line breaks and blank lines, the letter holds its seven
   * paragraphs in order: the greeting, the paragraph that starts with the
   * description's first sentence third, the signature and then the footer.
   */
  lemma CoverLetterSections(o: JobOffer)
    requires SingleLineFields(o)
    ensures ReadBlocks(GenerateCoverLetter(o)) == CoverLetterBlocks(o)
    ensures var blocks := ReadBlocks(GenerateCoverLetter(o));
      && |blocks| == 7
      && blocks[0] == ["Dear Hiring Manager,"]
      && |blocks[2]| == 1 && StartsWith(blocks[2][0], FirstPiece(o.description, '.') + ".")
      && blocks[5] == ["Sincerely,", "[Your Name]"]
      && blocks[6][0] == InterviewHeading
  {
    CoverLetterWellFormed(o);
    ReadRender(CoverLetterBlocks(o));
    FirstSentenceStarts(o.description);
  }

  /** The footer names the first recruiter and first hiring manager, or prints `undefined` for an empty list. */
  lemma CoverLetterFooter(o: JobOffer)
    ensures EndsWith(GenerateCoverLetter(o), Join(
      [ InterviewHeading,
        "Recruiter: " + FirstContactText(o.recruiters),
        "Hiring Manager: " + FirstContactText(o.hiringManagers) ], "\n"))
  {
    CoverLetterTrimSafe(o);
    RenderEndsWith(CoverLetterBlocks(o));
  }

  /**
   * The route: any HTTP verb other than POST is refused before the body is
   * read; a POST answers 200 with the letter, or 500 when the request body
   * holds no offer the template can read (`None`).
   */
  function Handle(verb: string, offer: Option<JobOffer>): (r: Response)
    ensures r.status == 405 <==> verb != "POST"
    ensures r.status == 405 ==> r == MethodNotAllowed
    ensures r.status == 200 <==> verb == "POST" && offer.Some?
    ensures r.status == 200 ==> r.body == CoverLetterBody(GenerateCoverLetter(offer.value))
    ensures r.status == 500 ==> r.body == ErrorBody("Failed to generate cover letter")
    ensures r.status in {200, 405, 500}
  {
    if verb != "POST" then MethodNotAllowed
    else match offer
      case Some(o) => Response(200, CoverLetterBody(GenerateCoverLetter(o)))
      case None => Response(500, ErrorBody("Failed to generate cover letter"))
  }
}
