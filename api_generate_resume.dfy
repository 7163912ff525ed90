/** The resume template and route of `pages/api/generateResume.ts`. */
module ApiGenerateResume {
  import opened Wrappers
  import opened Text
  import opened Templates
  import opened Http
  import opened ApiTypes
  import opened ResumeText

  /** The paragraphs of the resume: a title line naming position and company, then six sections. */
  function ResumeBlocks(o: JobOffer): seq<Block> {
    [ TitleBlock(o.position + " at " + o.company),
      ObjectiveBlock(o.position, " at " + o.company),
      SummaryBlock(o.position, o.description),
      ExperienceBlock(o.position, o.description),
      EducationBlock(o.position),
      SkillsBlock(o.description),
      InterviewBlock(FirstContactText(o.recruiters), FirstContactText(o.hiringManagers)) ]
  }

  /** `generateResume(offer)`. */
  function GenerateResume(o: JobOffer): string {
    Render(ResumeBlocks(o))
  }

  lemma ResumeTrimSafe(o: JobOffer)
    ensures TrimSafe(ResumeBlocks(o))
    ensures ResumeBlocks(o)[0] == ["Resume for " + o.position + " at " + o.company]
  {
    assert "Resume for " + (o.position + " at " + o.company) == "Resume for " + o.position + " at " + o.company;
    var last := "Hiring Manager: " + FirstContactText(o.hiringManagers);
    assert last[|last| - 1] == ')';
  }

  /** With single-line fields the resume is a well-formed sequence of sections. */
  lemma ResumeWellFormed(o: JobOffer)
    requires SingleLineFields(o)
    ensures WellFormed(ResumeBlocks(o))
  {
    ResumeTrimSafe(o);
    BreaklessNotIn(" at ");
    GoodOpening(o.position + " at " + o.company, o.position, " at " + o.company);
    GoodSummary(o.position, o.description);
    GoodBody(o.position, o.position, o.description);
    GoodInterview(FirstContactText(o.recruiters), FirstContactText(o.hiringManagers));
  }

  /** `trim()` strips only the template's wrapping: the resume starts with its title line. */
  lemma ResumeStartsWithTitle(o: JobOffer)
    ensures GenerateResume(o) == Join(Lines(ResumeBlocks(o)), "\n")
    ensures StartsWith(GenerateResume(o), "Resume for " + o.position + " at " + o.company)
  {
    var blocks := ResumeBlocks(o);
    ResumeTrimSafe(o);
    RenderIsJoin(blocks);
    JoinEnds(blocks, [""]);
    JoinEnds(Lines(blocks), "\n");
  }

  /** The first line names the position and the company, whatever the description holds. */
  lemma ResumeFirstLine(o: JobOffer)
    requires '\n' !in o.position && '\n' !in o.company
    ensures FirstPiece(GenerateResume(o), '\n') == "Resume for " + o.position + " at " + o.company
  {
    ResumeTrimSafe(o);
    BreaklessNotIn("Resume for ");
    BreaklessNotIn(" at ");
    RenderFirstLine(ResumeBlocks(o));
  }

  /**
   * Read back at line breaks and blank lines, the resume holds a title and
   * its six sections in order; the summary names the lower-cased position
   * and the lower-cased text of the description before its first full stop.
   */
  lemma ResumeSections(o: JobOffer)
    requires SingleLineFields(o)
    ensures ReadBlocks(GenerateResume(o)) == ResumeBlocks(o)
    ensures var blocks := ReadBlocks(GenerateResume(o));
      && |blocks| == 7
      && blocks[0] == ["Resume for " + o.position + " at " + o.company]
      && blocks[1][0] == ObjectiveHeading
      && blocks[2][0] == SummaryHeading
      && blocks[3][0] == ExperienceHeading
      && blocks[4][0] == EducationHeading
      && blocks[5][0] == SkillsHeading
      && blocks[6][0] == InterviewHeading
      && blocks[2][1] == "- Extensive experience in " + Lower(o.position) + " roles"
      && blocks[2][2] == "- Strong understanding of " + Lower(FirstPiece(o.description, '.'))
  {
    ResumeTrimSafe(o);
    ResumeWellFormed(o);
    ReadRender(ResumeBlocks(o));
  }

  /** The footer names the first recruiter and first hiring manager, or prints `undefined` for an empty list. */
  lemma ResumeFooter(o: JobOffer)
    ensures EndsWith(GenerateResume(o), Join(
      [ InterviewHeading,
        "Recruiter: " + FirstContactText(o.recruiters),
        "Hiring Manager: " + FirstContactText(o.hiringManagers) ], "\n"))
    ensures o.recruiters == [] ==> FirstContactText(o.recruiters) == "undefined (undefined)"
    ensures o.recruiters != [] ==> FirstContactText(o.recruiters) == o.recruiters[0].name + " (" + o.recruiters[0].email + ")"
  {
    ResumeTrimSafe(o);
    RenderEndsWith(ResumeBlocks(o));
  }

  /**
   * The route: any HTTP verb other than POST is refused before the body is
   * read; a POST answers 200 with the resume, or 500 when the request body
   * holds no offer the template can read (`None`).
   */
  function Handle(verb: string, offer: Option<JobOffer>): (r: Response)
    ensures r.status == 405 <==> verb != "POST"
    ensures r.status == 405 ==> r == MethodNotAllowed
    ensures r.status == 200 <==> verb == "POST" && offer.Some?
    ensures r.status == 200 ==> r.body == ResumeBody(GenerateResume(offer.value))
    ensures r.status != 200 ==> r.body.ErrorBody?
    ensures r.status in {200, 405, 500}
  {
    if verb != "POST" then MethodNotAllowed
    else match offer
      case Some(o) => Response(200, ResumeBody(GenerateResume(o)))
      case None => Response(500, ErrorBody("Failed to generate resume"))
  }
}
