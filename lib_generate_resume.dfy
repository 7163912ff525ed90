/** The resume generator of `lib/generateResume.ts`, used by the documents route. */
module LibGenerateResume {
  import opened Wrappers
  import opened Text
  import opened Templates
  import opened ApiTypes
  import opened LibTypes
  import opened ResumeText

  /**
   * The paragraphs of the resume: the title line and the experience name
   * the offer's `title`; the objective names no company.
   */
  function ResumeBlocks(title: string, position: string, description: string, recruiter: Contact, manager: Contact): seq<Block> {
    [ TitleBlock(title),
      ObjectiveBlock(position, ""),
      SummaryBlock(position, description),
      ExperienceBlock(title, description),
      EducationBlock(position),
      SkillsBlock(description),
      InterviewBlock(ContactText(recruiter), ContactText(manager)) ]
  }

  /**
   * `generateResume(offer)`. The template reads `position.toLowerCase()`,
   * then `description.split`, then the recruiter's and the hiring manager's
   * names: the first of these that is missing throws.
   */
  function GenerateResume(o: RequestOffer): (r: Result<string, Failure>)
    ensures r.Ok? <==> Complete(o)
    ensures o.position.None? ==> r == Err(MissingField("position"))
    ensures o.position.Some? && o.description.None? ==> r == Err(MissingField("description"))
    ensures o.position.Some? && o.description.Some? && o.recruiter.None? ==> r == Err(MissingField("recruiter"))
    ensures o.position.Some? && o.description.Some? && o.recruiter.Some? && o.hiringManager.None?
      ==> r == Err(MissingField("hiringManager"))
  {
    if o.position.None? then Err(MissingField("position"))
    else if o.description.None? then Err(MissingField("description"))
    else if o.recruiter.None? then Err(MissingField("recruiter"))
    else if o.hiringManager.None? then Err(MissingField("hiringManager"))
    else Ok(Render(ResumeBlocks(Shown(o.title), o.position.value, o.description.value,
                                o.recruiter.value, o.hiringManager.value)))
  }

  lemma ResumeWellFormed(title: string, position: string, description: string, recruiter: Contact, manager: Contact)
    requires '\n' !in title && '\n' !in position && '\n' !in description
    requires '\n' !in ContactText(recruiter) && '\n' !in ContactText(manager)
    ensures WellFormed(ResumeBlocks(title, position, description, recruiter, manager))
  {
    var last := "Hiring Manager: " + ContactText(manager);
    assert last[|last| - 1] == ')';
    BreaklessNotIn("");
    GoodOpening(title, position, "");
    GoodSummary(position, description);
    GoodBody(title, position, description);
    GoodInterview(ContactText(recruiter), ContactText(manager));
  }

  /**
   * Read back at line breaks and blank lines, a generated resume gives back
   * its seven sections; the title line is `Resume for` and the offer's title
   * (the word `undefined` when the offer has none).
   */
  lemma ResumeSections(o: RequestOffer)
    requires Complete(o) && SingleLineRequest(o)
    ensures GenerateResume(o).Ok?
    ensures ReadBlocks(GenerateResume(o).value)
      == ResumeBlocks(Shown(o.title), o.position.value, o.description.value, o.recruiter.value, o.hiringManager.value)
    ensures ReadBlocks(GenerateResume(o).value)[0] == ["Resume for " + Shown(o.title)]
  {
    var blocks := ResumeBlocks(Shown(o.title), o.position.value, o.description.value,
                               o.recruiter.value, o.hiringManager.value);
    ResumeWellFormed(Shown(o.title), o.position.value, o.description.value,
                     o.recruiter.value, o.hiringManager.value);
    ReadRender(blocks);
  }

  /** The experience names the offer's title, and the footer the offer's one recruiter and one hiring manager. */
  lemma ResumeLines(o: RequestOffer)
    requires Complete(o) && SingleLineRequest(o)
    ensures GenerateResume(o).Ok?
    ensures var blocks := ReadBlocks(GenerateResume(o).value);
      && |blocks| == 7 && |blocks[3]| == 3
      && blocks[3][1] == "- Previous role related to " + Shown(o.title)
      && blocks[6] == [ InterviewHeading,
                        "Recruiter: " + ContactText(o.recruiter.value),
                        "Hiring Manager: " + ContactText(o.hiringManager.value) ]
  {
    ResumeSections(o);
  }

  /** An offer without a `title` (as the job boards send) is a resume "for undefined". */
  lemma UntitledResume(o: RequestOffer)
    requires Complete(o) && o.title.None?
    ensures StartsWith(GenerateResume(o).value, "Resume for undefined")
  {
    var blocks := ResumeBlocks(Shown(o.title), o.position.value, o.description.value,
                               o.recruiter.value, o.hiringManager.value);
    assert GenerateResume(o).value == Render(blocks);
    assert blocks[0][0] == "Resume for undefined";
    var last := "Hiring Manager: " + ContactText(o.hiringManager.value);
    assert last[|last| - 1] == ')';
    RenderIsJoin(blocks);
    JoinEnds(blocks, [""]);
    JoinEnds(Lines(blocks), "\n");
  }
}
