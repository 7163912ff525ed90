/**
 * The sections of the resume template, shared by `pages/api/generateResume.ts`
 * and `lib/generateResume.ts`; each takes the text it interpolates. Long
 * runs of fixed text are written as several literals joined by `+`.
 */
module ResumeText {
  import opened Text
  import opened Templates

  /** The title line: `Resume for ` and what the resume is for. */
  function TitleBlock(subject: string): Block {
    [ "Resume for " + subject ]
  }

  /** The objective; `team` is what follows "a dynamic team" before the full stop. */
  function ObjectiveBlock(position: string, team: string): Block {
    [ ObjectiveHeading,
      "Seeking a position as " + position + " to contribute my" + " skills and experience"
        + " to a dynamic team" + team + "." ]
  }

  /** The summary: the position and the description's first sentence, both lower-cased. */
  function SummaryBlock(position: string, description: string): Block {
    [ SummaryHeading,
      "- Extensive experience in " + Lower(position) + " roles",
      "- Strong understanding of " + Lower(FirstPiece(description, '.')),
      "- Proven track record of" + " success in similar positions" ]
  }

  function ExperienceBlock(role: string, description: string): Block {
    [ ExperienceHeading,
      "- Previous role related to " + role,
      "- Accomplishments aligned" + " with " + description ]
  }

  function EducationBlock(position: string): Block {
    [ EducationHeading,
      "- Relevant degree in a field" + " related to " + position ]
  }

  function SkillsBlock(description: string): Block {
    [ SkillsHeading,
      "- Skills extracted from" + " job description: " + description ]
  }

  /** The title and the objective are made of good lines when what they interpolate holds no line break. */
  lemma GoodOpening(subject: string, position: string, team: string)
    requires '\n' !in subject && '\n' !in position && '\n' !in team
    ensures GoodBlock(TitleBlock(subject)) && GoodBlock(ObjectiveBlock(position, team))
  {
    BreaklessNotIn("Resume for ");
    BreaklessNotIn("Seeking a position as ");
    BreaklessNotIn(" to contribute my");
    BreaklessNotIn(" skills and experience");
    BreaklessNotIn(" to a dynamic team");
  }

  lemma GoodSummary(position: string, description: string)
    requires '\n' !in position && '\n' !in description
    ensures GoodBlock(SummaryBlock(position, description))
  {
    FirstPieceKeepsAbsent(description, '.', '\n');
    LowerKeepsAbsent(position, '\n');
    LowerKeepsAbsent(FirstPiece(description, '.'), '\n');
    BreaklessNotIn("- Extensive experience in ");
    BreaklessNotIn(" roles");
    BreaklessNotIn("- Strong understanding of ");
    BreaklessNotIn("- Proven track record of");
    BreaklessNotIn(" success in similar positions");
  }

  lemma GoodBody(role: string, position: string, description: string)
    requires '\n' !in role && '\n' !in position && '\n' !in description
    ensures GoodBlock(ExperienceBlock(role, description))
    ensures GoodBlock(EducationBlock(position)) && GoodBlock(SkillsBlock(description))
  {
    BreaklessNotIn("- Previous role related to ");
    BreaklessNotIn("- Accomplishments aligned");
    BreaklessNotIn(" with ");
    BreaklessNotIn("- Relevant degree in a field");
    BreaklessNotIn(" related to ");
    BreaklessNotIn("- Skills extracted from");
    BreaklessNotIn(" job description: ");
  }
}
