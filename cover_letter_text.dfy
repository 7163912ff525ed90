/**
 * The paragraphs of the cover letter template, shared by
 * `pages/api/generateCoverLetter.ts` and `lib/generateCoverLetter.ts`; each
 * takes the text it interpolates. Long runs of fixed text are written as
 * several literals joined by `+`.
 */
module CoverLetterText {
  import opened Text
  import opened Templates

  const Greeting: Block := ["Dear Hiring Manager,"]

  /** The opening paragraph; `employer` is the company named, or `your company`. */
  function InterestBlock(position: string, employer: string): Block {
    [ "I am writing to express my" + " strong interest in the "
        + position + " position at " + employer
        + ", as advertised. With my" + " background and skills, I"
        + " believe I would be a great" + " fit for this role." ]
  }

  /** The description's text before its first full stop, made a sentence again. */
  function FirstSentenceBlock(description: string): Block {
    [ FirstPiece(description, '.')
        + ". This aligns perfectly with" + " my experience and passion" + " for the field." ]
  }

  /** The paragraph is one line, starting with the description's first sentence and its full stop. */
  lemma FirstSentenceStarts(description: string)
    ensures |FirstSentenceBlock(description)| == 1
    ensures StartsWith(FirstSentenceBlock(description)[0], FirstPiece(description, '.') + ".")
  {
    var sentence := FirstPiece(description, '.');
    assert FirstSentenceBlock(description)[0][..|sentence| + 1] == sentence + ".";
  }

  function CareerBlock(position: string): Block {
    [ "Throughout my career, I have" + " developed a strong skill" + " set in "
        + Lower(position)
        + ", and I am excited about the" + " opportunity to bring my"
        + " expertise to your team. I" + " am particularly drawn to"
        + " the challenges and" + " opportunities that this" + " role presents." ]
  }

  function ClosingBlock(employer: string): Block {
    [ "I would welcome the chance" + " to discuss how my" + " background and skills would" + " be an asset to "
        + employer + ". Thank you for your time" + " and consideration." ]
  }

  const Signature: Block := ["Sincerely,", "[Your Name]"]

  lemma GoodGreeting()
    ensures GoodBlock(Greeting) && GoodBlock(Signature)
  {
  }

  lemma GoodInterest(position: string, employer: string)
    requires '\n' !in position && '\n' !in employer
    ensures GoodBlock(InterestBlock(position, employer))
  {
    BreaklessNotIn("I am writing to express my");
    BreaklessNotIn(" strong interest in the ");
    BreaklessNotIn(" position at ");
    BreaklessNotIn(", as advertised. With my");
    BreaklessNotIn(" background and skills, I");
    BreaklessNotIn(" believe I would be a great");
    BreaklessNotIn(" fit for this role.");
  }

  lemma GoodFirstSentence(description: string)
    requires '\n' !in description
    ensures GoodBlock(FirstSentenceBlock(description))
  {
    FirstPieceKeepsAbsent(description, '.', '\n');
    BreaklessNotIn(". This aligns perfectly with");
    BreaklessNotIn(" my experience and passion");
    BreaklessNotIn(" for the field.");
  }

  /** The fixed text after the position in the career paragraph holds no line break. */
  lemma CareerTailSingleLine()
    ensures '\n' !in ", and I am excited about the" + " opportunity to bring my"
      + " expertise to your team. I" + " am particularly drawn to"
      + " the challenges and" + " opportunities that this" + " role presents."
  {
    BreaklessNotIn(", and I am excited about the");
    BreaklessNotIn(" opportunity to bring my");
    BreaklessNotIn(" expertise to your team. I");
    BreaklessNotIn(" am particularly drawn to");
    BreaklessNotIn(" the challenges and");
    BreaklessNotIn(" opportunities that this");
    BreaklessNotIn(" role presents.");
  }

  lemma GoodCareer(position: string)
    requires '\n' !in position
    ensures GoodBlock(CareerBlock(position))
  {
    LowerKeepsAbsent(position, '\n');
    CareerTailSingleLine();
    BreaklessNotIn("Throughout my career, I have");
    BreaklessNotIn(" developed a strong skill");
    BreaklessNotIn(" set in ");
  }

  lemma GoodClosing(employer: string)
    requires '\n' !in employer
    ensures GoodBlock(ClosingBlock(employer))
  {
    BreaklessNotIn("I would welcome the chance");
    BreaklessNotIn(" to discuss how my");
    BreaklessNotIn(" background and skills would");
    BreaklessNotIn(" be an asset to ");
    BreaklessNotIn(". Thank you for your time");
    BreaklessNotIn(" and consideration.");
  }
}
