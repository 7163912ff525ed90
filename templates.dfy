/**
 * The shape shared by every document template: a template literal that
 * opens with a line break, holds the document's paragraphs separated by
 * blank lines, closes with a line break and two spaces of indentation, and
 * is then passed through `trim()`.
 */
module Templates {
  import opened Text

  // Section headings shared by the resume templates; the last one heads the
  // footer of every template.
  const ObjectiveHeading := "Objective:"
  const SummaryHeading := "Summary of Qualifications:"
  const ExperienceHeading := "Work Experience:"
  const EducationHeading := "Education:"
  const SkillsHeading := "Skills:"
  const InterviewHeading := "Interview Information:"

  /** A paragraph of a document: its lines, in order. */
  type Block = seq<string>

  /** The document's lines: the blocks with one blank line between two of them. */
  function Lines(blocks: seq<Block>): seq<string> {
    Join(blocks, [""])
  }

  /** The template literal holding the blocks, trimmed. */
  function Render(blocks: seq<Block>): string {
    Trim("\n" + Join(Lines(blocks), "\n") + "\n  ")
  }

  /** Reads a document back into blocks: split at line breaks, then at blank lines. */
  function ReadBlocks(doc: string): seq<Block> {
    Split(Split(doc, '\n'), "")
  }

  /** A line that is neither blank nor broken. */
  predicate GoodLine(line: string) {
    line != "" && '\n' !in line
  }

  predicate GoodBlock(b: Block) {
    |b| >= 1 && forall k :: 0 <= k < |b| ==> GoodLine(b[k])
  }

  /** The first line starts, and the last line ends, with visible text, so `trim()` keeps them whole. */
  predicate TrimSafe(blocks: seq<Block>) {
    && |blocks| >= 1
    && |blocks[0]| >= 1 && |blocks[0][0]| >= 1 && !IsWhitespace(blocks[0][0][0])
    && var lastBlock := blocks[|blocks| - 1];
      && |lastBlock| >= 1
      && var last := lastBlock[|lastBlock| - 1];
        |last| >= 1 && !IsWhitespace(last[|last| - 1])
  }

  /** Blocks that render without loss: trim-safe, and every line good. */
  predicate WellFormed(blocks: seq<Block>) {
    TrimSafe(blocks) && forall k :: 0 <= k < |blocks| ==> GoodBlock(blocks[k])
  }

  /** The footer every template ends with: who to expect at the interviews. */
  function InterviewBlock(recruiter: string, manager: string): Block {
    [ InterviewHeading, "Recruiter: " + recruiter, "Hiring Manager: " + manager ]
  }

  lemma GoodInterview(recruiter: string, manager: string)
    requires '\n' !in recruiter && '\n' !in manager
    ensures GoodBlock(InterviewBlock(recruiter, manager))
  {
    BreaklessNotIn("Recruiter: ");
    BreaklessNotIn("Hiring Manager: ");
  }

  /** Joined pieces start with the first piece and end with the last one. */
  lemma {:induction false} JoinEnds<T>(parts: seq<seq<T>>, sep: seq<T>)
    requires |parts| >= 1
    ensures StartsWith(Join(parts, sep), parts[0])
    ensures EndsWith(Join(parts, sep), parts[|parts| - 1])
  {
    if |parts| > 1 {
      JoinEnds(parts[1..], sep);
      assert parts[1..][|parts[1..]| - 1] == parts[|parts| - 1];
    }
  }

  /** Every line of the document is a line of one of the blocks, or blank. */
  lemma {:induction false} LinesFreeOf(blocks: seq<Block>, c: char)
    requires forall k, m :: 0 <= k < |blocks| && 0 <= m < |blocks[k]| ==> c !in blocks[k][m]
    ensures forall m :: 0 <= m < |Lines(blocks)| ==> c !in Lines(blocks)[m]
  {
    if |blocks| > 1 {
      LinesFreeOf(blocks[1..], c);
      assert Lines(blocks) == blocks[0] + [""] + Lines(blocks[1..]);
    }
  }

  /** `trim()` removes exactly the wrapping line breaks and indentation, and nothing of the text. */
  lemma RenderIsJoin(blocks: seq<Block>)
    requires TrimSafe(blocks)
    ensures Render(blocks) == Join(Lines(blocks), "\n")
  {
    var lines := Lines(blocks);
    JoinEnds(blocks, [""]);
    assert lines[0] == blocks[0][0];
    var lastBlock := blocks[|blocks| - 1];
    assert lines[|lines| - 1] == lastBlock[|lastBlock| - 1];
    var body := Join(lines, "\n");
    JoinEnds(lines, "\n");
    assert body[0] == lines[0][0];
    assert body[|body| - 1] == lines[|lines| - 1][|lines[|lines| - 1]| - 1];
    TrimWrapped("\n", body, "\n  ");
  }

  /** Reading a rendered document gives back exactly the blocks it was rendered from. */
  lemma ReadRender(blocks: seq<Block>)
    requires WellFormed(blocks)
    ensures ReadBlocks(Render(blocks)) == blocks
  {
    RenderIsJoin(blocks);
    var lines := Lines(blocks);
    LinesFreeOf(blocks, '\n');
    JoinEnds(blocks, [""]);
    SplitJoin(lines, '\n');
    SplitJoin(blocks, "");
  }

  /** The document's first line is the first line of the first block, whatever the rest holds. */
  lemma RenderFirstLine(blocks: seq<Block>)
    requires TrimSafe(blocks) && '\n' !in blocks[0][0]
    ensures FirstPiece(Render(blocks), '\n') == blocks[0][0]
  {
    RenderIsJoin(blocks);
    var lines := Lines(blocks);
    JoinEnds(blocks, [""]);
    var doc := Join(lines, "\n");
    if |lines| == 1 {
      FirstPieceIsPrefix(doc, '\n');
    } else {
      JoinAppend([lines[0]], lines[1..], "\n");
      assert [lines[0]] + lines[1..] == lines;
      assert doc == lines[0] + "\n" + Join(lines[1..], "\n");
      FirstPieceIsPrefix(doc, '\n');
      assert doc[|lines[0]|] == '\n';
    }
  }

  /** The document ends with its last block, its lines joined by line breaks. */
  lemma RenderEndsWith(blocks: seq<Block>)
    requires TrimSafe(blocks)
    ensures EndsWith(Render(blocks), Join(blocks[|blocks| - 1], "\n"))
  {
    RenderIsJoin(blocks);
    var n := |blocks|;
    var lines := Lines(blocks);
    if n > 1 {
      JoinAppend(blocks[..n - 1], [blocks[n - 1]], [""]);
      assert blocks[..n - 1] + [blocks[n - 1]] == blocks;
      var front := Lines(blocks[..n - 1]) + [""];
      assert lines == front + blocks[n - 1];
      JoinAppend(front, blocks[n - 1], "\n");
    }
  }
}
