/**
 * The job card of `components/adzuna-job-card.tsx`: the salary line, the
 * "Estimated" badge and the shortened description it shows for one job
 * returned by the Adzuna search. Money formatting (`Intl.NumberFormat`) is a
 * parameter: any function from an amount to its text.
 */
module AdzunaJobCard {
  import opened Text

  /** The fields of an Adzuna job that the card computes with. */
  datatype AdzunaJob = AdzunaJob(
    title: string,
    company: string,
    description: string,
    salaryMin: real,
    salaryMax: real,
    salaryIsPredicted: real)

  /** The length the card shortens descriptions to. */
  const DescriptionLength: nat := 150

  /**
   * `truncateDescription`: a description no longer than `maxLength` is kept;
   * a longer one is cut to its first `maxLength` characters followed by an
   * ellipsis. Either way the result starts with as much of the description
   * as fits.
   */
  function TruncateDescription(description: string, maxLength: nat): (r: string)
    ensures |description| <= maxLength ==> r == description
    ensures |description| > maxLength ==> |r| == maxLength + 3 && EndsWith(r, "...")
    ensures |r| <= maxLength + 3
    ensures StartsWith(r, SliceFront(description, maxLength))
  {
    if |description| <= maxLength then description
    else SliceFront(description, maxLength) + "..."
  }

  /**
   * Shortening is stable: the text the card shows is already short, or its
   * first `maxLength` characters and ellipsis are exactly what shortening
   * it again produces.
   */
  lemma TruncateIdempotent(description: string, maxLength: nat)
    ensures TruncateDescription(TruncateDescription(description, maxLength), maxLength)
      == TruncateDescription(description, maxLength)
  {
    var once := TruncateDescription(description, maxLength);
    if |description| > maxLength {
      assert SliceFront(once, maxLength) == SliceFront(description, maxLength);
    }
  }

  /** Two descriptions that agree on their first `maxLength` characters and are both long show the same text. */
  lemma TruncateSeesOnlyPrefix(d1: string, d2: string, maxLength: nat)
    requires |d1| > maxLength && |d2| > maxLength
    requires d1[..maxLength] == d2[..maxLength]
    ensures TruncateDescription(d1, maxLength) == TruncateDescription(d2, maxLength)
  {
  }

  /**
   * `formatSalary`: one amount when the bounds are equal, otherwise both
   * joined by a spaced dash. The text always starts with the minimum and
   * ends with the maximum.
   */
  function FormatSalary(min: real, max: real, format: real -> string): (r: string)
    ensures min == max ==> r == format(min)
    ensures StartsWith(r, format(min)) && EndsWith(r, format(max))
    ensures min != max ==>
      && |r| == |format(min)| + 3 + |format(max)|
      && r[|format(min)|..|format(min)| + 3] == " - "
  {
    if min == max then format(min)
    else format(min) + " - " + format(max)
  }

  /**
   * For a formatter whose texts never hold a dash, a range is told apart
   * from a single amount: the text holds a dash exactly when the bounds differ.
   */
  lemma SalaryShowsRange(min: real, max: real, format: real -> string)
    requires forall x :: '-' !in format(x)
    ensures '-' in FormatSalary(min, max, format) <==> min != max
  {
    if min != max {
      assert FormatSalary(min, max, format)[|format(min)| + 1] == '-';
    }
  }

  /** What the card computes for its salary line and description. */
  datatype CardText = CardText(salary: string, estimated: bool, description: string)

  /**
   * The card of `job`: the salary range as formatted, the "Estimated" badge
   * exactly when Adzuna marks the salary as predicted with the number 1,
   * and the description shortened to 150 characters.
   */
  function Card(job: AdzunaJob, format: real -> string): (r: CardText)
    ensures r.estimated <==> job.salaryIsPredicted == 1.0
    ensures r.salary == FormatSalary(job.salaryMin, job.salaryMax, format)
    ensures |r.description| <= DescriptionLength + 3
    ensures StartsWith(r.description, SliceFront(job.description, DescriptionLength))
  {
    CardText(
      FormatSalary(job.salaryMin, job.salaryMax, format),
      job.salaryIsPredicted == 1.0,
      TruncateDescription(job.description, DescriptionLength))
  }
}
