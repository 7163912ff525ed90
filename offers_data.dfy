/**
 * The entries of the offers data both job boards load, and the request
 * bodies the two boards post to `/api/generateDocuments` for an entry. The
 * route reads `title`, `position`, `description`, `recruiter` and
 * `hiringManager` from the body's `offer`; a field the body lacks arrives as
 * `undefined`.
 */
module OffersData {
  import opened Wrappers
  import opened ApiTypes
  import opened Http
  import opened LibTypes
  import GenerateDocuments
  import LibGenerateResume
  import LibGenerateCoverLetter

  /** An entry of the offers data as the boards use it (logo and company details are only shown). */
  datatype Posting = Posting(
    company: string,
    position: string,
    description: string,
    postedDate: string,
    recruiters: seq<Contact>,
    hiringManagers: seq<Contact>)

  /** The documents the route returns for an offer. */
  datatype Documents = Documents(resume: string, coverLetter: string)

  /** `list[0]`: the first element, or `undefined` for an empty list. */
  function First(list: seq<Contact>): (r: Option<Contact>)
    ensures r.Some? <==> |list| > 0
    ensures r.Some? ==> r.value == list[0]
  {
    if |list| == 0 then None else Some(list[0])
  }

  /**
   * The offer the kanban board posts: the card itself, which carries the
   * lists `recruiters` and `hiringManagers` but no `title`, `recruiter` or
   * `hiringManager`.
   */
  function BoardRequest(p: Posting): RequestOffer {
    RequestOffer(None, Some(p.position), Some(p.description), None, None)
  }

  /**
   * The offer the job feed posts: the entry with its first recruiter and
   * first hiring manager as `recruiter` and `hiringManager`, and no `title`.
   */
  function FeedRequest(p: Posting): RequestOffer {
    RequestOffer(None, Some(p.position), Some(p.description), First(p.recruiters), First(p.hiringManagers))
  }

  /** `response.ok` and the documents read from the body: `None` when the route failed. */
  function Outcome(r: Response): (d: Option<Documents>)
    ensures d.Some? <==> 200 <= r.status < 300 && r.body.DocumentsBody?
    ensures d.Some? ==> d.value == Documents(r.body.resume, r.body.coverLetter)
  {
    if 200 <= r.status < 300 && r.body.DocumentsBody? then Some(Documents(r.body.resume, r.body.coverLetter)) else None
  }

  /**
   * Whatever the entry, the route fails on the board's request: the resume
   * template reads `offer.recruiter.name` and the body has no `recruiter`.
   */
  lemma BoardRequestFails(p: Posting)
    ensures LibGenerateResume.GenerateResume(BoardRequest(p)) == Err(MissingField("recruiter"))
    ensures GenerateDocuments.Handle("POST", Some(BoardRequest(p))) == GenerateDocuments.Failed
    ensures Outcome(GenerateDocuments.Handle("POST", Some(BoardRequest(p)))).None?
  {
  }

  /** The feed's request succeeds exactly when the entry names at least one recruiter and one hiring manager. */
  lemma FeedRequestSucceeds(p: Posting)
    ensures Outcome(GenerateDocuments.Handle("POST", Some(FeedRequest(p)))).Some?
        <==> |p.recruiters| > 0 && |p.hiringManagers| > 0
  {
  }

  /** A successful feed request returns the `lib` resume and cover letter of that request. */
  lemma FeedRequestDocuments(p: Posting)
    requires |p.recruiters| > 0 && |p.hiringManagers| > 0
    ensures var d := Outcome(GenerateDocuments.Handle("POST", Some(FeedRequest(p))));
      && d.Some?
      && d.value == Documents(LibGenerateResume.GenerateResume(FeedRequest(p)).value,
                              LibGenerateCoverLetter.GenerateCoverLetter(FeedRequest(p)).value)
  {
  }

  /** The documents the route returns for the feed's request: both `lib` documents, or none when a contact list is empty. */
  lemma FeedRequestResult(p: Posting)
    ensures Outcome(GenerateDocuments.Handle("POST", Some(FeedRequest(p))))
      == if |p.recruiters| > 0 && |p.hiringManagers| > 0 then
           Some(Documents(LibGenerateResume.GenerateResume(FeedRequest(p)).value,
                          LibGenerateCoverLetter.GenerateCoverLetter(FeedRequest(p)).value))
         else None
  {
    FeedRequestSucceeds(p);
    if |p.recruiters| > 0 && |p.hiringManagers| > 0 {
      FeedRequestDocuments(p);
    }
  }
}
