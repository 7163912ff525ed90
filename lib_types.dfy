/**
 * The offer as the `lib/` generators read it from a request body. The body
 * is untyped JSON, so every field the templates read may be missing: a
 * missing string prints as `undefined`, and reading a property of a missing
 * value throws.
 */
module LibTypes {
  import opened Wrappers
  import opened ApiTypes

  datatype RequestOffer = RequestOffer(
    title: Option<string>,
    position: Option<string>,
    description: Option<string>,
    recruiter: Option<Contact>,
    hiringManager: Option<Contact>)

  /** The `TypeError` thrown when a template reads a property of the missing field. */
  datatype Failure = MissingField(field: string)

  /** A possibly missing string as a template literal prints it. */
  function Shown(v: Option<string>): string {
    if v.Some? then v.value else "undefined"
  }

  /** Every field the generators need is there. */
  predicate Complete(o: RequestOffer) {
    o.position.Some? && o.description.Some? && o.recruiter.Some? && o.hiringManager.Some?
  }

  /** No field the generators print holds a line break. */
  predicate SingleLineRequest(o: RequestOffer) {
    && '\n' !in Shown(o.title) && '\n' !in Shown(o.position) && '\n' !in Shown(o.description)
    && (o.recruiter.Some? ==> '\n' !in ContactText(o.recruiter.value))
    && (o.hiringManager.Some? ==> '\n' !in ContactText(o.hiringManager.value))
  }
}
