/** The job offer as the `pages/api` generators receive it: contacts come as lists. */
module ApiTypes {

  datatype Contact = Contact(name: string, email: string)

  /** `${c.name} (${c.email})`, as every template footer prints a contact. */
  function ContactText(c: Contact): string {
    c.name + " (" + c.email + ")"
  }

  datatype JobOffer = JobOffer(
    id: string,
    company: string,
    position: string,
    description: string,
    postedDate: string,
    recruiters: seq<Contact>,
    hiringManagers: seq<Contact>)

  /**
   * `${cs[0]?.name} (${cs[0]?.email})`: optional chaining on an empty list
   * yields `undefined`, which the template literal prints as the word itself.
   */
  function FirstContactText(cs: seq<Contact>): string {
    if |cs| == 0 then "undefined (undefined)" else ContactText(cs[0])
  }

  /** No interpolated field of the offer holds a line break. */
  predicate SingleLineFields(o: JobOffer) {
    && '\n' !in o.company && '\n' !in o.position && '\n' !in o.description
    && '\n' !in FirstContactText(o.recruiters) && '\n' !in FirstContactText(o.hiringManagers)
  }
}
