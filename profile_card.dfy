/**
 * The contact cards of `components/profile-card.tsx`: the initials shown in
 * a contact's avatar, and which cards `JobOfferProfiles` shows for an offer.
 */
module ProfileCard {
  import opened Wrappers
  import opened Text

  /**
   * `parts.map(n => n[0]).join('')`: the first character of every piece, in
   * order. `n[0]` of an empty piece is `undefined`, which `join` writes as
   * nothing.
   */
  function Heads(parts: seq<string>): (r: string)
    ensures |r| <= |parts|
  {
    if parts == [] then ""
    else (if parts[0] == "" then "" else [parts[0][0]]) + Heads(parts[1..])
  }

  /** The non-empty pieces, in their order. */
  function NonEmpty(parts: seq<string>): (r: seq<string>)
    ensures |r| <= |parts|
    ensures forall k :: 0 <= k < |r| ==> r[k] != "" && r[k] in parts
    ensures forall p :: p in parts && p != "" ==> p in r
  {
    if parts == [] then []
    else
      assert forall p :: p in parts[1..] ==> p in parts;
      (if parts[0] == "" then [] else [parts[0]]) + NonEmpty(parts[1..])
  }

  /** Each character `Heads` writes is the first character of the next non-empty piece. */
  lemma {:induction false} HeadsAreFirsts(parts: seq<string>)
    ensures |Heads(parts)| == |NonEmpty(parts)|
    ensures forall k :: 0 <= k < |Heads(parts)| ==> Heads(parts)[k] == NonEmpty(parts)[k][0]
  {
    if parts != [] {
      HeadsAreFirsts(parts[1..]);
    }
  }

  /**
   * `name.split(' ').map(n => n[0]).join('').toUpperCase()`: one character
   * per non-empty space-separated segment of the name, its first, upper-cased.
   */
  function Initials(name: string): (r: string)
    ensures |r| == |NonEmpty(Split(name, ' '))|
    ensures forall k :: 0 <= k < |r| ==> r[k] == UpperChar(NonEmpty(Split(name, ' '))[k][0])
  {
    HeadsAreFirsts(Split(name, ' '));
    Upper(Heads(Split(name, ' ')))
  }

  /** A name of words joined by single spaces has the upper-cased first letters of its non-empty words. */
  lemma InitialsOfWords(words: seq<string>)
    requires |words| >= 1
    requires forall k :: 0 <= k < |words| ==> ' ' !in words[k]
    ensures Initials(Join(words, " ")) == Upper(Heads(words))
  {
    SplitJoin(words, ' ');
  }

  /** An empty name has no initials. */
  lemma InitialsOfEmpty()
    ensures Initials("") == ""
  {
    assert Split("", ' ') == [""];
  }

  /** A leading space adds an empty segment, which contributes nothing. */
  lemma InitialsSkipSpace(name: string)
    ensures Initials(" " + name) == Initials(name)
  {
    SplitConsSep(name, ' ');
    var parts := [""] + Split(name, ' ');
    assert parts[1..] == Split(name, ' ');
  }

  /** A name made only of spaces has no initials. */
  lemma {:induction false} InitialsOfSpaces(name: string)
    requires forall k :: 0 <= k < |name| ==> name[k] == ' '
    ensures Initials(name) == ""
  {
    if name == "" {
      InitialsOfEmpty();
    } else {
      InitialsOfSpaces(name[1..]);
      InitialsSkipSpace(name[1..]);
      assert " " + name[1..] == name;
    }
  }

  /** A doubled space adds an empty segment, which contributes nothing; lower-case letters are raised. */
  lemma InitialsDoubledSpace()
    ensures Initials("Jane  doe") == "JD"
  {
    var words := ["Jane", "", "doe"];
    InitialsOfWords(words);
    assert Join(words, " ") == "Jane" + " " + Join(words[1..], " ");
    assert Join(words[1..], " ") == "" + " " + "doe";
    assert Heads(words) == "J" + Heads(words[1..]);
    assert Heads(words[1..]) == "d";
    assert Join(words, " ") == "Jane  doe";
    assert UpperChar('d') == 'D';
    assert Upper("Jd") == "JD";
  }

  // ---------------------------------------------------------------------
  // Which cards an offer shows

  datatype Role = Recruiter | HiringManager

  /** A contact as the offer holds it; the LinkedIn address is optional. */
  datatype Person = Person(name: string, email: string, linkedinUrl: Option<string>)

  /** The properties one card is drawn with. */
  datatype Profile = Profile(name: string, email: string, role: Role, linkedinUrl: Option<string>)

  function ProfileOf(p: Person, role: Role): Profile {
    Profile(p.name, p.email, role, p.linkedinUrl)
  }

  /**
   * `JobOfferProfiles`: a Recruiter card exactly when the offer has a
   * recruiter, a Hiring Manager card exactly when it has a hiring manager,
   * the recruiter's first.
   */
  function JobOfferProfiles(recruiter: Option<Person>, hiringManager: Option<Person>): (r: seq<Profile>)
    ensures |r| == (if recruiter.Some? then 1 else 0) + (if hiringManager.Some? then 1 else 0)
    ensures (exists k :: 0 <= k < |r| && r[k].role == Recruiter) <==> recruiter.Some?
    ensures (exists k :: 0 <= k < |r| && r[k].role == HiringManager) <==> hiringManager.Some?
    ensures recruiter.Some? ==> r[0] == ProfileOf(recruiter.value, Recruiter)
    ensures hiringManager.Some? ==> r[|r| - 1] == ProfileOf(hiringManager.value, HiringManager)
  {
    var r := (if recruiter.Some? then [ProfileOf(recruiter.value, Recruiter)] else [])
      + (if hiringManager.Some? then [ProfileOf(hiringManager.value, HiringManager)] else []);
    assert recruiter.Some? ==> r[0].role == Recruiter;
    assert hiringManager.Some? ==> r[|r| - 1].role == HiringManager;
    r
  }
}
