/**
 * The kanban board of `components/kaban/kaban-board.tsx`: four fixed
 * columns of cards, a drag-and-drop handler that moves an offer out of the
 * Offers column, and the fan-out that turns an applied offer into one card
 * per recruiter and hiring manager.
 */
module KanbanBoard {
  import opened Wrappers
  import opened Text
  import opened ApiTypes
  import opened OffersData

  /** A card id. `crypto.randomUUID()` is modelled by a counter that only grows, so ids are fresh. */
  datatype Uuid = Uuid(n: nat)

  datatype Role = Recruiter | HiringManager

  /** What a card spread from a recruiter or a hiring manager adds to the offer it copies. */
  datatype ContactCard = ContactCard(person: Contact, role: Role, originalOfferId: Uuid)

  /** A posting card (`contact == None`) or a contact card fanned out of an applied posting. */
  datatype Card = Card(id: Uuid, offer: Posting, contact: Option<ContactCard>)

  datatype ColumnId = Offers | Applied | RecruiterColumn | HiringManagerColumn

  datatype Column = Column(id: ColumnId, title: string, items: seq<Card>)

  /** Where a drag starts or ends: a droppable column and a position in it. */
  datatype Location = Location(column: ColumnId, index: nat)

  /** The columns in their fixed order; the fan-out relies on it. */
  const EmptyColumns: seq<Column> := [
    Column(Offers, "Offers", []),
    Column(Applied, "Applied", []),
    Column(RecruiterColumn, "Recruiter", []),
    Column(HiringManagerColumn, "Hiring Manager", [])
  ]

  /** `columns.findIndex(col => col.id === id)`. */
  function ColumnIndex(id: ColumnId): (k: nat)
    ensures k < 4 && EmptyColumns[k].id == id
  {
    match id
    case Offers => 0
    case Applied => 1
    case RecruiterColumn => 2
    case HiringManagerColumn => 3
  }

  /** Four columns, in the fixed order. */
  predicate Shaped(cols: seq<Column>) {
    |cols| == 4 && forall k :: 0 <= k < 4 ==> cols[k].id == EmptyColumns[k].id
  }

  // ---------------------------------------------------------------------
  // Splicing

  /** `s.splice(i, 1)` on a copy: the sequence without its element at `i`. */
  function RemoveAt<T>(s: seq<T>, i: nat): (r: seq<T>)
    requires i < |s|
    ensures |r| == |s| - 1
    ensures forall k :: 0 <= k < i ==> r[k] == s[k]
    ensures forall k :: i <= k < |r| ==> r[k] == s[k + 1]
  {
    s[..i] + s[i + 1..]
  }

  /** `s.splice(i, 0, x)` on a copy: the sequence with `x` placed at `i`. */
  function InsertAt<T>(s: seq<T>, i: nat, x: T): (r: seq<T>)
    requires i <= |s|
    ensures |r| == |s| + 1 && r[i] == x
    ensures forall k :: 0 <= k < i ==> r[k] == s[k]
    ensures forall k :: i < k < |r| ==> r[k] == s[k - 1]
  {
    s[..i] + [x] + s[i..]
  }

  /** Putting a removed element back where it was restores the sequence. */
  lemma RemoveInsert<T>(s: seq<T>, i: nat)
    requires i < |s|
    ensures InsertAt(RemoveAt(s, i), i, s[i]) == s
  {
    var r := InsertAt(RemoveAt(s, i), i, s[i]);
    assert forall k :: 0 <= k < |s| ==> r[k] == s[k];
  }

  /** Removing an element and inserting it elsewhere keeps every element once. */
  lemma SpliceConserves<T>(s: seq<T>, i: nat, t: seq<T>, j: nat)
    requires i < |s| && j <= |t|
    ensures multiset(RemoveAt(s, i)) + multiset{s[i]} == multiset(s)
    ensures multiset(InsertAt(t, j, s[i])) == multiset(t) + multiset{s[i]}
    ensures multiset(RemoveAt(s, i)) + multiset(InsertAt(t, j, s[i])) == multiset(s) + multiset(t)
  {
    assert s == s[..i] + [s[i]] + s[i + 1..];
    assert t == t[..j] + t[j..];
  }

  // ---------------------------------------------------------------------
  // Ids

  function IdsOf(cards: seq<Card>): set<Uuid> {
    set c | c in cards :: c.id
  }

  predicate DistinctIds(cards: seq<Card>) {
    forall i, j :: 0 <= i < j < |cards| ==> cards[i].id != cards[j].id
  }

  /** Every id below the counter: ids handed out from the counter later are fresh. */
  predicate IdsBelow(cards: seq<Card>, next: nat) {
    forall c :: c in cards ==> c.id.n < next
  }

  lemma RemoveAtIds(s: seq<Card>, i: nat)
    requires i < |s| && DistinctIds(s)
    ensures DistinctIds(RemoveAt(s, i))
    ensures IdsOf(RemoveAt(s, i)) == IdsOf(s) - {s[i].id}
  {
    var r := RemoveAt(s, i);
    forall a, b | 0 <= a < b < |r| ensures r[a].id != r[b].id {
      var a' := if a < i then a else a + 1;
      var b' := if b < i then b else b + 1;
      assert r[a] == s[a'] && r[b] == s[b'] && a' < b';
    }
    forall c | c in r ensures c.id in IdsOf(s) - {s[i].id} {
      var k :| 0 <= k < |r| && r[k] == c;
      var k' := if k < i then k else k + 1;
      assert s[k'] == c && k' != i;
    }
    forall c | c in s && c.id != s[i].id ensures c.id in IdsOf(r) {
      var k :| 0 <= k < |s| && s[k] == c;
      assert k != i;
      assert r[if k < i then k else k - 1] == c;
    }
  }

  lemma InsertAtIds(s: seq<Card>, j: nat, x: Card)
    requires j <= |s| && DistinctIds(s) && x.id !in IdsOf(s)
    ensures DistinctIds(InsertAt(s, j, x))
    ensures IdsOf(InsertAt(s, j, x)) == IdsOf(s) + {x.id}
  {
    var r := InsertAt(s, j, x);
    assert r == s[..j] + [x] + s[j..];
    forall a, b | 0 <= a < b < |r| ensures r[a].id != r[b].id {
      if a != j && b != j {
        var a' := if a < j then a else a - 1;
        var b' := if b < j then b else b - 1;
        assert r[a] == s[a'] && r[b] == s[b'] && a' < b';
      } else if a == j {
        assert r[b] in s;
      } else {
        assert r[a] in s;
      }
    }
  }

  lemma AppendIds(a: seq<Card>, b: seq<Card>)
    requires DistinctIds(a) && DistinctIds(b) && IdsOf(a) !! IdsOf(b)
    ensures DistinctIds(a + b)
    ensures IdsOf(a + b) == IdsOf(a) + IdsOf(b)
  {
    var r := a + b;
    forall i, j | 0 <= i < j < |r| ensures r[i].id != r[j].id {
      if j < |a| {
        assert r[i] == a[i] && r[j] == a[j];
      } else if i >= |a| {
        assert r[i] == b[i - |a|] && r[j] == b[j - |a|];
      } else {
        assert r[i] == a[i] && r[j] == b[j - |a|];
        assert r[i].id in IdsOf(a) && r[j].id in IdsOf(b);
      }
    }
  }

  // ---------------------------------------------------------------------
  // Fan-out

  /**
   * `people.map(p => ({...moved, ...p, id: crypto.randomUUID(), type: role,
   * originalOfferId: moved.id}))`, the ids drawn from the counter from `start` on.
   */
  function FanOut(moved: Card, people: seq<Contact>, role: Role, start: nat): (r: seq<Card>)
    ensures |r| == |people|
    ensures forall k :: 0 <= k < |r| ==>
      r[k] == Card(Uuid(start + k), moved.offer, Some(ContactCard(people[k], role, moved.id)))
    decreases |people|
  {
    if people == [] then []
    else
      var first := Card(Uuid(start), moved.offer, Some(ContactCard(people[0], role, moved.id)));
      [first] + FanOut(moved, people[1..], role, start + 1)
  }

  /** The fanned-out cards have distinct ids, all drawn from the counter from `start` on. */
  lemma FanOutIds(moved: Card, people: seq<Contact>, role: Role, start: nat)
    ensures DistinctIds(FanOut(moved, people, role, start))
    ensures forall c :: c in FanOut(moved, people, role, start) ==> start <= c.id.n < start + |people|
    ensures forall c :: c in FanOut(moved, people, role, start) ==>
      c.contact.Some? && c.contact.value.role == role && c.contact.value.originalOfferId == moved.id
  {
  }

  // ---------------------------------------------------------------------
  // Colours

  /** The companies with a colour of their own, and their colours, in the order `getColorFromCompanyName` compares them. */
  const KnownCompanies: seq<string> := ["Google", "GitHub", "LinkedIn", "Amazon", "Microsoft", "Tesla"]
  const CompanyColors: seq<string> :=
    ["custom-peach", "custom-yellow", "custom-lavender", "custom-periwinkle", "custom-light-blue", "custom-mint"]

  /** `customColors`, the palette the board declares. */
  const CustomColors: seq<string> :=
    ["custom-mint", "custom-yellow", "custom-lavender", "custom-periwinkle", "custom-light-blue", "custom-peach"]

  const DefaultColor := "gray-200"

  /** `getColorFromCompanyName(company)`. */
  function CompanyColor(company: string): string {
    if company == "Google" then "custom-peach"
    else if company == "GitHub" then "custom-yellow"
    else if company == "LinkedIn" then "custom-lavender"
    else if company == "Amazon" then "custom-periwinkle"
    else if company == "Microsoft" then "custom-light-blue"
    else if company == "Tesla" then "custom-mint"
    else DefaultColor
  }

  /** The six known companies get their colours, in the order they are compared. */
  lemma KnownCompanyColors()
    ensures forall k :: 0 <= k < 6 ==> CompanyColor(KnownCompanies[k]) == CompanyColors[k]
  {
  }

  /** Every company the lookup does not know gets the default colour. */
  lemma UnknownCompanyColor(company: string)
    requires company !in KnownCompanies
    ensures CompanyColor(company) == DefaultColor
  {
    assert company != KnownCompanies[0] && company != KnownCompanies[1] && company != KnownCompanies[2];
    assert company != KnownCompanies[3] && company != KnownCompanies[4] && company != KnownCompanies[5];
  }

  /** The colours handed to the known companies are the declared palette, each used once. */
  lemma CompanyColorsArePalette()
    ensures multiset(CompanyColors) == multiset(CustomColors)
  {
    assert CompanyColors == [CustomColors[5]] + CustomColors[1..5] + [CustomColors[0]];
    assert CustomColors == [CustomColors[0]] + CustomColors[1..5] + [CustomColors[5]];
  }

  /** `getBorderColorClass(offer)`. */
  function BorderColorClass(company: string): string {
    "border-" + CompanyColor(company)
  }

  /** The classes the contact and applied cards write out inline for the known companies, in the order they are compared. */
  const InlineClasses: seq<string> := [
    "border-custom-peach", "border-custom-yellow", "border-custom-lavender",
    "border-custom-periwinkle", "border-custom-light-blue", "border-custom-mint"]

  /** The border class written out inline on the contact and applied cards. */
  function InlineBorderClass(company: string): string {
    if company == "Google" then InlineClasses[0]
    else if company == "GitHub" then InlineClasses[1]
    else if company == "LinkedIn" then InlineClasses[2]
    else if company == "Amazon" then InlineClasses[3]
    else if company == "Microsoft" then InlineClasses[4]
    else if company == "Tesla" then InlineClasses[5]
    else BorderColorClass(company)
  }

  /** Each inline class is `border-` followed by the colour of its company. */
  lemma InlineClassesSpelled()
    ensures forall k :: 0 <= k < 6 ==> "border-" + CompanyColors[k] == InlineClasses[k]
  {
    assert "border-" + CompanyColors[0] == InlineClasses[0];
    assert "border-" + CompanyColors[1] == InlineClasses[1];
    assert "border-" + CompanyColors[2] == InlineClasses[2];
    assert "border-" + CompanyColors[3] == InlineClasses[3];
    assert "border-" + CompanyColors[4] == InlineClasses[4];
    assert "border-" + CompanyColors[5] == InlineClasses[5];
  }

  /** The inline chain and `getBorderColorClass` agree on every company. */
  lemma InlineBorderAgrees(company: string)
    ensures InlineBorderClass(company) == BorderColorClass(company)
    ensures StartsWith(BorderColorClass(company), "border-")
  {
    InlineClassesSpelled();
    KnownCompanyColors();
  }

  // ---------------------------------------------------------------------
  // Preview

  /** The applied card's preview: `description.split(" ").slice(0, 15).join(" ")` and `...`. */
  function PreviewText(description: string): string {
    var words := Split(description, ' ');
    Join(words[..if |words| <= 15 then |words| else 15], " ")
  }

  function Preview(description: string): string {
    PreviewText(description) + "..."
  }

  /**
   * The preview is a prefix of the description followed by `...`: its
   * words are exactly the description's first 15, and a description of at
   * most 15 words is shown whole.
   */
  lemma PreviewShape(description: string)
    ensures EndsWith(Preview(description), "...")
    ensures StartsWith(description, PreviewText(description))
    ensures |Split(PreviewText(description), ' ')| <= 15
    ensures |Split(description, ' ')| <= 15 ==> Preview(description) == description + "..."
    ensures var words := Split(description, ' ');
      Split(PreviewText(description), ' ') == words[..if |words| <= 15 then |words| else 15]
  {
    var words := Split(description, ' ');
    var n := if |words| <= 15 then |words| else 15;
    JoinTakeIsPrefix(words, " ", n);
    SplitJoin(words[..n], ' ');
    assert words[..|words|] == words;
  }
}

// The board state and its transitions.
module KanbanState {
  import opened Wrappers
  import opened ApiTypes
  import opened OffersData
  import opened KanbanBoard

  /** The role of the contact cards a column may hold: the third column holds recruiters, the fourth hiring managers. */
  function RoleOf(k: nat): Role {
    if k == 2 then Recruiter else HiringManager
  }

  /**
   * What the board keeps true: the four columns in order; distinct ids, all
   * drawn from the counter; Offers and Applied hold postings, each with its
   * company colour recorded; a contact card sits in the column of its role
   * and points at a posting in Applied.
   */
  predicate Consistent(cols: seq<Column>, colors: map<Uuid, string>, next: nat) {
    && IdsSound(cols, next)
    && ColorsRecorded(cols, colors)
    && ContactsPlaced(cols)
  }

  /** Offers and Applied hold postings, each with its company colour recorded. */
  predicate ColorsRecorded(cols: seq<Column>, colors: map<Uuid, string>)
    requires |cols| == 4
  {
    forall k, c :: 0 <= k < 2 && c in cols[k].items ==>
      c.contact.None? && c.id in colors && colors[c.id] == CompanyColor(c.offer.company)
  }

  /** Every contact card sits in the column of its role and points at a posting in Applied. */
  predicate ContactsPlaced(cols: seq<Column>)
    requires |cols| == 4
  {
    forall k, c :: 2 <= k < 4 && c in cols[k].items && c.contact.Some? ==>
      c.contact.value.role == RoleOf(k) && c.contact.value.originalOfferId in IdsOf(cols[1].items)
  }

  /** The four columns in order; ids distinct within and across columns, all drawn from the counter. */
  predicate IdsSound(cols: seq<Column>, next: nat) {
    && Shaped(cols)
    && (forall k :: 0 <= k < 4 ==> DistinctIds(cols[k].items) && IdsBelow(cols[k].items, next))
    && (forall a, b :: 0 <= a < b < 4 ==> IdsOf(cols[a].items) !! IdsOf(cols[b].items))
  }

  /** Every card of the board, column by column. */
  function AllCards(cols: seq<Column>): seq<Card>
    requires |cols| == 4
  {
    cols[0].items + cols[1].items + cols[2].items + cols[3].items
  }

  /** The splice of a move out of Offers (column 0) into column `d`. */
  function Spliced(cols: seq<Column>, i: nat, d: nat, j: nat): seq<Column>
    requires Shaped(cols) && 1 <= d < 4 && i < |cols[0].items| && j <= |cols[d].items|
  {
    var moved := cols[0].items[i];
    cols[0 := cols[0].(items := RemoveAt(cols[0].items, i))]
        [d := cols[d].(items := InsertAt(cols[d].items, j, moved))]
  }

  /** The fan-out of `moved`: its recruiters' cards, then its hiring managers', ids drawn from `next` on. */
  function FannedOut(cols: seq<Column>, moved: Card, next: nat): seq<Column>
    requires Shaped(cols)
  {
    var recruiterCards := FanOut(moved, moved.offer.recruiters, Recruiter, next);
    var managerCards := FanOut(moved, moved.offer.hiringManagers, HiringManager, next + |recruiterCards|);
    cols[2 := cols[2].(items := cols[2].items + recruiterCards)]
        [3 := cols[3].(items := cols[3].items + managerCards)]
  }

  /** The counter after the fan-out of `moved`: one id per recruiter and per hiring manager. */
  function FannedNext(moved: Card, next: nat): nat {
    next + |moved.offer.recruiters| + |moved.offer.hiringManagers|
  }

  /**
   * The splice removes exactly the card at the source, puts that card at
   * the destination, leaves the other columns alone and keeps every card.
   */
  lemma SplicedMoves(cols: seq<Column>, i: nat, d: nat, j: nat)
    requires Shaped(cols) && 1 <= d < 4 && i < |cols[0].items| && j <= |cols[d].items|
    ensures var r := Spliced(cols, i, d, j);
      && Shaped(r)
      && r[0].items == RemoveAt(cols[0].items, i)
      && r[d].items == InsertAt(cols[d].items, j, cols[0].items[i])
      && (forall k :: 1 <= k < 4 && k != d ==> r[k] == cols[k])
      && multiset(AllCards(r)) == multiset(AllCards(cols))
  {
    var r := Spliced(cols, i, d, j);
    SpliceConserves(cols[0].items, i, cols[d].items, j);
    if d == 1 {
      assert AllCards(r) == r[0].items + r[1].items + cols[2].items + cols[3].items;
    } else if d == 2 {
      assert AllCards(r) == r[0].items + cols[1].items + r[2].items + cols[3].items;
    } else {
      assert AllCards(r) == r[0].items + cols[1].items + cols[2].items + r[3].items;
    }
  }

  /** The fan-out appends one card per recruiter and per hiring manager, in order, and removes nothing. */
  lemma FannedOutAppends(cols: seq<Column>, moved: Card, next: nat)
    requires Shaped(cols)
    ensures var r := FannedOut(cols, moved, next);
      var recruiterCards := FanOut(moved, moved.offer.recruiters, Recruiter, next);
      var managerCards := FanOut(moved, moved.offer.hiringManagers, HiringManager, next + |moved.offer.recruiters|);
      && Shaped(r) && r[0] == cols[0] && r[1] == cols[1]
      && r[2].items == cols[2].items + recruiterCards
      && r[3].items == cols[3].items + managerCards
  {
  }

  /** The fan-out adds exactly the new contact cards to the board. */
  lemma FannedOutCards(cols: seq<Column>, moved: Card, next: nat)
    requires Shaped(cols)
    ensures var r := FannedOut(cols, moved, next);
      var recruiterCards := FanOut(moved, moved.offer.recruiters, Recruiter, next);
      var managerCards := FanOut(moved, moved.offer.hiringManagers, HiringManager, next + |moved.offer.recruiters|);
      |r| == 4 && multiset(AllCards(r)) == multiset(AllCards(cols)) + multiset(recruiterCards) + multiset(managerCards)
  {
    FannedOutAppends(cols, moved, next);
  }

  /** The moved card is in its destination column after the splice. */
  lemma SplicedHolds(cols: seq<Column>, i: nat, d: nat, j: nat)
    requires Shaped(cols) && 1 <= d < 4 && i < |cols[0].items| && j <= |cols[d].items|
    ensures cols[0].items[i] in Spliced(cols, i, d, j)[d].items
  {
    var r := Spliced(cols, i, d, j);
    assert r[d].items[j] == cols[0].items[i];
  }

  /** Recording again the colour of a posting in Applied leaves the colour map as it is. */
  lemma RecordedAgain(cols: seq<Column>, colors: map<Uuid, string>, next: nat, c: Card)
    requires Consistent(cols, colors, next) && c in cols[1].items
    ensures colors[c.id := CompanyColor(c.offer.company)] == colors
  {
  }

  /** A card of a spliced sequence is the inserted card or a card of the original. */
  lemma SpliceMembers(s: seq<Card>, i: nat, t: seq<Card>, j: nat, x: Card)
    requires i < |s| && j <= |t|
    ensures forall c :: c in RemoveAt(s, i) ==> c in s
    ensures forall c :: c in InsertAt(t, j, x) ==> c == x || c in t
    ensures forall c :: c in t ==> c in InsertAt(t, j, x)
  {
    assert RemoveAt(s, i) == s[..i] + s[i + 1..];
    assert InsertAt(t, j, x) == t[..j] + [x] + t[j..];
    assert t == t[..j] + t[j..];
  }

  /** A legal move keeps the ids sound. */
  lemma SplicedIdsSound(cols: seq<Column>, next: nat, i: nat, d: nat, j: nat)
    requires IdsSound(cols, next)
    requires 1 <= d < 4 && i < |cols[0].items| && j <= |cols[d].items|
    ensures IdsSound(Spliced(cols, i, d, j), next)
  {
    var r := Spliced(cols, i, d, j);
    var m := cols[0].items[i];
    SplicedMoves(cols, i, d, j);
    assert m in cols[0].items;
    assert m.id in IdsOf(cols[0].items);
    assert m.id !in IdsOf(cols[d].items);
    RemoveAtIds(cols[0].items, i);
    InsertAtIds(cols[d].items, j, m);
    SpliceMembers(cols[0].items, i, cols[d].items, j, m);
    forall k | 0 <= k < 4
      ensures DistinctIds(r[k].items) && IdsBelow(r[k].items, next)
    {
      if k != 0 && k != d {
        assert r[k] == cols[k];
      }
    }
    forall a, b | 0 <= a < b < 4
      ensures IdsOf(r[a].items) !! IdsOf(r[b].items)
    {
      assert IdsOf(cols[a].items) !! IdsOf(cols[b].items);
      if a != 0 && a != d && b != d {
        assert r[a] == cols[a] && r[b] == cols[b];
      } else if a == 0 && b != d {
        assert r[b] == cols[b];
        assert IdsOf(cols[0].items) !! IdsOf(cols[d].items);
      } else if a == 0 {
      } else if a == d {
        assert r[b] == cols[b];
        assert IdsOf(cols[0].items) !! IdsOf(cols[b].items);
      } else {
        assert r[a] == cols[a];
        assert IdsOf(cols[0].items) !! IdsOf(cols[a].items);
      }
    }
  }

  /** A legal move keeps the board consistent, with the same colour map and counter. */
  lemma SplicedConsistent(cols: seq<Column>, colors: map<Uuid, string>, next: nat, i: nat, d: nat, j: nat)
    requires Consistent(cols, colors, next)
    requires 1 <= d < 4 && i < |cols[0].items| && j <= |cols[d].items|
    ensures Consistent(Spliced(cols, i, d, j), colors, next)
  {
    var r := Spliced(cols, i, d, j);
    var m := cols[0].items[i];
    SplicedMoves(cols, i, d, j);
    SplicedIdsSound(cols, next, i, d, j);
    SpliceMembers(cols[0].items, i, cols[d].items, j, m);
    assert m in cols[0].items;
    assert IdsOf(cols[1].items) <= IdsOf(r[1].items);
  }

  /** Cards below a bound and cards at or above it share no id. */
  lemma DisjointByRange(s: seq<Card>, t: seq<Card>, bound: nat)
    requires IdsBelow(s, bound) && forall c :: c in t ==> bound <= c.id.n
    ensures IdsOf(s) !! IdsOf(t)
  {
    forall x | x in IdsOf(s) ensures x !in IdsOf(t) {
      var c :| c in s && c.id == x;
      assert x.n < bound;
    }
  }

  /** Fresh cards appended to a column: the ids stay distinct and below the moved counter. */
  lemma AppendFresh(s: seq<Card>, added: seq<Card>, next: nat, next': nat)
    requires DistinctIds(s) && IdsBelow(s, next) && next <= next'
    requires DistinctIds(added) && forall c :: c in added ==> next <= c.id.n < next'
    ensures DistinctIds(s + added) && IdsBelow(s + added, next')
    ensures IdsOf(s + added) == IdsOf(s) + IdsOf(added)
  {
    DisjointByRange(s, added, next);
    AppendIds(s, added);
  }

  /** A column with the fanned-out cards appended keeps distinct ids below the advanced counter. */
  lemma AppendFanOut(s: seq<Card>, moved: Card, people: seq<Contact>, role: Role, start: nat)
    requires DistinctIds(s) && IdsBelow(s, start)
    ensures DistinctIds(s + FanOut(moved, people, role, start))
    ensures IdsBelow(s + FanOut(moved, people, role, start), start + |people|)
  {
    FanOutIds(moved, people, role, start);
    AppendFresh(s, FanOut(moved, people, role, start), start, start + |people|);
  }

  /** Within each column of the fanned-out board the ids are distinct and below the moved counter. */
  lemma FannedOutColumnIds(cols: seq<Column>, next: nat, moved: Card)
    requires IdsSound(cols, next)
    ensures var r := FannedOut(cols, moved, next);
      var next' := next + |moved.offer.recruiters| + |moved.offer.hiringManagers|;
      forall k :: 0 <= k < 4 ==> DistinctIds(r[k].items) && IdsBelow(r[k].items, next')
  {
    var rs := moved.offer.recruiters;
    var next' := next + |rs| + |moved.offer.hiringManagers|;
    var r := FannedOut(cols, moved, next);
    FannedOutAppends(cols, moved, next);
    AppendFanOut(cols[2].items, moved, rs, Recruiter, next);
    AppendFanOut(cols[3].items, moved, moved.offer.hiringManagers, HiringManager, next + |rs|);
    forall k | 0 <= k < 4 ensures DistinctIds(r[k].items) && IdsBelow(r[k].items, next') {
      if k < 2 {
        assert r[k] == cols[k];
      } else if k == 2 {
        assert IdsBelow(r[2].items, next + |rs|);
      } else {
        assert IdsBelow(cols[3].items, next + |rs|);
      }
    }
  }

  /** The columns of the fanned-out board share no id. */
  lemma FannedOutDisjoint(cols: seq<Column>, next: nat, moved: Card)
    requires IdsSound(cols, next)
    ensures var r := FannedOut(cols, moved, next);
      forall a, b :: 0 <= a < b < 4 ==> IdsOf(r[a].items) !! IdsOf(r[b].items)
  {
    var rs := moved.offer.recruiters;
    var hs := moved.offer.hiringManagers;
    var recruiterCards := FanOut(moved, rs, Recruiter, next);
    var managerCards := FanOut(moved, hs, HiringManager, next + |rs|);
    var r := FannedOut(cols, moved, next);
    FannedOutAppends(cols, moved, next);
    FanOutIds(moved, rs, Recruiter, next);
    FanOutIds(moved, hs, HiringManager, next + |rs|);
    AppendIds(cols[2].items, recruiterCards);
    AppendIds(cols[3].items, managerCards);
    forall a, b | 0 <= a < b < 4
      ensures IdsOf(r[a].items) !! IdsOf(r[b].items)
    {
      assert IdsOf(cols[a].items) !! IdsOf(cols[b].items);
      if b == 2 {
        DisjointByRange(cols[a].items, recruiterCards, next);
      } else if b == 3 {
        DisjointByRange(cols[a].items, managerCards, next);
        if a == 2 {
          DisjointByRange(recruiterCards, managerCards, next + |rs|);
        }
      }
    }
  }

  /** The fan-out keeps the ids sound once the counter has moved past the new ids. */
  lemma FannedOutIdsSound(cols: seq<Column>, next: nat, moved: Card)
    requires IdsSound(cols, next)
    ensures IdsSound(FannedOut(cols, moved, next),
                     next + |moved.offer.recruiters| + |moved.offer.hiringManagers|)
  {
    FannedOutAppends(cols, moved, next);
    FannedOutColumnIds(cols, next, moved);
    FannedOutDisjoint(cols, next, moved);
  }

  /** The contact cards of a column with the fanned-out cards appended keep their role and point into `origins`. */
  lemma AppendFanOutContacts(s: seq<Card>, moved: Card, people: seq<Contact>, role: Role, start: nat, origins: set<Uuid>)
    requires moved.id in origins
    requires forall c :: c in s && c.contact.Some? ==> c.contact.value.role == role && c.contact.value.originalOfferId in origins
    ensures forall c :: c in s + FanOut(moved, people, role, start) && c.contact.Some? ==>
      c.contact.value.role == role && c.contact.value.originalOfferId in origins
  {
    FanOutIds(moved, people, role, start);
  }

  /** Every contact card of the fanned-out board sits in its role's column and points into Applied. */
  lemma FannedOutContacts(cols: seq<Column>, next: nat, moved: Card)
    requires Shaped(cols) && ContactsPlaced(cols) && moved in cols[1].items
    ensures ContactsPlaced(FannedOut(cols, moved, next))
  {
    var rs := moved.offer.recruiters;
    var origins := IdsOf(cols[1].items);
    FannedOutAppends(cols, moved, next);
    assert moved.id in origins;
    AppendFanOutContacts(cols[2].items, moved, rs, Recruiter, next, origins);
    AppendFanOutContacts(cols[3].items, moved, moved.offer.hiringManagers, HiringManager, next + |rs|, origins);
  }

  /** The fan-out of a posting in Applied keeps the board consistent once the counter has moved past the new ids. */
  lemma FannedOutConsistent(cols: seq<Column>, colors: map<Uuid, string>, next: nat, moved: Card)
    requires Consistent(cols, colors, next) && moved in cols[1].items
    ensures Consistent(FannedOut(cols, moved, next), colors, FannedNext(moved, next))
  {
    FannedOutAppends(cols, moved, next);
    FannedOutIdsSound(cols, next, moved);
    FannedOutContacts(cols, next, moved);
  }

  // ---------------------------------------------------------------------
  // Initial layout

  /** `data.map(offer => ({...offer, id: crypto.randomUUID()}))`: the entries as posting cards, with ids from the counter from `start` on. */
  predicate NumberedFrom(cards: seq<Card>, data: seq<Posting>, start: nat)
    decreases |cards|
  {
    && |cards| == |data|
    && (cards != [] ==>
          && NumberedFrom(cards[..|cards| - 1], data[..|data| - 1], start)
          && cards[|cards| - 1] == Card(Uuid(start + |cards| - 1), data[|data| - 1], None))
  }

  /** Numbered entries are, position by position, the entries with the consecutive ids from `start`. */
  lemma {:induction false} NumberedAt(cards: seq<Card>, data: seq<Posting>, start: nat)
    ensures NumberedFrom(cards, data, start) <==>
      |cards| == |data| && forall k :: 0 <= k < |cards| ==> cards[k] == Card(Uuid(start + k), data[k], None)
    decreases |cards|
  {
    if cards != [] && |cards| == |data| {
      var n := |cards| - 1;
      NumberedAt(cards[..n], data[..n], start);
    }
  }

  /** The first numbered entry takes `start`; the others are numbered from `start + 1`. */
  lemma NumberedRest(cards: seq<Card>, data: seq<Posting>, start: nat)
    requires NumberedFrom(cards, data, start) && data != []
    ensures cards[0] == Card(Uuid(start), data[0], None)
    ensures NumberedFrom(cards[1..], data[1..], start + 1)
  {
    NumberedAt(cards, data, start);
    NumberedAt(cards[1..], data[1..], start + 1);
  }

  /** The colour map the loading effect builds: each card's id mapped to its company's colour, later cards last. */
  function ColorsOf(cards: seq<Card>): map<Uuid, string> {
    if cards == [] then map[]
    else
      var last := cards[|cards| - 1];
      ColorsOf(cards[..|cards| - 1])[last.id := CompanyColor(last.offer.company)]
  }

  /** The colour map has a key for every card and no other, and, ids being distinct, gives each card its company's colour. */
  lemma {:induction false} ColorsOfCards(cards: seq<Card>)
    ensures ColorsOf(cards).Keys == IdsOf(cards)
    ensures DistinctIds(cards) ==>
      forall c :: c in cards ==> ColorsOf(cards)[c.id] == CompanyColor(c.offer.company)
  {
    if cards != [] {
      var init := cards[..|cards| - 1];
      var last := cards[|cards| - 1];
      ColorsOfCards(init);
      assert cards == init + [last];
      assert IdsOf(cards) == IdsOf(init) + {last.id};
      if DistinctIds(cards) {
        assert DistinctIds(init);
        forall c | c in cards ensures ColorsOf(cards)[c.id] == CompanyColor(c.offer.company) {
          if c != last {
            var k :| 0 <= k < |cards| && cards[k] == c;
            assert k < |cards| - 1 && c in init && c.id != last.id;
          }
        }
      }
    }
  }

  /** The first card in Applied, the others in Offers, the last two columns emptied. */
  function LoadedBase(cols: seq<Column>, cards: seq<Card>): seq<Column>
    requires Shaped(cols) && cards != []
  {
    [cols[0].(items := cards[1..]), cols[1].(items := [cards[0]]), cols[2].(items := []), cols[3].(items := [])]
  }

  /**
   * The board the loading effect lays out from the numbered entries: the
   * first in Applied, the others, in order, in Offers, and the contact cards
   * of the first in the last two columns.
   */
  lemma LoadedLayout(cols: seq<Column>, cards: seq<Card>, bound: nat)
    requires Shaped(cols) && cards != []
    ensures var r := FannedOut(LoadedBase(cols, cards), cards[0], bound);
      && Shaped(r)
      && (forall k :: 0 <= k < 4 ==> r[k].title == cols[k].title)
      && r[0].items == cards[1..]
      && r[1].items == [cards[0]]
      && r[2].items == FanOut(cards[0], cards[0].offer.recruiters, Recruiter, bound)
      && r[3].items == FanOut(cards[0], cards[0].offer.hiringManagers, HiringManager, bound + |cards[0].offer.recruiters|)
  {
    FannedOutAppends(LoadedBase(cols, cards), cards[0], bound);
  }

  /** Numbered entries have distinct ids, all from the counter's range, and are posting cards. */
  lemma NumberedIds(cards: seq<Card>, data: seq<Posting>, start: nat)
    requires NumberedFrom(cards, data, start)
    ensures DistinctIds(cards) && IdsBelow(cards, start + |data|)
    ensures forall c :: c in cards ==> start <= c.id.n && c.contact.None?
  {
    NumberedAt(cards, data, start);
  }

  /** Splitting cards with distinct ids into the first and the rest keeps the ids sound. */
  lemma LoadedBaseIds(cols: seq<Column>, cards: seq<Card>, bound: nat)
    requires Shaped(cols) && cards != [] && DistinctIds(cards) && IdsBelow(cards, bound)
    ensures IdsSound(LoadedBase(cols, cards), bound)
  {
    var base := LoadedBase(cols, cards);
    assert cards == [cards[0]] + cards[1..];
    AppendIds([cards[0]], cards[1..]);
    assert forall c :: c in cards[1..] ==> c in cards;
    forall a, b | 0 <= a < b < 4 ensures IdsOf(base[a].items) !! IdsOf(base[b].items) {
      if b >= 2 {
        assert base[b].items == [];
      }
    }
  }

  /** Laid out before the fan-out, posting cards with distinct ids have their colours recorded. */
  lemma LoadedBaseColors(cols: seq<Column>, cards: seq<Card>)
    requires Shaped(cols) && cards != [] && DistinctIds(cards)
    requires forall c :: c in cards ==> c.contact.None?
    ensures ColorsRecorded(LoadedBase(cols, cards), ColorsOf(cards))
  {
    ColorsOfCards(cards);
    assert forall c :: c in cards[1..] ==> c in cards;
  }

  /** Posting cards with distinct ids below `bound`, laid out before the fan-out, are consistent with their colour map. */
  lemma LoadedBaseConsistent(cols: seq<Column>, cards: seq<Card>, bound: nat)
    requires Shaped(cols) && cards != [] && DistinctIds(cards) && IdsBelow(cards, bound)
    requires forall c :: c in cards ==> c.contact.None?
    ensures Consistent(LoadedBase(cols, cards), ColorsOf(cards), bound)
  {
    LoadedBaseIds(cols, cards, bound);
    LoadedBaseColors(cols, cards);
    var base := LoadedBase(cols, cards);
    assert base[2].items == [] && base[3].items == [];
  }

  /** The board with every column emptied, titles kept. */
  function Emptied(cols: seq<Column>): (r: seq<Column>)
    requires Shaped(cols)
    ensures Shaped(r) && forall k :: 0 <= k < 4 ==> r[k].title == cols[k].title && r[k].items == []
  {
    [cols[0].(items := []), cols[1].(items := []), cols[2].(items := []), cols[3].(items := [])]
  }

  /** A board of four empty columns is consistent with any colour map and counter. */
  lemma EmptiedConsistent(cols: seq<Column>, colors: map<Uuid, string>, next: nat)
    requires Shaped(cols) && forall k :: 0 <= k < 4 ==> cols[k].items == []
    ensures Consistent(cols, colors, next)
  {
    assert forall k :: 0 <= k < 4 ==> IdsOf(cols[k].items) == {};
  }

  /** The fan-out of the first entry keeps the laid-out board consistent. */
  lemma LoadedFannedConsistent(cols: seq<Column>, cards: seq<Card>, bound: nat)
    requires Shaped(cols) && cards != [] && DistinctIds(cards) && IdsBelow(cards, bound)
    requires forall c :: c in cards ==> c.contact.None?
    ensures Consistent(FannedOut(LoadedBase(cols, cards), cards[0], bound), ColorsOf(cards), FannedNext(cards[0], bound))
  {
    LoadedBaseConsistent(cols, cards, bound);
    assert cards[0] in LoadedBase(cols, cards)[1].items;
    FannedOutConsistent(LoadedBase(cols, cards), ColorsOf(cards), bound, cards[0]);
  }

  /** The layout of numbered entries, fanned out, is consistent with their colour map once the counter has passed every id. */
  lemma LoadedNumberedConsistent(cols: seq<Column>, data: seq<Posting>, start: nat, cards: seq<Card>, bound: nat)
    requires Shaped(cols) && data != [] && NumberedFrom(cards, data, start) && bound == start + |data|
    ensures Consistent(FannedOut(LoadedBase(cols, cards), cards[0], bound), ColorsOf(cards), FannedNext(cards[0], bound))
  {
    NumberedIds(cards, data, start);
    LoadedFannedConsistent(cols, cards, bound);
  }
}
