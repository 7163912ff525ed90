/**
 * The state of the `KanbanJobBoard` component of
 * `components/kaban/kaban-board.tsx`: its columns, the colour recorded for
 * each posting, which cards are waiting for documents and the documents
 * generated so far. React's `setState` updates are the field updates of the
 * methods; `crypto.randomUUID()` is the counter `nextUuid`.
 */
module KanbanJobBoard {
  import opened Wrappers
  import opened Http
  import opened OffersData
  import opened KanbanBoard
  import opened KanbanState
  import GenerateDocuments
  import LibGenerateResume
  import LibGenerateCoverLetter

  /** The colour map the mount effect fills in, one card at a time. */
  method RecordColors(cards: seq<Card>) returns (colors: map<Uuid, string>)
    ensures colors == ColorsOf(cards)
  {
    colors := map[];
    for i := 0 to |cards|
      invariant colors == ColorsOf(cards[..i])
    {
      assert cards[..i + 1][..i] == cards[..i];
      colors := colors[cards[i].id := CompanyColor(cards[i].offer.company)];
    }
    assert cards[..|cards|] == cards;
  }

  /**
   * `offers.map(offer => ({...offer, id: crypto.randomUUID()}))`: one id
   * drawn from the counter per entry, in order, starting at `start`.
   */
  method NumberOffers(data: seq<Posting>, start: nat) returns (cards: seq<Card>)
    ensures NumberedFrom(cards, data, start)
  {
    cards := [];
    for i := 0 to |data|
      invariant NumberedFrom(cards, data[..i], start)
    {
      var next := cards + [Card(Uuid(start + i), data[i], None)];
      assert next[..i] == cards && data[..i + 1][..i] == data[..i];
      cards := next;
    }
    assert data[..|data|] == data;
  }

  /**
   * What the mount effect computes from the offers data and the counter:
   * the numbered entries; the first in Applied and the others, in order, in
   * Offers; the contact cards of the first fanned out into the last two
   * columns; the colour of every entry; the advanced counter; and the card
   * whose documents are to be generated. No entries leave every column empty.
   */
  method LoadBoard(cols0: seq<Column>, data: seq<Posting>, start: nat)
    returns (loaded: seq<Card>, cols: seq<Column>, colors: map<Uuid, string>, next: nat, generating: Option<Card>)
    requires Shaped(cols0)
    ensures Consistent(cols, colors, next)
    ensures NumberedFrom(loaded, data, start)
    ensures colors == ColorsOf(loaded)
    ensures data == [] ==> cols == Emptied(cols0) && next == start && generating == None
    ensures data != [] ==>
      var bound := start + |data|;
      && cols == FannedOut(LoadedBase(cols0, loaded), loaded[0], bound)
      && next == FannedNext(loaded[0], bound)
      && generating == Some(loaded[0])
  {
    loaded := NumberOffers(data, start);
    colors := RecordColors(loaded);
    if data == [] {
      cols, next, generating := Emptied(cols0), start, None;
      EmptiedConsistent(cols, colors, next);
    } else {
      var bound := start + |data|;
      LoadedNumberedConsistent(cols0, data, start, loaded, bound);
      cols := FannedOut(LoadedBase(cols0, loaded), loaded[0], bound);
      next := FannedNext(loaded[0], bound);
      generating := Some(loaded[0]);
    }
  }

  class Board {
    var columns: seq<Column>
    var colorMap: map<Uuid, string>
    var loadingDocuments: map<Uuid, bool>
    var generatedDocuments: map<Uuid, Documents>
    var nextUuid: nat

    /** Every card in its place, ids fresh and distinct, every posting's colour recorded. */
    ghost predicate Valid()
      reads this
    {
      Consistent(columns, colorMap, nextUuid)
    }

    /** The first render: four empty columns and empty maps. */
    constructor ()
      ensures Valid()
      ensures columns == EmptyColumns && colorMap == map[] && nextUuid == 0
      ensures loadingDocuments == map[] && generatedDocuments == map[]
    {
      columns := EmptyColumns;
      colorMap := map[];
      loadingDocuments := map[];
      generatedDocuments := map[];
      nextUuid := 0;
      EmptiedConsistent(EmptyColumns, map[], 0);
    }

    /**
     * The mount effect: lays the entries out as `LoadBoard` computes, stores
     * the columns, the colour map and the advanced counter, and starts
     * generating the documents of the card placed in Applied.
     */
    method LoadOffers(data: seq<Posting>) returns (loaded: seq<Card>, generating: Option<Card>)
      requires Shaped(columns)
      modifies this
      ensures Valid()
      ensures NumberedFrom(loaded, data, old(nextUuid))
      ensures colorMap == ColorsOf(loaded)
      ensures generatedDocuments == old(generatedDocuments)
      ensures data == [] ==>
        && columns == Emptied(old(columns))
        && nextUuid == old(nextUuid)
        && generating == None && loadingDocuments == old(loadingDocuments)
      ensures data != [] ==>
        var bound := old(nextUuid) + |data|;
        && columns == FannedOut(LoadedBase(old(columns), loaded), loaded[0], bound)
        && nextUuid == FannedNext(loaded[0], bound)
        && generating == Some(loaded[0])
        && loadingDocuments == old(loadingDocuments)[loaded[0].id := true]
    {
      var cols, colors, next;
      loaded, cols, colors, next, generating := LoadBoard(columns, data, nextUuid);
      columns, colorMap, nextUuid := cols, colors, next;
      if generating.Some? {
        loadingDocuments := loadingDocuments[generating.value.id := true];
      }
    }

    /**
     * The drop handler. A drop outside any column, a drag that starts
     * outside Offers and a drop back into the source column change nothing.
     * Otherwise the card leaves Offers and enters the destination at its
     * index; dropped in Applied, its colour is recorded again, its contact
     * cards are appended to the last two columns and the generation of its
     * documents starts, and the card is returned.
     */
    method OnDragEnd(source: Location, destination: Option<Location>) returns (generating: Option<Card>)
      requires Valid()
      requires source.index < |columns[ColumnIndex(source.column)].items|
      requires destination.Some? ==> destination.value.index <= |columns[ColumnIndex(destination.value.column)].items|
      modifies this
      ensures Valid()
      ensures generatedDocuments == old(generatedDocuments)
      ensures colorMap == old(colorMap)
      ensures (|| destination.None?
               || source.column == Applied || source.column == RecruiterColumn || source.column == HiringManagerColumn
               || source.column == destination.value.column) ==>
        && generating == None
        && columns == old(columns) && nextUuid == old(nextUuid)
        && loadingDocuments == old(loadingDocuments)
      ensures destination.Some? && source.column == Offers && destination.value.column != Offers ==>
        var d := ColumnIndex(destination.value.column);
        var spliced := Spliced(old(columns), source.index, d, destination.value.index);
        var moved := old(columns)[0].items[source.index];
        if destination.value.column == Applied then
          && columns == FannedOut(spliced, moved, old(nextUuid))
          && nextUuid == FannedNext(moved, old(nextUuid))
          && loadingDocuments == old(loadingDocuments)[moved.id := true]
          && generating == Some(moved)
        else
          && columns == spliced && nextUuid == old(nextUuid)
          && loadingDocuments == old(loadingDocuments)
          && generating == None
    {
      var cols0, next0 := columns, nextUuid;
      generating := None;
      if destination.None? {
        return;
      }
      var dest := destination.value;
      if source.column == Applied || source.column == RecruiterColumn || source.column == HiringManagerColumn {
        return;
      }
      if source.column == dest.column {
        return;
      }
      var d := ColumnIndex(dest.column);
      var moved := cols0[0].items[source.index];
      SplicedConsistent(cols0, colorMap, next0, source.index, d, dest.index);
      var spliced := Spliced(cols0, source.index, d, dest.index);
      if dest.column == Applied {
        SplicedHolds(cols0, source.index, d, dest.index);
        RecordedAgain(spliced, colorMap, next0, moved);
        FannedOutConsistent(spliced, colorMap, next0, moved);
        colorMap := colorMap[moved.id := CompanyColor(moved.offer.company)];
        columns := FannedOut(spliced, moved, next0);
        nextUuid := FannedNext(moved, next0);
        loadingDocuments := loadingDocuments[moved.id := true];
        generating := Some(moved);
      } else {
        columns := spliced;
      }
    }

    /** What `generateDocuments` does before its first `await`: the card is marked as loading. */
    method BeginGeneration(id: Uuid)
      modifies this
      ensures loadingDocuments == old(loadingDocuments)[id := true]
      ensures columns == old(columns) && colorMap == old(colorMap) && nextUuid == old(nextUuid)
      ensures generatedDocuments == old(generatedDocuments)
    {
      loadingDocuments := loadingDocuments[id := true];
    }

    /**
     * What `generateDocuments` does once the route has answered: documents
     * from a successful response are stored under the card's id, a failed
     * response stores nothing, and either way the card stops loading.
     */
    method CompleteGeneration(id: Uuid, response: Response)
      modifies this
      ensures Outcome(response).Some? ==> generatedDocuments == old(generatedDocuments)[id := Outcome(response).value]
      ensures Outcome(response).None? ==> generatedDocuments == old(generatedDocuments)
      ensures loadingDocuments == old(loadingDocuments)[id := false]
      ensures columns == old(columns) && colorMap == old(colorMap) && nextUuid == old(nextUuid)
    {
      var documents := Outcome(response);
      if documents.Some? {
        generatedDocuments := generatedDocuments[id := documents.value];
      }
      loadingDocuments := loadingDocuments[id := false];
    }

    /**
     * A whole generation for a card of this board, the route answering the
     * body the board posts: the route fails, so nothing is stored and the
     * card ends up no longer loading.
     */
    method GenerateDocumentsFor(card: Card)
      modifies this
      ensures generatedDocuments == old(generatedDocuments)
      ensures loadingDocuments == old(loadingDocuments)[card.id := false]
      ensures columns == old(columns) && colorMap == old(colorMap) && nextUuid == old(nextUuid)
    {
      BeginGeneration(card.id);
      var response := GenerateDocuments.Handle("POST", Some(BoardRequest(card.offer)));
      BoardRequestFails(card.offer);
      CompleteGeneration(card.id, response);
    }

    /**
     * The generation the board evidently intends, posting the card with its
     * first recruiter and first hiring manager as the feed does: the
     * documents of the card are stored exactly when its posting names a
     * recruiter and a hiring manager, and the card ends up no longer loading.
     */
    method GenerateDocumentsIntended(card: Card) returns (stored: bool)
      modifies this
      ensures stored <==> |card.offer.recruiters| > 0 && |card.offer.hiringManagers| > 0
      ensures stored ==>
        var request := FeedRequest(card.offer);
        generatedDocuments == old(generatedDocuments)[card.id := Documents(
          LibGenerateResume.GenerateResume(request).value,
          LibGenerateCoverLetter.GenerateCoverLetter(request).value)]
      ensures !stored ==> generatedDocuments == old(generatedDocuments)
      ensures loadingDocuments == old(loadingDocuments)[card.id := false]
      ensures columns == old(columns) && colorMap == old(colorMap) && nextUuid == old(nextUuid)
    {
      BeginGeneration(card.id);
      var response := GenerateDocuments.Handle("POST", Some(FeedRequest(card.offer)));
      FeedRequestResult(card.offer);
      CompleteGeneration(card.id, response);
      stored := Outcome(response).Some?;
    }
  }
}
