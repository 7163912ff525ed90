# job-seeking, modelled in Dafny

A Dafny model of the core of the job-seeking web app. Users browse job offers and move them through a kanban pipeline:
- the **Offers**, **Applied**, **Recruiter** and **Hiring Manager** columns;
- once an offer is applied for, the app writes a resume and a cover letter for it from string templates.

The model covers:

- **The kanban board** (`components/kaban/kaban-board.tsx`).
  - The four columns and the loading effect, which numbers the offers data, records a colour per posting, puts the first entry in Applied and fans its contacts out.
  - The drop handler: the splice of the moved card, and the fan-out of one card per recruiter and per hiring manager.
  - The loading and generated-documents bookkeeping.
  - The company colours and border classes, and the applied card's description preview.
  - The `Board` class keeps an invariant, `Consistent`. It says:
    - the columns are in order;
    - ids are distinct and all drawn from the id counter;
    - every posting has its colour recorded;
    - every contact card sits in its role's column and points at a posting in Applied.
- **The offer feed** (`components/job-offers.tsx`).
  - The initial split of the shuffled offers and the timed addition of pending offers.
  - The highlight and time-stamp bookkeeping, including the 60-second pruning tick.
  - The rule for the delay before the next offer.
  - The action states behind the Accept, Deny and Save buttons, and the accept/redirect flow.
- **The breadcrumb bar** (`components/breadcrumb-navbar.tsx`): how the current path selects the active step and sub-step, and which links are active or disabled.
- **The document templates.**
  - Resume and cover letter of `pages/api/generateResume.ts` and `pages/api/generateCoverLetter.ts`, with their HTTP handlers.
  - The single-contact generators of `lib/`, and the `pages/api/generateDocuments.ts` route that calls both.
  - A rendered document is a template literal passed through `trim()`. It is proved to read back into exactly the paragraphs it was made from. The model also proves what each line holds.
- **The Adzuna job card** (`components/adzuna-job-card.tsx`): description truncation, the salary line and the "Estimated" badge.
- **The contact cards** (`components/profile-card.tsx`): initials, and which cards an offer shows.

Code that changes state step by step is written as classes:
- the board's `setState` updates are the fields of `KanbanJobBoard.Board`;
- the feed's are the fields of `JobOffers.Feed`;
- the breadcrumb's are the fields of `BreadcrumbNavbar.Navbar`.

The templates, the routes, the colour lookup, the cards and the initials are functions.

Inputs the app gets from the outside world are parameters:
- `crypto.randomUUID()` on the board is a counter `nextUuid` that only grows, so fresh ids are distinct by construction;
- `Date.now()` is a parameter;
- a `Math.random()` draw is a parameter;
- the random shuffle of the feed is a permutation the caller passes;
- `Intl.NumberFormat` is a formatter the caller passes;
- a `fetch` to `/api/generateDocuments` is the route's own modelled handler, `GenerateDocuments.Handle`, applied to the body the component posts.

Where the app's documented behaviour and its code disagree, the model follows the code:
- **Generation on the board fails in the code.** The documented behaviour says a board card's documents are generated and stored. The code posts the card's lists, while the route reads single `recruiter` and `hiringManager` fields, so the route always fails (see Findings).
- **The highlight is cleared by a timer.** The documented behaviour has a one-second tick clear the "recently added" highlight. In the code, a 5-second timer per added offer clears it (`JobOffers.Feed.Unhighlight`). The tick only prunes time stamps older than 60 seconds.
- **The delay range is 5000-14000 ms.** The comment at `components/job-offers.tsx:110` says 5-15 seconds. The code draws `floor(r * 9001) + 5000` ms, so the delay is at most 14000.

## Model

| member | source | states |
|---|---|---|
| KanbanBoard.ColumnIndex | components/kaban/kaban-board.tsx:215-216 | each of the four column ids is found, at its fixed position |
| KanbanBoard.RemoveAt | components/kaban/kaban-board.tsx:224 | the copy loses exactly the element at the source index; the others keep their order |
| KanbanBoard.InsertAt | components/kaban/kaban-board.tsx:225 | the element lands at the destination index, and the others are shifted in order |
| KanbanBoard.RemoveInsert | components/kaban/kaban-board.tsx:224-225 | inserting the removed card back at its index restores the column |
| KanbanBoard.SpliceConserves | components/kaban/kaban-board.tsx:221-229 | removal and insertion together keep every card exactly once (multisets) |
| KanbanBoard.FanOut | components/kaban/kaban-board.tsx:236-249 | one card per contact, in order, each with a fresh counter id, the role tag and `originalOfferId` = the moved card's id |
| KanbanBoard.FanOutIds | components/kaban/kaban-board.tsx:236-249 | fanned-out ids are distinct and drawn from the counter range; every card carries its role and points at the moved card |
| KanbanBoard.KnownCompanyColors | components/kaban/kaban-board.tsx:261-267 | the six known companies get their colours, in the order the lookup compares them |
| KanbanBoard.UnknownCompanyColor | components/kaban/kaban-board.tsx:268 | any other company gets `gray-200` |
| KanbanBoard.CompanyColorsArePalette | components/kaban/kaban-board.tsx:103-110 | the colours given to known companies are exactly the declared `customColors` palette, each once |
| KanbanBoard.InlineClassesSpelled | components/kaban/kaban-board.tsx:422 | each inline border class is `border-` plus its company's colour |
| KanbanBoard.InlineBorderAgrees | components/kaban/kaban-board.tsx:272-274 | the inline class chain on the cards and `getBorderColorClass` agree for every company |
| KanbanBoard.PreviewShape | components/kaban/kaban-board.tsx:434 | the preview is a prefix of the description followed by `...`, and its words are exactly the description's first 15 (all of them when there are at most 15) |
| KanbanState.SplicedMoves | components/kaban/kaban-board.tsx:215-231 | a legal move removes exactly the source card, inserts it at the destination index, leaves the other columns alone and conserves every card |
| KanbanState.FannedOutAppends | components/kaban/kaban-board.tsx:232-252 | a move into Applied appends one recruiter card per recruiter to column 2 and one hiring-manager card per hiring manager to column 3, in order, and changes nothing else |
| KanbanState.FannedOutCards | components/kaban/kaban-board.tsx:236-252 | the fan-out adds exactly the new contact cards to the board (multisets) |
| KanbanState.SplicedHolds | components/kaban/kaban-board.tsx:225 | after the splice the moved card is in the destination column |
| KanbanState.RecordedAgain | components/kaban/kaban-board.tsx:234 | re-recording the colour of a posting already in Applied leaves the colour map unchanged |
| KanbanState.SplicedIdsSound | components/kaban/kaban-board.tsx:221-229 | a legal move keeps ids distinct and below the counter |
| KanbanState.SplicedConsistent | components/kaban/kaban-board.tsx:215-231 | a legal move preserves the board invariant with the same colour map and counter |
| KanbanState.FannedOutColumnIds | components/kaban/kaban-board.tsx:236-252 | within each column, ids stay distinct and below the advanced counter after the fan-out |
| KanbanState.FannedOutDisjoint | components/kaban/kaban-board.tsx:236-252 | after the fan-out no two columns share an id |
| KanbanState.FannedOutIdsSound | components/kaban/kaban-board.tsx:236-252 | the fan-out keeps ids sound once the counter passes the new ids |
| KanbanState.FannedOutContacts | components/kaban/kaban-board.tsx:236-252 | every contact card sits in its role's column and points at a posting in Applied |
| KanbanState.FannedOutConsistent | components/kaban/kaban-board.tsx:232-252 | fanning out a posting in Applied preserves the board invariant with the advanced counter |
| KanbanState.NumberedAt | components/kaban/kaban-board.tsx:125-128 | the numbered entries are, position by position, the entries with consecutive ids from the counter (both directions) |
| KanbanState.NumberedRest | components/kaban/kaban-board.tsx:125-128 | the first entry takes the current counter value; the rest are numbered from the next |
| KanbanState.NumberedIds | components/kaban/kaban-board.tsx:125-128 | numbered entries have distinct ids from the counter range and are posting cards |
| KanbanState.ColorsOfCards | components/kaban/kaban-board.tsx:130-133 | the colour map has a key for exactly the cards' ids and gives each card its company's colour |
| KanbanState.LoadedLayout | components/kaban/kaban-board.tsx:136-170 | after loading, the first entry is in Applied, the others in order in Offers, and the first entry's contact cards are in the last two columns; titles are kept |
| KanbanState.LoadedBaseIds | components/kaban/kaban-board.tsx:136-170 | splitting the entries into Applied and Offers keeps the ids sound |
| KanbanState.LoadedBaseColors | components/kaban/kaban-board.tsx:130-162 | every loaded posting has its colour recorded |
| KanbanState.LoadedBaseConsistent | components/kaban/kaban-board.tsx:136-170 | the layout before the fan-out satisfies the board invariant |
| KanbanState.Emptied | components/kaban/kaban-board.tsx:157-170 | with no entries, every column is emptied and keeps its title |
| KanbanState.EmptiedConsistent | components/kaban/kaban-board.tsx:113-118 | four empty columns satisfy the board invariant |
| KanbanState.LoadedFannedConsistent | components/kaban/kaban-board.tsx:136-170 | the loaded, fanned-out board satisfies the invariant |
| KanbanState.LoadedNumberedConsistent | components/kaban/kaban-board.tsx:124-170 | the loaded board built from numbered entries satisfies the invariant once the counter passes every id |
| KanbanJobBoard.RecordColors | components/kaban/kaban-board.tsx:130-133 | the loop builds exactly the colour map of the entries |
| KanbanJobBoard.NumberOffers | components/kaban/kaban-board.tsx:125-128 | the loop gives each entry, in order, the next counter id |
| KanbanJobBoard.LoadBoard | components/kaban/kaban-board.tsx:124-173 | the loaded layout, colours, counter and the card to generate for; the result satisfies the invariant; no entries gives empty columns |
| KanbanJobBoard.Board.constructor | components/kaban/kaban-board.tsx:113-121 | four empty titled columns, empty maps, invariant holds |
| KanbanJobBoard.Board.LoadOffers | components/kaban/kaban-board.tsx:124-177 | the mount effect stores the loaded layout, colour map and counter; it marks the applied card as loading; the invariant holds |
| KanbanJobBoard.Board.OnDragEnd | components/kaban/kaban-board.tsx:206-260 | guarded drops change nothing; a legal move is the splice, plus, into Applied, the fan-out, advanced counter, loading flag and generation; the invariant is preserved |
| KanbanJobBoard.Board.BeginGeneration | components/kaban/kaban-board.tsx:177 | the card is marked loading, nothing else changes |
| KanbanJobBoard.Board.CompleteGeneration | components/kaban/kaban-board.tsx:189-203 | a successful response stores the documents under the card's id, a failed one stores nothing; either way loading ends |
| KanbanJobBoard.Board.GenerateDocumentsFor | components/kaban/kaban-board.tsx:176-204 | as written: the board's request fails, nothing is stored and the card stops loading |
| KanbanJobBoard.Board.GenerateDocumentsIntended | components/kaban/kaban-board.tsx:176-204 | corrected: documents are stored exactly when the posting has a recruiter and a hiring manager, and are the `lib` resume and letter |
| OffersData.BoardRequestFails | components/kaban/kaban-board.tsx:181-191 | for every card, the route answers 500 to the board's request because `recruiter` is missing |
| OffersData.FeedRequestSucceeds | components/job-offers.tsx:133-138 | the feed's request succeeds exactly when the entry has at least one recruiter and one hiring manager |
| OffersData.FeedRequestDocuments | components/job-offers.tsx:165-178 | a successful feed request returns the `lib` resume and cover letter for that request |
| OffersData.FeedRequestResult | components/job-offers.tsx:165-189 | the outcome of the feed's request, in both cases |
| JobOffers.Identified | components/job-offers.tsx:133-138 | every entry of the offers data is kept, in order, and no two entries share an id |
| JobOffers.ShuffledDistinct | components/job-offers.tsx:141 | any shuffle of the identified entries shows no id twice |
| JobOffers.Pruned | components/job-offers.tsx:85-93 | pruning only removes keys and keeps the kept stamps unchanged |
| JobOffers.PrunedExactly | components/job-offers.tsx:89 | a stamp survives exactly while `now - stamp <= 60000` |
| JobOffers.PrunedTwice | components/job-offers.tsx:84-95 | successive ticks compose into one tick at the later time; a repeated tick changes nothing |
| JobOffers.RandomDelay | components/job-offers.tsx:110 | the random delay lies in 5000..14000 ms |
| JobOffers.RandomDelayCovers | components/job-offers.tsx:110 | every delay in 5000..14000 ms occurs for some draw |
| JobOffers.NextDelay | components/job-offers.tsx:101-110 | exactly two shown with more pending gives 2000 ms; otherwise the random delay |
| JobOffers.ReadyRedirects | components/job-offers.tsx:246 | Accept redirects exactly from a `ready` offer, and while every ready offer has its documents stored, a redirecting press finds them |
| JobOffers.ButtonRules | components/job-offers.tsx:246-273 | disabled Accept implies disabled Deny/Save; only a state-less offer has all three enabled; Accept redirects only when ready; while generating, Accept starts another generation |
| JobOffers.Feed.constructor | components/job-offers.tsx:131-143 | the first two shuffled offers are shown and the rest pend in order; the shuffle shows no id twice |
| JobOffers.Feed.AddNewOffer | components/job-offers.tsx:60-80 | the first pending offer, whose id is new to the list, is appended, highlighted and time-stamped; nothing pending changes nothing; the invariant holds |
| JobOffers.Feed.Unhighlight | components/job-offers.tsx:72-78 | only that offer's highlight is removed |
| JobOffers.Feed.Tick | components/job-offers.tsx:83-98 | the key-by-key deletion loop yields exactly the pruned map |
| JobOffers.Feed.HandleAction | components/job-offers.tsx:152-163 | the offer takes the action's state; acceptance moves on to `generating` and starts generation; Deny/Save are then disabled; the feed invariant is kept and the ghost entries are unchanged |
| JobOffers.Feed.CompleteAccept | components/job-offers.tsx:164-197 | a successful response stores the documents and makes the offer ready; any failure resets it to idle; the feed invariant, including "a ready offer has its documents", is kept |
| JobOffers.Feed.AcceptOffer | components/job-offers.tsx:152-198 | an accepted offer ends ready with documents exactly when its entry names a recruiter and a hiring manager, else idle; the documents are the `lib` resume and cover letter of the posted body; the feed invariant is kept |
| JobOffers.Feed.RedirectTarget | components/job-offers.tsx:200-205 | navigation happens exactly when documents were generated for the offer, and carries them; on a valid feed, every Accept press that redirects navigates |
| BreadcrumbNavbar.ResolutionUnique | components/breadcrumb-navbar.tsx:28-51 | the resolution of a path is unique |
| BreadcrumbNavbar.StepsResolve | components/breadcrumb-navbar.tsx:8-20 | on the bar's steps every step path selects its step, each sub-step path selects Training and that sub-step, and any other path selects Offers |
| BreadcrumbNavbar.RenderRules | components/breadcrumb-navbar.tsx:56-108 | for the step and sub-step `updateActiveStep` resolves: the indices are in range; the active step leads to the path whenever some step does, and no disabled step does; sub-steps show only under the active step; the active sub-step is a link to the path, and on the step's own path every sub-step is disabled |
| BreadcrumbNavbar.Navbar.constructor | components/breadcrumb-navbar.tsx:24-25 | first render: step 0, no sub-step |
| BreadcrumbNavbar.Navbar.UpdateActiveStep | components/breadcrumb-navbar.tsx:28-51 | the backward search stores the last matching step; within it the step's own path comes first (sub-step -1), else the last matching sub-step; no match gives (0, -1) |
| AdzunaJobCard.TruncateDescription | components/adzuna-job-card.tsx:44-47 | a short description is kept; a long one becomes its first `maxLength` characters plus `...`, with length `maxLength + 3`; the result always starts with the front of the input |
| AdzunaJobCard.TruncateIdempotent | components/adzuna-job-card.tsx:44-47 | truncating the shown text again changes nothing |
| AdzunaJobCard.TruncateSeesOnlyPrefix | components/adzuna-job-card.tsx:46 | two long descriptions with the same first `maxLength` characters show the same text |
| AdzunaJobCard.FormatSalary | components/adzuna-job-card.tsx:36-42 | equal bounds give one formatted amount; the text always starts with the minimum and ends with the maximum, separated by ` - ` when they differ |
| AdzunaJobCard.SalaryShowsRange | components/adzuna-job-card.tsx:40-41 | for a formatter that never writes a dash, the text holds a dash exactly when the bounds differ |
| AdzunaJobCard.Card | components/adzuna-job-card.tsx:65-72 | the Estimated badge shows exactly when `salary_is_predicted === 1`; the description shown is at most 153 characters and starts with the first 150 |
| ProfileCard.NonEmpty | components/profile-card.tsx:14 | keeps exactly the non-empty pieces |
| ProfileCard.HeadsAreFirsts | components/profile-card.tsx:14 | the joined heads are the first characters of the non-empty pieces, in order |
| ProfileCard.Initials | components/profile-card.tsx:14 | one upper-cased first character per non-empty space-separated segment, in order |
| ProfileCard.InitialsOfWords | components/profile-card.tsx:14 | words joined by spaces give the upper-cased heads of the non-empty words |
| ProfileCard.InitialsOfEmpty | components/profile-card.tsx:14 | an empty name has empty initials |
| ProfileCard.InitialsSkipSpace | components/profile-card.tsx:14 | a leading space contributes nothing |
| ProfileCard.InitialsOfSpaces | components/profile-card.tsx:14 | a name made only of spaces has empty initials |
| ProfileCard.InitialsDoubledSpace | components/profile-card.tsx:14 | `"Jane  doe"` gives `"JD"`: the doubled space adds nothing and lower case is raised |
| ProfileCard.JobOfferProfiles | components/profile-card.tsx:66-87 | a Recruiter card exactly when a recruiter is present, a Hiring Manager card exactly when a hiring manager is, recruiter first |
| Text.TrimStart | pages/api/generateResume.ts:48 | removes exactly the leading whitespace run |
| Text.TrimEnd | pages/api/generateResume.ts:48 | removes exactly the trailing whitespace run |
| Text.TrimWrapped | pages/api/generateResume.ts:48 | trimming text wrapped in whitespace, which itself starts and ends with visible characters, gives the text back |
| Text.Lower | pages/api/generateResume.ts:29 | `toLowerCase` character by character, same length |
| Text.LowerIsLowered | pages/api/generateResume.ts:29 | lower-casing leaves no ASCII capital and is idempotent |
| Text.Upper | components/profile-card.tsx:14 | `toUpperCase` character by character, same length |
| Text.Split | pages/api/generateResume.ts:30 | at least one piece, no piece holds the separator, and joining the pieces with it gives the input back |
| Text.SplitJoin | pages/api/generateResume.ts:30 | splitting joined separator-free pieces gives the pieces back |
| Text.FirstPieceIsPrefix | pages/api/generateCoverLetter.ts:11 | `split('.')[0]` is the longest prefix free of the separator: the whole text when there is none |
| Text.SliceFront | components/adzuna-job-card.tsx:46 | `slice(0, n)` keeps the first `min(n, length)` characters |
| Templates.GoodInterview | pages/api/generateResume.ts:43-45 | the footer's three lines are single-line when the contacts are |
| Templates.RenderIsJoin | pages/api/generateResume.ts:22-48 | `trim()` strips exactly the template's wrapping line breaks and indentation |
| Templates.ReadRender | pages/api/generateResume.ts:22-48 | a rendered document read back at line breaks and blank lines gives exactly its paragraphs |
| Templates.RenderFirstLine | pages/api/generateResume.ts:22-48 | the first line of the document is the first paragraph's first line |
| Templates.RenderEndsWith | pages/api/generateResume.ts:22-48 | the document ends with its last paragraph |
| ResumeText.GoodOpening | pages/api/generateResume.ts:23-26 | the title and objective are good lines when their fields are single-line |
| ResumeText.GoodSummary | pages/api/generateResume.ts:28-31 | the summary lines are good when position and description are single-line |
| ResumeText.GoodBody | pages/api/generateResume.ts:33-41 | experience, education and skills are good lines when their fields are single-line |
| CoverLetterText.FirstSentenceStarts | pages/api/generateCoverLetter.ts:11 | the paragraph starts with the description's first sentence and its full stop |
| CoverLetterText.GoodGreeting | pages/api/generateCoverLetter.ts:7-18 | the greeting and signature are good lines |
| CoverLetterText.GoodInterest | pages/api/generateCoverLetter.ts:9 | the opening paragraph is one good line for single-line fields |
| CoverLetterText.GoodFirstSentence | pages/api/generateCoverLetter.ts:11 | the first-sentence paragraph is one good line for a single-line description |
| CoverLetterText.GoodCareer | pages/api/generateCoverLetter.ts:13 | the career paragraph is one good line for a single-line position |
| CoverLetterText.GoodClosing | pages/api/generateCoverLetter.ts:15 | the closing paragraph is one good line for a single-line company |
| ApiGenerateResume.ResumeTrimSafe | pages/api/generateResume.ts:22-48 | the resume starts and ends with visible text, so `trim()` keeps it whole; its first paragraph is the title |
| ApiGenerateResume.ResumeWellFormed | pages/api/generateResume.ts:19-49 | with single-line fields the resume is a well-formed sequence of paragraphs |
| ApiGenerateResume.ResumeStartsWithTitle | pages/api/generateResume.ts:22-48 | the resume is its lines joined, and starts with `Resume for <position> at <company>` |
| ApiGenerateResume.ResumeFirstLine | pages/api/generateResume.ts:23 | the first line names position and company, whatever the description holds |
| ApiGenerateResume.ResumeSections | pages/api/generateResume.ts:19-49 | read back, the resume is the title and six sections in order, with the lower-cased position and first sentence in the summary |
| ApiGenerateResume.ResumeFooter | pages/api/generateResume.ts:43-45 | the resume ends with the footer naming the first recruiter and hiring manager, or `undefined (undefined)` for an empty list |
| ApiGenerateResume.Handle | pages/api/generateResume.ts:51-67 | a verb other than POST gives 405; POST with a readable offer gives 200 with the resume; otherwise 500 |
| ApiGenerateCoverLetter.CoverLetterTrimSafe | pages/api/generateCoverLetter.ts:6-25 | the letter starts and ends with visible text, so `trim()` keeps it whole |
| ApiGenerateCoverLetter.CoverLetterWellFormed | pages/api/generateCoverLetter.ts:3-26 | with single-line fields the letter is a well-formed sequence of paragraphs |
| ApiGenerateCoverLetter.CoverLetterFirstLine | pages/api/generateCoverLetter.ts:7 | the letter opens with `Dear Hiring Manager,` whatever the offer holds |
| ApiGenerateCoverLetter.CoverLetterSections | pages/api/generateCoverLetter.ts:3-26 | read back, the letter is its seven paragraphs in order: greeting, first-sentence paragraph third, signature, footer |
| ApiGenerateCoverLetter.CoverLetterFooter | pages/api/generateCoverLetter.ts:20-22 | the letter ends with the footer naming the first recruiter and hiring manager |
| ApiGenerateCoverLetter.Handle | pages/api/generateCoverLetter.ts:28-41 | a verb other than POST gives 405; POST with a readable offer gives 200 with the letter; otherwise 500 with its error message |
| LibGenerateResume.GenerateResume | lib/generateResume.ts:17-46 | succeeds exactly when position, description, recruiter and hiring manager are present; otherwise it fails at the first missing field in reading order |
| LibGenerateResume.ResumeWellFormed | lib/generateResume.ts:19-43 | with single-line fields the paragraphs are well-formed |
| LibGenerateResume.ResumeSections | lib/generateResume.ts:17-46 | read back, the resume gives its seven sections; the title line is `Resume for` plus the title |
| LibGenerateResume.ResumeLines | lib/generateResume.ts:31-42 | the experience names the title; the footer names the one recruiter and hiring manager |
| LibGenerateResume.UntitledResume | lib/generateResume.ts:20 | an offer without `title` gives a resume "for undefined" |
| LibGenerateCoverLetter.GenerateCoverLetter | lib/generateCoverLetter.ts:17-39 | succeeds exactly when all four fields are present; it fails at the first missing one in reading order, the description before the position |
| LibGenerateCoverLetter.CoverLetterIsApiLetter | lib/generateCoverLetter.ts:19-38 | the letter equals the `pages/api` letter for company "your company" and one-element contact lists |
| LibGenerateCoverLetter.CoverLetterFirstLine | lib/generateCoverLetter.ts:20 | the letter opens with the greeting |
| LibGenerateCoverLetter.CoverLetterSections | lib/generateCoverLetter.ts:17-39 | read back, the letter gives its seven paragraphs |
| GenerateDocuments.Handle | pages/api/generateDocuments.ts:21-40 | a verb other than POST gives 405; 200 exactly for POST with a complete offer, carrying both `lib` documents; otherwise 500 |

## Left out

- JSX rendering, styling, icons, toasts, `console` output, the PDF viewer, carousels and sheets.
  - These are presentation only.
  - The render logic that decides something is kept: which buttons are disabled, which steps are links, which cards are shown.
- The 3000 ms wait before the board's request (`components/kaban/kaban-board.tsx:180`), and every other `setTimeout`/`setInterval`.
  - Timers are modelled as the events they fire: `Unhighlight`, `Tick`, `AddNewOffer`.
  - The delay before the next offer is computed by `NextDelay` but not scheduled.
- The rescheduling closure of `scheduleNextOffer` (`components/job-offers.tsx:111-119`) reads stale React state. React's state batching and timing is a runtime concern.
- Interleavings of concurrent generations are not modelled: each generation is a begin event followed by a completion event.
  - `KanbanJobBoard.Board.BeginGeneration` and `CompleteGeneration` are these events on the board.
  - `JobOffers.Feed.HandleAction` and `CompleteAccept` are these events on the feed.
- The "Just added N seconds ago" label. It is text derived from `additionTimes`, which is modelled.
- `newColor` at `components/kaban/kaban-board.tsx:233` is computed and never used.
- KanbanJobBoard.Board.OnDragEnd: the `push` at `components/kaban/kaban-board.tsx:251-252` writes into the arrays of the previous state, which the new columns share. The model appends to a new sequence, so that aliasing is not captured.
- KanbanJobBoard.Board.OnDragEnd: requires the drag library's indices to be in range (a source card exists, the destination index is at most the column length). `findIndex` cannot return -1, because only the four columns are droppable.
- JobOffers.Feed.HandleAction: requires an action from the four the source's type allows.
- Offer ids are modelled without their string values.
  - On the board, `crypto.randomUUID()` is a growing counter.
  - In the feed, each entry's id is its position in the offers data.
  - Either way, ids are distinct, which is what the code relies on.
- The random shuffle (`components/job-offers.tsx:141`) is the permutation the caller passes to `JobOffers.Feed.constructor`. The comparator sort is not modelled.
- AdzunaJobCard.FormatSalary: `Intl.NumberFormat` is a formatter parameter. `toLocaleDateString` is not modelled.
- AdzunaJobCard.TruncateDescription: lengths count characters, not UTF-16 code units, and `maxLength` is a natural number.
- ProfileCard.Initials: `n[0]` takes one UTF-16 code unit; the model takes one character, so for a word starting outside the Basic Multilingual Plane the source keeps a lone surrogate where the model keeps the whole character.
- Text.Lower and Text.Upper: case mapping is ASCII only; other code points are left unchanged.
- The `data/jobOffers.json` offers data is not part of this model. The boards are proved for any list of entries.
- The request body is untyped JSON. The model reads it as `LibTypes.RequestOffer`, where a missing field is `None`. A `null` body or a field of the wrong type is not modelled beyond a missing offer.
- The landing page's Adzuna request, the training and generated-documents pages, and the salary comparison are outside the core.

## Findings

| source | as written | input that shows it | evidently intended | confidence | as-written member | corrected member |
|---|---|---|---|---|---|---|
| components/kaban/kaban-board.tsx:181-186 | the board posts the card itself, which has `recruiters` and `hiringManagers` lists but no `recruiter` or `hiringManager`; `lib/generateResume.ts:41` reads `offer.recruiter.name` and throws, so the route answers 500 and no board card ever gets documents | any posting, e.g. the first entry placed in Applied on mount | post the card with its first recruiter and first hiring manager, as the feed does at `components/job-offers.tsx:136-137`, so documents are stored whenever both lists are non-empty | not executed | KanbanJobBoard.Board.GenerateDocumentsFor | KanbanJobBoard.Board.GenerateDocumentsIntended |
