# Rural health front-end: verified model of the page logic

The repository is a set of React screens running on mock data. Three of them
hold logic worth stating:

- **Pharmacy** (`pharmacy.dfy`): the catalogue filter. A medicine is listed
  when the lower-cased search text occurs in its lower-cased name or generic
  name and the selected category is `"all"` or equals its `type` exactly. The
  module also holds the three-way stock badge and the parts of a medicine
  card that depend on the stock count and the alternatives list.
- **Symptom checker** (`symptom_checker.dfy`): the chat. A send with blank
  input (by JavaScript's `trim`) does nothing. Otherwise it appends the user's
  message with id `length + 1`, clears the input and schedules a reply. When
  the reply fires it appends one of four canned texts with id
  `length-at-send + 2`. The state is a value `Chat` with pure transition
  functions. The class `Page` holds the same state in fields, and each of its
  methods is specified by one of those functions.
- **Health-worker dashboard** (`health_worker.dfy`): the urgency-badge and
  status-icon mappings with their default branches, triage buttons that change
  nothing, and the tab selector that decides which single panel is shown.

`text.dfy` holds the string operations the pages use: ASCII lower-casing,
`includes` and `trim`. `wrappers.dfy` holds `Option`.

The main result concerns chat message ids. The reply's id comes from the list
length captured when the message was sent. `SymptomChecker.PacedRunKeepsIdsUnique`
proves that ids stay `1..n`, and so stay unique, on every run in which no
message is sent while a reply is still pending.
`SymptomChecker.TwoSendsBeforeReplyDuplicateId` proves that two sends before
the first reply always give two messages the same id. From the initial page
the ids are 1, 2, 3, 3.

Two consequences of the code worth stating:

- Whitespace-only input is ignored too: the guard at
  `src/pages/SymptomChecker.tsx:38` is `!inputMessage.trim()`.
- Ids are unique in the two hard-coded lists (`Pharmacy.Catalogue`,
  `HealthWorker.Patients`), but chat messages sent in quick succession can
  share an id (see above).

Modelling choices:

- The user message's id uses the list length at the moment of sending, because
  React re-renders between user events.
- Scheduled replies fire in the order they were scheduled: every timer has the
  same 1500 ms delay.
- The random pick of a reply is the argument `pick`, a number in `[0, 4)`.
- An optional `alternatives` list is `Option<seq<string>>`. In JavaScript an empty array is truthy, so `Some([])` still shows the alternatives panel, with no entries in it.

## Model

| member | source | states |
|---|---|---|
| Text.Lower | src/pages/Pharmacy.tsx:85-86 | `toLowerCase` on ASCII: same length, each character lower-cased, nothing else changed |
| Text.LowerChar | src/pages/Pharmacy.tsx:85-86 | ASCII upper-case letters move to lower case; every other character is kept |
| Text.LowerIdempotent | src/pages/Pharmacy.tsx:85-86 | lower-casing an already lower-cased string changes nothing |
| Text.Contains | src/pages/Pharmacy.tsx:85-86 | `includes` holds exactly when the needle occurs at some index of the haystack |
| Text.ContainsEmpty | src/pages/Pharmacy.tsx:85-86 | every string includes the empty query |
| Text.TrimStart | src/pages/SymptomChecker.tsx:38 | the result is a suffix, everything dropped is whitespace, and it does not start with whitespace |
| Text.TrimEnd | src/pages/SymptomChecker.tsx:38 | the result is a prefix, everything dropped is whitespace, and it does not end with whitespace |
| Text.IsJsWhitespace | src/pages/SymptomChecker.tsx:38 | the code points `trim` removes: ECMAScript WhiteSpace and LineTerminator |
| Text.Trim | src/pages/SymptomChecker.tsx:38 | `trim()`: leading and trailing whitespace removed |
| Text.IsBlank | src/pages/SymptomChecker.tsx:38 | the send guard `!inputMessage.trim()`: the trimmed input is empty |
| Text.BlankIffAllWhitespace | src/pages/SymptomChecker.tsx:38 | `!s.trim()` holds exactly when every character of `s` is JavaScript whitespace |
| Pharmacy.Catalogue | src/pages/Pharmacy.tsx:25-70 | the four hard-coded medicines, with distinct ids |
| Pharmacy.MatchesSearch | src/pages/Pharmacy.tsx:85-86 | the lower-cased query is included in the lower-cased name or generic name |
| Pharmacy.MatchesCategory | src/pages/Pharmacy.tsx:87 | the category is "all" or equals the medicine's type exactly |
| Pharmacy.Passes | src/pages/Pharmacy.tsx:88 | the filter's predicate: both tests hold |
| Pharmacy.Filter | src/pages/Pharmacy.tsx:84-89 | no longer than the input; each result passes both tests; each passing medicine appears in the result |
| Pharmacy.FilterIsSubsequence | src/pages/Pharmacy.tsx:84-89 | the filtered list is a subsequence of the catalogue, so it keeps catalogue order |
| Pharmacy.FilterMembership | src/pages/Pharmacy.tsx:84-89 | a medicine is listed if and only if it is in the catalogue and passes search and category |
| Pharmacy.FilterMultiplicity | src/pages/Pharmacy.tsx:84-89 | each medicine is listed as often as it occurs if it passes, and never otherwise |
| Pharmacy.FilterConcat | src/pages/Pharmacy.tsx:84-89 | filtering a concatenation is the concatenation of the filtered parts |
| Pharmacy.FilterNoCriteria | src/pages/Pharmacy.tsx:85-87 | empty query and category "all" return the whole list unchanged |
| Pharmacy.FilterIdempotent | src/pages/Pharmacy.tsx:84-89 | filtering the filtered list again returns the same list |
| Pharmacy.FilterIgnoresQueryCase | src/pages/Pharmacy.tsx:85-86 | a query and its lower-cased form list the same medicines |
| Pharmacy.FilterUnknownCategory | src/pages/Pharmacy.tsx:87 | a category other than "all" that equals no medicine's type exactly lists nothing |
| Pharmacy.InitialViewListsCatalogue | src/pages/Pharmacy.tsx:22-23 | in the initial view (empty search, category "all") the whole catalogue is listed |
| Pharmacy.CatalogueCategoryIsCaseSensitive | src/pages/Pharmacy.tsx:87 | on the real catalogue the category "tablet" lists nothing, although three medicines are "Tablet" |
| Pharmacy.CatalogueHasNoSyrupOrInjection | src/pages/Pharmacy.tsx:72 | on the catalogue the "Syrup" and "Injection" buttons list nothing, whatever the search text |
| Pharmacy.StockBadgeFor | src/pages/Pharmacy.tsx:74-82 | the three badges partition the counts: 0 is out of stock, other counts below 50 (negatives included) are low, 50 and up is in stock |
| Pharmacy.BadgeLabel | src/pages/Pharmacy.tsx:76-80 | the text of each stock badge |
| Pharmacy.BadgeLabelsDistinct | src/pages/Pharmacy.tsx:76-80 | the three stock badges read differently |
| Pharmacy.CardFor | src/pages/Pharmacy.tsx:186-240 | stock count and "Add to Cart" shown exactly when stock > 0, otherwise "Notify When Available"; alternatives shown exactly when present and stock is 0, and then the card is out of stock with only "Notify" |
| Pharmacy.NegativeStockCard | src/pages/Pharmacy.tsx:194-226 | a negative count shows "Low Stock" together with "Notify When Available", no count and no alternatives |
| Pharmacy.Listing | src/pages/Pharmacy.tsx:167-242 | one card per filtered medicine, in filtered order |
| Pharmacy.InitialListingAlternatives | src/pages/Pharmacy.tsx:226 | in the initial view only the out-of-stock Amoxicillin card shows alternatives |
| SymptomChecker.Initial | src/pages/SymptomChecker.tsx:16-24 | exactly one non-user message with id 1, empty input, no reply pending |
| SymptomChecker.GenerateResponse | src/pages/SymptomChecker.tsx:62-70 | the reply text is one of the four fixed responses |
| SymptomChecker.ResponseIgnoresSymptom | src/pages/SymptomChecker.tsx:62-70 | the reply text does not depend on the symptom argument |
| SymptomChecker.AfterSend | src/pages/SymptomChecker.tsx:37-48 | blank input changes nothing; otherwise one user message with the untrimmed text and id length + 1 is appended to an unchanged prefix, the input is cleared and a reply is scheduled with the current length |
| SymptomChecker.AfterReply | src/pages/SymptomChecker.tsx:51-59 | the earliest scheduled reply appends one assistant message whose id is its snapshot + 2 and whose text is a fixed response; the input is untouched |
| SymptomChecker.SetInput | src/pages/SymptomChecker.tsx:72-74 | a quick-symptom click (or typing) sets the input to the given text and leaves messages and scheduled replies untouched |
| SymptomChecker.QuickSymptomsNotBlank | src/pages/SymptomChecker.tsx:26-35 | no quick-symptom text is blank |
| SymptomChecker.ClickThenSendAppends | src/pages/SymptomChecker.tsx:72-74 | clicking a quick symptom and then sending always appends that symptom as a user message |
| SymptomChecker.QuickSymptomsVisible | src/pages/SymptomChecker.tsx:130 | the quick-symptom panel shows exactly when the list holds one message |
| SymptomChecker.RunExtendsMessages | src/pages/SymptomChecker.tsx:47 | over any sequence of events, earlier messages stay an unchanged prefix |
| SymptomChecker.QuickSymptomsStayHidden | src/pages/SymptomChecker.tsx:130 | once the list holds more than the greeting, the quick-symptom panel never comes back |
| SymptomChecker.StepKeepsPaced | src/pages/SymptomChecker.tsx:41-53 | one event keeps ids 1..n with at most one reply pending, as long as no message is sent while a reply is pending |
| SymptomChecker.SendThenReply | src/pages/SymptomChecker.tsx:41-53 | from ids 1..n with nothing pending, a send and its reply give ids 1..n+2, a user message followed by an assistant message |
| SymptomChecker.PacedRunKeepsIdsUnique | src/pages/SymptomChecker.tsx:41-53 | on every run in which each reply arrives before the next send, ids stay 1..n and unique |
| SymptomChecker.PacedFromInitial | src/pages/SymptomChecker.tsx:16-53 | from the initial page, every such run keeps ids unique |
| SymptomChecker.TwoSendsBeforeReplyDuplicateId | src/pages/SymptomChecker.tsx:41-53 | two sends before the first reply always produce two messages with the same id |
| SymptomChecker.TwoQuickSendsFromInitial | src/pages/SymptomChecker.tsx:41-53 | from the initial page, two quick sends give ids 1, 2, 3, 3 |
| SymptomChecker.Page.constructor | src/pages/SymptomChecker.tsx:16-24 | the page starts in the initial state |
| SymptomChecker.Page.Send | src/pages/SymptomChecker.tsx:37-50 | the new state is the send step applied to the old one |
| SymptomChecker.Page.Reply | src/pages/SymptomChecker.tsx:51-59 | the new state is the reply step applied to the old one; it fires only when a reply has been scheduled |
| SymptomChecker.Page.ClickSymptom | src/pages/SymptomChecker.tsx:72-74 | the input becomes the symptom's text; messages and scheduled replies are untouched |
| SymptomChecker.Page.TypeInput | src/pages/SymptomChecker.tsx:160 | the input becomes the typed text; messages and scheduled replies are untouched |
| SymptomChecker.Page.ShowsQuickSymptoms | src/pages/SymptomChecker.tsx:130 | true exactly when the message list has length 1 |
| HealthWorker.Patients | src/pages/HealthWorker.tsx:23-27 | the three hard-coded patients, with distinct ids |
| HealthWorker.UrgencyBadgeOf | src/pages/HealthWorker.tsx:29-40 | "high", "medium" and "low" map to their badges, each only from that string; every other string maps to no badge |
| HealthWorker.UrgencyBadgeLabel | src/pages/HealthWorker.tsx:32-36 | the text of each urgency badge |
| HealthWorker.UrgencyAlwaysBadged | src/pages/HealthWorker.tsx:12 | every urgency a record can hold gets a badge, and its label lower-cased is the urgency string |
| HealthWorker.StatusIconOf | src/pages/HealthWorker.tsx:42-49 | in-progress gives the cycle icon, completed the check mark, and waiting or any other string the hourglass |
| HealthWorker.StatusIconDistinguishesStatuses | src/pages/HealthWorker.tsx:16 | on the three typed statuses, two icons are equal exactly when the statuses are |
| HealthWorker.InitialDashboard | src/pages/HealthWorker.tsx:21-27 | the dashboard opens on the queue tab with the hard-coded patients |
| HealthWorker.SelectTab | src/pages/HealthWorker.tsx:69-76 | clicking a tab makes it active, so the active tab is always one of queue, analytics or resources; patients unchanged |
| HealthWorker.TabLabel | src/pages/HealthWorker.tsx:78 | the caption of each tab button |
| HealthWorker.TabLabelsDistinct | src/pages/HealthWorker.tsx:78 | the three tab buttons carry three different captions |
| HealthWorker.Triage | src/pages/HealthWorker.tsx:51-53 | a triage action leaves the patient list and the active tab unchanged |
| HealthWorker.TriageSequenceChangesNothing | src/pages/HealthWorker.tsx:105-107 | any sequence of escalate, treat and refer clicks leaves the dashboard exactly as it was |
| HealthWorker.RowFor | src/pages/HealthWorker.tsx:87-109 | a queue card shows the patient's id, name, age, gender, village, wait time and symptoms, the urgency badge of its urgency (always present) and the status icon of its status |
| HealthWorker.QueueRows | src/pages/HealthWorker.tsx:86 | one card per patient, in queue order |
| HealthWorker.Panels | src/pages/HealthWorker.tsx:84-135 | the three independent `activeTab ===` blocks, in page order |
| HealthWorker.ExactlyOnePanel | src/pages/HealthWorker.tsx:84-135 | a valid tab shows exactly one panel, the one it names; any other string would show none |
| HealthWorker.QueuePanelListsEveryPatient | src/pages/HealthWorker.tsx:84-112 | on the queue tab the single panel lists every patient once, in list order |
| HealthWorker.HighlightedTabs | src/pages/HealthWorker.tsx:72-74 | a tab button is highlighted exactly when its name equals the active tab |
| HealthWorker.OneTabHighlighted | src/pages/HealthWorker.tsx:69-76 | after a tab is clicked, exactly that one button is highlighted |

## Left out

- JSX rendering, CSS classes, animation delays, emoji and SVG markup are not modelled. Badges, icons, buttons and panels are enum values.
- `navigate('/home')` and the back buttons are not modelled: they are route changes with no logic.
- `src/pages/Onboarding.tsx` is not part of this model. Its language toggle is read only to highlight the chosen button, and its continue button only navigates.
- The 1500 ms `setTimeout` is not modelled as time. The reply is a separate step, and pending replies fire in scheduling order.
- `Math.random` and `Math.floor` are not modelled: they are floating point. The draw is the argument `pick` in `[0, 4)`.
- Message timestamps (`new Date()`, `toLocaleTimeString`) are not modelled: they read the clock and locale. The field is dropped.
- Text.Lower: does not model Unicode case mapping beyond ASCII, because `toLowerCase` depends on a Unicode library table.
- HealthWorker.Triage: does not model the `console.log` line, because it is I/O; the state is unchanged.
- The analytics numbers and the resources list on the dashboard are not modelled: they are fixed display text.
- Pharmacy.StockBadgeFor: stock and price are integers, so fractional counts and `NaN` are not modelled.
- The search box and category buttons replace `searchQuery` and `selectedCategory` wholesale. They appear only as the `Pharmacy.View` value, and highlighting of the selected category is styling.
- The Upload, View Cart, Order History, info and Voice Input buttons are not modelled: they have no handlers.
