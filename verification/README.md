# Verification of the procurement, party, staff and ledger rules

This project models the parts of the back office whose correctness rests on many operations together, and proves what
those operations keep. Quantities and money are integers in units of 0.0001. Times and days are integers.

**Fulfilment of client orders** (`ProcurementTables`, `ProcurementSteps`, `ProcurementService`, the `Fulfilment*`
modules, `Tracking`, `OrderExpiry`, `QuotationExpiry`, `QuotationTerms`). A purchase-order line becomes a fulfilment
attempt, which is bought, received, delivered, and then accepted or rejected; a rejected quantity may be closed or
sent back into the same chain as a replacement attempt. Each operation checks only one sum of child rows, in a loop,
inside a transaction. `ProcurementSteps` says what each operation does to the tables as a function that returns
nothing when the operation raises; the methods of `ProcurementService.Service` do it row by row and put the tables
back on failure. `ProcurementMoves` takes an operation apart into elementary changes, so that what every change keeps,
every operation and every run keeps. The invariant of `FulfilmentInvariants` is kept, and from it follow, over every
run: the funnel, conservation over the replacement forest, terminal statuses, agreement of the event log with the
tables, the rejection ladder, lineage, suppliers and chronology; and which attempts can still be brought to an end
(`FulfilmentProgress`) and which items ordered (`FulfilmentOrdering`) and completed (`FulfilmentCompletion`). `Links`
holds the general facts about grouped and nested sums.

**Merging parties** (`Party*`). Five loops fold the records that hang on one party into another
(`PartyMerge.Party.Absorb`); a sixth redirects its affiliations in the one table that both ends are read from
(`PartyAffiliations`). The register of parties with its merge records and status history is a state machine
(`PartyGraph`, and `PartyKinds` for the kinds along merges), and so is the register together with the table of
affiliations (`PartyNetwork`), with what each party holds (`PartyInheritance`), and with the notes and interactions that
are moved in bulk (`PartyRecords`). The services are the methods of `PartyDirectory.Directory`.

**Smaller cores.** Retries with idempotency keys (`Operations`, joined to the procurement operations in
`ProcurementDesk`); reporting lines (`ReportingLine`) and department leadership (`Leadership`); document numbers and
versions (`DocumentNumbers`, `DocumentRegistry`, `DocumentOffice`); quotation arithmetic (`Pricing`, `QuotationRow`);
the account book, the trial balance and the analytics balances (`AccountBook`, `TrialBalance`).

A boolean input of an operation stands for a check made elsewhere: `admitted` and `allowed` for visibility and
permission together with the validity of parties, contacts and documents, `approved` for a quotation's approval by the
ledger, `reasoned` for a reason that is not blank, `profiled`, `referenced` and `held` for rows outside the model.
Every operation reads the clock twice, once to check and once to insert (`Tick`), because a default time is read again
when a row is made.

Where the code does not do what its checks or names suggest:

- A purchase order's time is checked against the quotation's expiry when the order is validated, but an order sent
  without a time stores one that is read later, when the row is made. `OrderExpiry.InTimeIfAndOnlyIfGiven`: the stored
  time is sure to be in time if and only if the caller gives it. `OrderExpiry.ReceivedAfterExpiry` is a run of six
  operations that stores a later one.
- An attempt all of whose rejections went to replacements before anything of it was closed shows REPLACEMENT_LINKED for
  ever. `FulfilmentProgress.EndsUnlessHandedOver`: every other attempt can still reach ACCEPTED or
  CLOSED_WITH_REJECTION. `FulfilmentExample.HandedOverIsReached` is a run to one that cannot.
- An item part of which was closed never shows its acceptance as COMPLETED, even when nothing of it remains; every
  other item still can, ordered or not (`FulfilmentCompletion.CompletesUnlessClosed`).
- The branch of a merge that drops an affiliation between source and target is never taken
  (`PartyNetwork.NoneToDrop`).
- The checks on an affiliation ask for the kinds of its parties, not for their status. `PartyNetwork.MergedIsEntered` is
  a run that enters one with a party that was merged away, and `PartyNetwork.LiveUnlessEntered` says that this is the
  only way to come by one: a merge leaves none behind.
- The contact of an interaction must be an individual when it is entered, but a change of kind does not look at
  interactions. `PartyRecords.FitOverRuns`: contacts stay individuals over a run if and only if no step changes the
  kind of one. `PartyRecords.ContactIsReclassified` is a run to it.
- A merge asks for compatible kinds, but a change of kind does not ask whether the party was merged or merged into.
  `PartyKinds.AlikeOverRuns`: kinds stay compatible along merges if and only if no such change crosses between
  individuals and others. `PartyKinds.CrossingIsReached` is a run to it.

## Model

| member | source | states |
|---|---|---|
| ProcurementService.Service.CreateRequest | procurement/services.py:177-217 | A request is made with its items, one by one, or nothing is; the new state is the specified one, the invariant of the chain is kept and no row is lost, as in the operations below |
| ProcurementService.Service.SubmitRequest | procurement/services.py:221-243 | A request with an item is submitted, and only once |
| ProcurementService.Service.CreateOffer | procurement/services.py:301-342 | The lines of an offer are checked and inserted one by one; a refused line takes the offer and the lines before it back |
| ProcurementService.Service.CreateQuote | procurement/services.py:346-397 | Rows are checked and inserted one by one; a refused row leaves the tables as they were before the call, an accepted call is the specified new state; the invariant of the chain is kept and no row is lost |
| ProcurementService.Service.AddQuoteRow | procurement/services.py:366-397 | One row adds exactly its priced line, or nothing |
| ProcurementService.Service.IssueQuote | procurement/services.py:401-452 | A revision is sent while it is the latest, approved, documented and not expired, never in the future nor before it was made |
| ProcurementService.Service.CreateOrder | procurement/services.py:456-540 | The same for purchase orders: each accepted row adds an order line, its original attempt and the event that orders it |
| ProcurementService.Service.AddOrderRow | procurement/services.py:475-540 | One row adds exactly its line, attempt and event, or nothing; a row on an invoice line is checked against its price and what is left of it |
| ProcurementService.Service.CreatePurchase | procurement/services.py:544-597 | The same for supplier purchases, with the supplier rule of replacement attempts and the bound by the attempt's quantity |
| ProcurementService.Service.AddPurchaseRow | procurement/services.py:558-597 | One row adds exactly its purchase line and event, or nothing |
| ProcurementService.Service.CreateReceipt | procurement/services.py:601-634 | The same for goods receipts, bounded by the purchase line and not before it was recorded |
| ProcurementService.Service.CreateDelivery | procurement/services.py:638-653 | The same for deliveries, bounded by the receipt line |
| ProcurementService.Service.Dispatch | procurement/services.py:657-691 | A delivery leaves once, at the time its row is written, with one event for each of its lines |
| ProcurementService.Service.RecordOutcome | procurement/services.py:695-752 | The same for outcomes, bounded by the delivery line, with an event for each quantity that is not zero |
| ProcurementService.Service.AddOutcomeRow | procurement/services.py:710-752 | One row adds exactly its outcome line and its events, or nothing |
| ProcurementService.Service.ResolveRejection | procurement/services.py:756-848 | A resolution is refused without effect, or adds its action and, for a replacement, the attempt it grants and both events |
| ProcurementMoves.OperationKeeps | procurement/services.py:177-848 | Whatever holds before an operation and survives each header and each row that it writes holds after it, accepted or rolled back |
| ProcurementMoves.RunKeeps | procurement/services.py:177-848 | The same for any list of operations |
| FulfilmentSteps.ApplyKeeps | procurement/services.py:177-848 | Every operation, accepted or refused, keeps the whole invariant, takes no row back and never lets the clock fall |
| FulfilmentSteps.Reachable | procurement/services.py:177-848 | Every state reached from empty tables satisfies the invariant |
| FulfilmentTheorems.ReachableConservation | procurement/tracking.py:174-181 | In every reachable state ordered = accepted + closed + remaining over the item's whole replacement forest, remaining is the unresolved plus the open quantity and never negative, and COMPLETED leaves nothing open, closed or unresolved in any attempt |
| FulfilmentTheorems.Conservation | procurement/tracking.py:247-253 | The same identity from the invariant alone, with each of the four parts never negative |
| FulfilmentTheorems.CompletedSettles | procurement/tracking.py:211-212 | An item shown as COMPLETED has nothing open, closed or unresolved in any of its attempts |
| FulfilmentTheorems.ReachableFunnel | procurement/tracking.py:54-99 | In every reachable state each attempt has accepted + rejected ≤ dispatched ≤ reserved ≤ received ≤ purchased ≤ target, and closed + reassigned ≤ rejected |
| FulfilmentTheorems.TerminalForever | procurement/tracking.py:100-113 | Once an attempt is ACCEPTED or CLOSED_WITH_REJECTION, no further run changes its totals or its status |
| FulfilmentExample.AcceptedIsReached | procurement/tracking.py:100-101 | Some run from empty tables ends with an attempt ACCEPTED |
| FulfilmentExample.ClosedIsReached | procurement/tracking.py:104-111 | Some run ends with an attempt CLOSED_WITH_REJECTION |
| FulfilmentProgress.EndsUnlessHandedOver | procurement/tracking.py:100-121 | In every reachable state some run brings an attempt to ACCEPTED or CLOSED_WITH_REJECTION if and only if it does not show REPLACEMENT_LINKED with everything accepted or rejected |
| FulfilmentProgress.Finish | procurement/services.py:544-848 | From any state of the invariant an attempt that is not settled is settled by some run of accepted operations, with something of it closed |
| FulfilmentProgress.HandedOverForever | procurement/tracking.py:104-113 | An attempt whose rejections all went to replacements keeps its totals and its status over every run |
| FulfilmentExample.HandedOverIsReached | procurement/services.py:808-826 | Some run ends with such an attempt |
| FulfilmentCompletion.EverythingCanBeAccepted | procurement/services.py:301-848 | From every reachable state some run accepts everything ordered and not closed, of all items at once, without ordering or closing more: nothing remains of any item |
| FulfilmentOrdering.Orderable | procurement/services.py:177-540 | From any state of the invariant some run enters and submits the item's request where that is left to do, and orders one more piece of the item on an invoice that bills it, with nothing else done for any attempt |
| FulfilmentCompletion.CompletesUnlessClosed | procurement/tracking.py:211-212 | In every reachable state any item, ordered or not, can still be shown as COMPLETED if and only if nothing of it was closed |
| FulfilmentCompletion.NeverAfterClosing | procurement/tracking.py:247-253 | Once something of an item was closed no run shows it as COMPLETED |
| FulfilmentTheorems.TerminalAbsorbing | procurement/tracking.py:90-121 | The same between any two states of which the later keeps the rows of the earlier |
| FulfilmentTheorems.TerminalLines | procurement/services.py:584-587 | Under a terminal attempt every purchase, receipt and delivery line is used up, so no further row fits |
| FulfilmentTheorems.TerminalRejections | procurement/services.py:767-776 | Every rejection of a terminal attempt is wholly replaced or closed |
| FulfilmentGrouping.GroupedRefinesNested | procurement/tracking.py:54-99 | Each of the eight quantities that one pass groups along the join path to the attempt equals the sum taken level by level: actions in outcome lines, those in delivery lines, those in receipt lines, those in purchase lines |
| FulfilmentGrouping.EveryLineOnce | procurement/tracking.py:54-99 | Over all attempts, each of those quantities counts every line of its table exactly once |
| FulfilmentGrouping.EveryOutcomeOnce | procurement/tracking.py:59-76 | An outcome line counts, with its accepted and its rejected quantity, towards the one attempt its chain leads back to |
| FulfilmentTheorems.AcceptedMilestone | procurement/tracking.py:211-216 | The acceptance event exists exactly when the accepted figure is positive, so the milestone is never merely RECORDED |
| FulfilmentTheorems.RejectedMilestone | procurement/tracking.py:209-210 | The milestone is an EXCEPTION exactly when some attempt of the item has a rejected quantity |
| Tracking.SummaryIsTally | procurement/tracking.py:54-99 | The summary read from the grouped aggregates shows the sums along the join paths |
| FulfilmentHistory.LogReplays | procurement/services.py:531-847 | For every attempt of every reachable state the quantities in the log add up to purchased, received, dispatched, accepted, rejected and closed, and the ordering and reopening events to its target |
| FulfilmentLog.ResolutionsReplay | procurement/services.py:796-847 | In every reachable state the resolution events of the log are, in order, the action rows: one for each, with its kind, its quantity and the attempt it acts on |
| FulfilmentLog.ResolvedQuantities | procurement/services.py:796-847 | So for returns, supplier decisions, replacements, sourcing, refunds and closures the quantities in an attempt's events add up to those of the actions upon it |
| FulfilmentHistory.RejectionLadder | procurement/services.py:767-794 | Per rejection: same-supplier replacements ≤ supplier acceptances, decisions ≤ returns ≤ rejected, and the committed quantity equals the three actions that commit it and stays within the rejection |
| FulfilmentHistory.OneGrantEach | procurement/services.py:808-826 | Replacement attempts and the actions that grant them correspond one to one, with the same rejection, quantity and strategy |
| FulfilmentHistory.LineageEnds | procurement/services.py:808-819 | Following replacements back from any attempt ends at an original attempt of the same item and order line, with the line's whole quantity |
| FulfilmentHistory.LineageNarrows | procurement/services.py:808-819 | Each step back goes to an earlier attempt and quantities never grow along the way |
| FulfilmentHistory.LineageOverRuns | procurement/services.py:756-848 | Lineage holds in every reachable state |
| FulfilmentHistory.SuppliersFollowStrategy | procurement/services.py:572-583 | A chain of same-supplier replacements shares one supplier; a different-supplier replacement is bought elsewhere than what it replaces |
| FulfilmentHistory.ChainInOrder | procurement/services.py:606-705 | In every reachable state: order received ≤ purchase recorded ≤ goods received ≤ dispatched ≤ outcome ≤ now, along the chain of any outcome |
| FulfilmentHistory.ChronologyOverRuns | procurement/services.py:456-752 | Chronology, and one request along every chain, hold in every reachable state |
| FulfilmentGenerations.ReplacementInTime | procurement/services.py:756-826 | In every reachable state: replaced attempt made ≤ its purchase ≤ its outcome ≤ replacement made ≤ the replacement's purchases ≤ now |
| FulfilmentGenerations.GenerationsInTime | procurement/services.py:808-819 | Along the whole way back to the original attempt, each attempt was made no later than the one that replaces it |
| FulfilmentGenerations.TimelyOverRuns | procurement/services.py:456-848 | The times of attempts, purchases, dispatches and outcomes are so ordered in every reachable state, and every attempt's request is submitted |
| FulfilmentHistory.IssuedBefore | procurement/services.py:465-486 | In every reachable state a line ordered from a quotation was received after some sending of its revision, itself after the revision was made |
| FulfilmentHistory.NumbersAreConsecutive | procurement/services.py:350-358 | The revisions of a quotation carry each of the numbers 1 to n exactly once |
| FulfilmentHistory.RevisionsOverRuns | procurement/services.py:400-424 | In every reachable state revisions are numbered so, and what was sent was then the latest revision |
| OrderExpiry.InTimeIfAndOnlyIfGiven | procurement/services.py:465-495 | A line of an accepted order on a quotation that expires is stored as received by then, whatever the delay between the checks and the row, if and only if the caller gave the receipt time |
| OrderExpiry.DelayChangesTimesOnly | procurement/services.py:465-540 | The same call with any other delay is accepted too, and makes the same order lines on the same quotations |
| OrderExpiry.ReceivedByExpiry | procurement/services.py:465-495 | For one given delay: stored in time if and only if the time was given or the row was made by the expiry |
| OrderExpiry.ReceivedAfterExpiry | procurement/services.py:465-495 | A run of six operations after which an accepted order is stored as received after the expiry |
| QuotationExpiry.Clerk.ExpireRevision | procurement/services.py:951-974 | The command records a due revision once and appends one event for each of its lines, and otherwise does nothing |
| QuotationExpiry.ExpiryRecordedOnce | procurement/services.py:951-974 | Over runs of operations and commands a revision is recorded only after it was sent and had expired, with exactly one event for each of its lines |
| QuotationExpiry.NeverSentAfterRecorded | procurement/services.py:401-412 | A revision recorded as expired keeps its record and is never sent again |
| QuotationTerms.TermsOverRuns | procurement/services.py:366-386 | In every reachable state the lines of a revision have different items, quote offers of their own item in the revision's currency and are priced from their rows; orders on them are at the quoted price |
| QuotationTerms.StoredTotalBound | procurement/document_layout.py:179-185 | The same bound for the lines of every stored revision of every run |
| QuotationTerms.InvoicesNotOverdrawn | ledger/integrations/procurement.py:220-237 | Over runs in which the ledger never shows more of an invoice line than was billed, no more than that is ordered on it |
| Pricing.RoundingBound | procurement/services.py:105-122 | With the 28-digit context in the computation: the stored total of a line is within 0.0001 of the exact total, within 0.00005 for an amount discount, exactly so for lines that fit the context and up to another 10^-12 of a currency unit for all others; stored amounts are not negative and the discount exceeds the subtotal by at most 0.00005 |
| Pricing.RenderTotal | procurement/document_layout.py:112-185 | The printed total, from five running sums, is the sum of the line totals |
| Pricing.DocumentTotalBound | procurement/document_layout.py:179-185 | The printed total of n lines is within n times 0.0001 of the exact one, and another n times 10^-12 of a currency unit if some line does not fit the context |
| QuotationRow.Input.Price | procurement/services.py:105-122 | The row is rewritten in place to its defaults and its two amounts, it reads as before, and it is refused exactly when the discount is too large or a discount or tax has more than 28 digits |
| Operations.Desk.Serve | procurement/views.py:240-291 | The wrapper inserts the key, runs the change, and stores the result or rolls both back: after a failed call the key is unused and nothing has changed |
| Operations.ExactlyOnce | procurement/views.py:252-291 | The business state after any calls is that of running only the first successful call of each key, in order, and those keys are the ones in use |
| Operations.OnePerKey | procurement/views.py:254-261 | No key is used twice among those calls |
| Operations.Retry | procurement/views.py:262-278 | A retry at any later time changes nothing and is answered with the first response, NotFound when no longer visible, and Conflict for another user or fingerprint |
| Operations.RepeatsAreInvisible | procurement/views.py:252-278 | Removing a repeated call from a run does not change its final state |
| Operations.FailureLeavesTheKeyFree | procurement/views.py:252-288 | A call that is not answered with a response, at any point of a run, leaves the rest as if it had not been made, and one that raises leaves its key unused |
| Operations.AlwaysFinished | procurement/views.py:284-288 | Outside the transaction that inserts it, every stored operation has its result |
| ProcurementDesk.ServedConservation | procurement/views.py:252-298 | Whatever requests are served, the tables are those of a run of operations, and conservation holds of them |
| PartyMerge.Party.MergeRoles | crm/services.py:734-801 | The loop gives the specified roles and empties the source |
| PartyContacts.MergedRoles | crm/services.py:734-801 | One row per role; a role is present, and active, exactly when it was on either party |
| PartyContacts.RolesJoined | crm/services.py:759-799 | The target's row of each role in full: the source's if it had none, and otherwise its own, woken if the source's was active, with notes that were not in it joined on |
| PartyMerge.Party.MergeContacts | crm/services.py:804-874 | The loop gives the specified contact methods and empties the source |
| PartyContacts.MergedContacts | crm/services.py:804-874 | One row per kind and value and one active primary per kind; no row or primary of the target is lost; a kind has a primary exactly when either party had one |
| PartyContacts.MergedMarks | crm/services.py:819-852 | A contact method is present, verified or active exactly when it was so on either party |
| PartyMerge.Party.MergeAddresses | crm/services.py:877-915 | The loop, asking for every row, gives the specified addresses and empties the source |
| PartyMerge.Party.MergeSources | crm/services.py:918-955 | The loop with its flag gives what asking for every row gives |
| PartyPlaces.MovedPlaces | crm/services.py:877-915 | In closed form: the target's rows unchanged, then the source's rows, demoted exactly when the target already led their slot |
| PartyPlaces.PlacesKept | crm/models.py:970-982 | One active primary per slot afterwards, and a slot is led exactly when either party led it |
| PartyMerge.Party.MergeProfiles | crm/services.py:958-1048 | A lone profile moves; of two, the target's blank fields are filled and no other changes |
| PartyDirectory.Directory.ReassignAffiliations | crm/services.py:1156-1244 | The loop over the one table of affiliations gives the specified table; moved, combined and removed rows add up to those of the source |
| PartyDirectory.CombineAffiliations | crm/services.py:1091-1153 | Blank fields are filled, the primary mark is raised and the roles are moved, as specified |
| PartyDirectory.MoveAssignments | crm/services.py:1051-1088 | The loop over the role assignments gives the specified assignments, each role once |
| PartyAffiliations.Reassigned | crm/services.py:1156-1244 | In closed form, row by row: dropped, combined, redirected or unchanged as the table before the merge alone determines, although the loop looks the changing table up |
| PartyAffiliations.ReassignedOnce | crm/models.py:675-690 | No pair of person and organisation has two current affiliations afterwards, none is of a party with itself, and none is the source's at that end |
| PartyAffiliations.CurrentJoined | crm/services.py:1183-1210 | With every other party the current affiliations of source and target become one |
| PartyAffiliations.MovedRoles | crm/services.py:1051-1088 | Each role is assigned at most once, and is assigned, and primary, exactly when it was on one of the two affiliations |
| PartyMerge.Party.Absorb | crm/services.py:1358-1379 | The five folds of what hangs on a party: every constraint of the target holds afterwards and the source keeps none of the records |
| PartyDirectory.Directory.Merge | crm/services.py:1297-1473 | A refused merge touches nothing; an accepted one folds the records, redirects the affiliations, moves notes and interactions, leaves the tombstone and records the merge and the status change; no affiliation, note or interaction names the source afterwards |
| PartyDirectory.Directory.ValidateMerge | crm/services.py:1247-1293 | The checks in order decide exactly the specified error |
| PartyDirectory.Directory.CreateParty | crm/serializers.py:1156-1236 | A party is made under a new identifier and never as MERGED; the invariant of register and affiliations is kept, and every note and interaction still is about a registered party, as by the methods below |
| PartyDirectory.Directory.Reclassify | crm/serializers.py:1128-1153 | The kind changes exactly when the party has neither a profile nor an affiliation |
| PartyDirectory.Directory.Affiliate | crm/serializers.py:672-707 | An affiliation is entered exactly when its ends have the right kinds, its roles differ and no other current one joins the pair |
| PartyDirectory.Directory.EditAffiliation | crm/serializers.py:709-745 | The same for a row that is written over |
| PartyDirectory.Directory.DropAffiliation | crm/views.py:1207-1231 | A row is deleted and the others stay in place |
| PartyDirectory.Directory.AddNote | crm/models.py:1247-1270 | A note is about a registered party |
| PartyDirectory.Directory.AddInteraction | crm/models.py:1469-1487 | An interaction is with a registered party, and its contact, if named, is an individual |
| PartyDirectory.Directory.ChangeStatus | crm/services.py:483-561 | The specified new register or error, with one history row for a real change; the invariant of register and affiliations is kept |
| PartyDirectory.Directory.SetArchived | crm/services.py:565-623 | The specified new register or error; the invariant of register and affiliations is kept |
| PartyDirectory.Directory.Delete | crm/services.py:675-731 | A party goes only for a superuser, without references and without protected rows, among them its affiliations and interactions; its notes go with it and interactions it took part in stay without it |
| PartyGraph.Reachable | crm/models.py:226-239 | In every reachable register MERGED and merged_into go together, merged parties are archived and have exactly one record, naming their target, and each status history is one unbroken chain ending at the status |
| PartyGraph.PathsLeadToTheSurvivor | crm/models.py:130-137 | Following merged_into never meets a party twice and always ends at the same live survivor |
| PartyGraph.MergeRedirects | crm/services.py:1413-1427 | A merge redirects exactly the parties that led to its source |
| PartyGraph.OthersKeepSurvivors | crm/services.py:483-731 | No other operation changes where a party leads |
| PartyGraph.MergedForever | crm/services.py:514-595 | A merged party keeps its status, its archive mark and its target over any run, and is never deleted |
| PartyGraph.TogetherForever | crm/services.py:675-731 | Parties with one survivor are never separated and never deleted |
| PartyGraph.Census | crm/models.py:1636-1646 | Live parties plus merge records make up all parties |
| PartyNetwork.Reachable | crm/models.py:702-733 | Over runs of all services and of entering, editing and dropping affiliations: no current pair twice, and every affiliation joins a registered individual to a registered organisation or trading name |
| PartyKinds.AlikeUnlessCrossed | crm/serializers.py:1128-1153 | While every merged party is of a kind compatible with that of its target, a service ends that if and only if it is an allowed change of kind between individual and other at a party that was merged or merged into |
| PartyKinds.AlikeOverRuns | crm/services.py:1275-1293 | Over any run, kinds are compatible along all merges at all times if and only if no change of kind crosses there |
| PartyKinds.AlikeToTheSurvivor | crm/models.py:130-137 | While they are, every party is of a kind compatible with that of its survivor |
| PartyKinds.CrossingIsReached | crm/serializers.py:1128-1153 | A run merges two individuals and makes an organisation of the one that is left |
| PartyNetwork.NoneToDrop | crm/services.py:1178-1181 | After any run, source and target of an accepted merge are never affiliated with each other |
| PartyNetwork.SourceForgotten | crm/services.py:1156-1244 | After an accepted merge no affiliation names the source, at either end |
| PartyNetwork.LiveUnlessEntered | crm/serializers.py:695-730 | While no affiliation names a merged party, a step ends that if and only if the check on entry lets it write a row that names one |
| PartyNetwork.MergedIsEntered | crm/models.py:702-733 | A run of five steps enters an affiliation with a party that was merged away |
| PartyNetwork.LiveOverRuns | crm/services.py:1156-1244 | Over any run, merges included, no affiliation ever names a merged party if and only if none is entered with one |
| PartyRecords.MoveKeepsFiled | crm/services.py:1393-1411 | After a merge every note, interaction and contact is registered, none is the source, and contacts that were individuals still are |
| PartyRecords.MoveKeepsSurvivors | crm/services.py:1393-1411 | Moving notes and interactions changes nobody's survivor: a record leads to the same live party before and after the move |
| PartyRecords.ForgetKeepsFiled | crm/models.py:1387-1399 | After a deletion no note, interaction or contact names the party |
| PartyRecords.FitsUnlessUnfit | crm/serializers.py:1128-1153 | While records name registered parties and contacts are individuals, a step ends that if and only if it is an allowed change of a contact's kind |
| PartyRecords.FitOverRuns | crm/models.py:1476-1487 | Over any run of services, notes and interactions, every record names registered parties and every contact is an individual at all times if and only if no step changes the kind of a contact |
| PartyRecords.ContactIsReclassified | crm/models.py:1476-1487 | A contact that was an individual becomes an organisation |
| PartyInheritance.FoldHolds | crm/services.py:735-968 | The target of a merge holds a role, active role, contact method, mark, address, provenance source or primary exactly when either party did |
| PartyInheritance.SurvivorInherits | crm/services.py:1297-1473 | After any run of services and of changes to roles, contact methods, addresses and provenance sources, a live party holds one of these exactly when it was stated, and not restated since, of some party that leads to it |
| ReportingLine.Walk | accounts/models.py:161-186 | The walk ends on every relation, answers that it meets the staff member exactly when they are reachable from the manager, and that it is clear exactly when besides the line has a top |
| ReportingLine.RefusedWouldCycle | accounts/serializers.py:719-757 | In an acyclic relation the walk refuses exactly the managers that would close a cycle |
| ReportingLine.AcceptedKeepsAcyclic | accounts/models.py:134-186 | A validated change of manager keeps the relation acyclic |
| ReportingLine.NeverCyclic | accounts/models.py:96-103 | No run of hires, changes of manager, employment changes and removals creates a cycle |
| ReportingLine.Directory.CheckManager | accounts/models.py:134-186 | The checks in order accept exactly the acceptable managers and name a cycle only where there is one |
| ReportingLine.Directory.Assign | accounts/serializers.py:698-757 | The manager changes exactly when accepted, and nothing else does |
| Leadership.OverlapIsSharedDay | accounts/models.py:372-388 | The two date filters hold exactly when the terms share a calendar day, open-ended terms included |
| Leadership.CheckIsExact | accounts/serializers.py:970-996 | The overlap check refuses exactly the writes that would give some day two primary leaders |
| Leadership.OnePrimaryLeader | accounts/models.py:304-311 | After any run every department has at most one primary leader a day and at most one open primary term, and no assignment exists twice |
| Leadership.Register.Validate | accounts/serializers.py:907-1013 | Narrowing the rows step by step decides exactly the specified error |
| DocumentNumbers.ParsePrint | procurement/document_registry.py:74-79 | A printed number reads back to code, kind, year and serial, past five digits too |
| DocumentNumbers.PrintInjective | procurement/document_registry.py:74-79 | No two numbers print alike |
| DocumentOffice.Office.SetCode | procurement/document_registry.py:32-60 | A client's code is set once, if unused, and otherwise refused without effect; serials stay gapless and nothing is renamed |
| DocumentOffice.Office.AllocateNumber | procurement/document_registry.py:63-79 | The year's sequence advances by one and gives its new value |
| DocumentOffice.Office.Prepare | procurement/document_registry.py:83-175 | Register and version are found or created, or nothing changes; serials stay gapless and nothing is renamed |
| DocumentOffice.Office.RegisterFinancial | ledger/integrations/procurement.py:20-66 | An invoice or receipt always takes a new number and its first version; serials stay gapless and nothing is renamed |
| DocumentRegistry.GaplessSerials | procurement/document_registry.py:69-73 | After any run the serials of a year, in order, are exactly 1 to the last serial |
| DocumentRegistry.NumbersUnique | procurement/document_registry.py:74-79 | No two registered documents carry the same printed number |
| DocumentRegistry.OneNumberEach | procurement/document_registry.py:146-156 | A quotation or delivery uses at most one serial |
| DocumentRegistry.PreparedOnce | procurement/document_registry.py:157-175 | Preparing the same document again, after anything and in any year, returns the first version and changes nothing |
| DocumentRegistry.NothingIsRenamed | procurement/document_registry.py:38-45 | Client codes, registers and versions never change |
| AccountBook.RunningBalance | ledger/views.py:1365-1411 | Each running balance is the one before it plus the row's debit less its credit, and the last is the closing balance |
| AccountBook.BalanceIsPrefix | ledger/views.py:1374-1398 | The window sum of a row is the net of the ordered rows up to it |
| AccountBook.OneOrder | ledger/views.py:1377-1385 | Lines can be put into the order of the book in one way only |
| AccountBook.AdjacentBooksSplice | ledger/views.py:1365-1411 | Books of adjacent periods splice: closing is next opening, rows concatenate with their balances |
| TrialBalance.GapIsEntryGaps | ledger/views.py:1008-1026 | A trial balance is out by exactly what the entries of its period are out by together |
| TrialBalance.TrialBalances | ledger/views.py:1008-1026 | When posted entries balance, so does the trial balance of every period |
| TrialBalance.FillBalances | ledger/views.py:1051-1058 | Every aggregated row gets its balance in place, signed by its class |
| TrialBalance.AccountingEquation | ledger/views.py:1039-1058 | When posted entries balance, asset and expense balances sum to those of all other accounts |

## Left out

- FulfilmentHistory.ChainInOrder: says nothing of the quotation's expiry, because that comparison can fail; `OrderExpiry` says exactly when.
- Concurrency: procurement, merging and numbering lock their request, parties or sequence, so each operation is one atomic step. The staff and leadership serializers take no lock: `ReportingLine.NeverCyclic` and `Leadership.OnePrimaryLeader` assume writes one after the other.
- Permissions, visibility, serializer field checks, audit logging, notifications and storage: boolean inputs or nothing.
- Ledger posting, approval and settlement: an invoice line is what the ledger shows of it at the call, a quotation is approved or not by an input, and entries are taken as posted.
- Editing of request items before submission, reorders, costs, finance requests and task links: they do not touch the fulfilment chain.
- Supplier offers are modelled without their revision chain and quantities; their lines do not enter any sum. A request has no version number.
- Events of requests, sourcing, quotations and sending: only the events with fulfilment quantities, and those of expiry, are in the model.
- Of the tracker, the milestones other than acceptance and rejection, the latest events and the finance panel.
- Purchased quantity is not bounded by the quoted quantity, refund reports are not bounded together, and repeated rejection and replacement need not end; nothing is claimed of them.
- PartyInheritance.SurvivorInherits: not the roles on affiliations, which belong to two parties; `PartyAffiliations` states them for one merge. A change to what a party holds restates all of it, and rows given to a party after it was merged away stay with it and count for nobody.
- Party names, profile contents other than blank or filled, and the contents of notes and interactions. Text normalisation is a parameter (`tidy`).
- Identifiers, bank accounts and documents of a party: a merge does not move them.
- Duplicate detection and its similarity score.
- Fingerprints are an abstract digest compared for equality; two actions with one digest are the same action to the wrapper.
- Leadership and reporting endpoints beyond the validated writes; an update that does not name the manager is taken with an active manager, and employee numbers are left out.
- Account code order and names in the trial balance, the monthly analytics, pagination and text formatting of amounts.
