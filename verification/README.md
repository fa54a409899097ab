# A verified model of the grid alert pipeline

When the grid resilience pipeline completes a run, the service works out the forecast horizon
and the networks to evaluate, decides which alert rules trigger, merges them per recipient list,
summarises the exposure table into a report and sends each report with its own failure handling.
This project models that pipeline, the store the rules come from, the policy that guards the
store and the choice of the caller's language, and proves what each promises and what they
promise together.

The code's own loops and stored objects are methods and classes here (`Exposure`, `Dispatch`,
`Listener`, `Recipients`, `AlertStore`, `Locale`), each proved equal to a function of its inputs
or of the old state; the lemmas are about those functions. Two loop bodies of the source are
methods of their own (`Exposure.SummariseGroup`, `Dispatch.SendReport`), the loop of a summary over
its groups is one (`Exposure.SummariseGroups`), and the dictionary of groups that two functions of
the source each fill is filled by one method, `Exposure.GroupBy`.

| file | content |
|---|---|
| Sequences.dfy, Options.dfy, Rounding.dfy | string order, stable sorting and its uniqueness, filters, sums; rounding to nearest with ties to even |
| Exposure.dfy | rows, groups, summaries, worst lines, top lines, the report body |
| ExposureOrder.dfy | the report and the order of the rows |
| ExposureSums.dfy | conservation, rounding errors, the index as a mean |
| ReportBody.dfy | what a block prints, from the fields of its own rows |
| ExposureTop.dfy | ranking, the cuts, triggering and listing |
| Recipients.dfy, RecipientsProofs.dfy, RecipientText.dfy | splitting, deduplication, parsing; white space, separators and addresses character by character |
| CanonicalKey.dfy, KeyCollisions.dfy | when the canonical key of a recipient list tells it from all others, and lists that collide |
| Calendar.dfy | dates, ISO text, the horizon |
| Tables.dfy, Dispatch.dfy, DispatchProofs.dfy | rules, triggering, merging, reports, sending |
| Listener.dfy, ListenerProofs.dfy | gating, fan-out, whole runs |
| Reports.dfy | which rules are told, to whom, and what the report says, from the tables and the rows |
| Addressing.dfy | whose addressees a report reaches, and what others cannot change about it |
| Policy.dfy | the decision input, the rules, the reasons |
| AlertStore.dfy, StoreEffects.dfy, AlertTraces.dfy | the endpoints over a shared table, what each stores, request traces |
| Locale.dfy, LanguageHeader.dfy | Accept-Language ranking; the header as it is written |
| EndToEnd.dfy | from a filed rule to the report that tells it, from a row to the line that shows it |

## Where the code and its promises part

Each of these is a property someone would expect, with the input that breaks it and the exact
condition under which it holds.

- The report does not depend on the order of the exposure rows, except for worst levels: several
  spellings that rank lowest tie, and the first row wins. The whole report is order-free exactly
  when every printed worst level is decided by its rows (`ExposureOrder.OrderFreeExactly`); known
  spellings always are (`ExposureOrder.KnownLevelsOrderFree`), two rows with two unknown ones are not
  (`ExposureOrder.TwoSpellings`, with concrete rows in `ExposureOrder.TwoSpellingsExample`).
- A rule can trigger on kilometres that no report line shows: lengths below 0.005 km at each level
  round to zero, and two of them trigger together on less than 0.01 km (`ExposureTop.FaintIsLost`,
  with 1/256 km twice in `ExposureTop.FaintExample`). A block lists a line exactly when some line's
  sum still shows after rounding (`ExposureTop.ListsLineExactly`), so a whole report may list none
  (`EndToEnd.NoLineExactly`); at least 0.01 km always shows, but for two exact ties of 0.005, which
  no binary float holds (`ExposureTop.HundredthIsListed`).
- A unit's three worst lines are cut before lines without kilometres at risk are dropped, so a calm
  line can take the place of one at risk (`ExposureTop.RiskHiddenByCalmLines`); this happens exactly
  when a calm line is among the first three and one at risk is behind them
  (`ExposureTop.WorstLinesExactly`), and on the lines' sums only to a line with nothing at ALERT and
  an index that rounds to zero (`ExposureTop.WorstLinesBySums`). The specification (REQ-0046) asks
  for the three worst lines.
- The key of a recipient list is meant to tell lists apart. Addresses may contain `|`, the joining
  character, and a piece between two `|`s can belong to either neighbour: different lists that
  parsing gives can share a key (`KeyCollisions.PipesCollideExample`). A piece is loose when its
  address is still one without it. A list that parsing gives shares its key with another one exactly
  when some of its loose pieces can move, at most one over each join, and leave another sorted list
  without repetition (`CanonicalKey.SharedByMoves`). A list without a loose piece therefore shares it
  with none (`CanonicalKey.CanonicalExactly`). Where no two neighbours' local parts end alike after
  their last `|`, one move that leaves the list sorted decides it (`CanonicalKey.SharedExactly`).
  Where they do end alike, one move is not necessary: two can be needed
  (`KeyCollisions.TiesMoveTogether`). Nor is it enough: it can give an address twice, which parsing
  never does, as in `0|a@b.c|0` beside `a@b.c` (`KeyCollisions.RepeatIsNoCollision`).
- A rule's own recipients are meant to be told (REQ-0035). Rules that share an id are told by one
  report, and it carries the list of the first of them that the database returns
  (`Addressing.FirstRuleDecides`). Every rule of a dispatch reaches its own addressees exactly when
  no two triggered rules with different addressees share an id (`Addressing.ReachedExactly`). Two
  rules whose lists collide do: whichever the database returns second has its addressees left out
  (`Addressing.CollidingRules`, with concrete rules in `Addressing.CollidingRulesExample`).
- A partial update may set the hazards of a rule to null. The answer is an error, the null is stored
  all the same, and the caller's list fails from then on (`AlertTraces.NullSticks`), exactly as long
  as some rule of theirs has a null there (`AlertTraces.ListFailsExactly`). Any other update of such
  a rule is answered with an error and stored too (`AlertTraces.UpdateFailsExactly`).
- A timestamp that cannot be read is promised to start the horizon today (REQ-0037). One that looks
  like a date and names no day, such as 2026-13-45, raises out of the handler instead
  (`Calendar.UnreadableStartsTodayExactly`, `Calendar.HorizonRaisesExactly`).

`docs/architecture.md` still says that a rule is sent on its own and that the first DSO
organisation becomes the network; the code merges rules per recipient list and refuses several
organisations, and the model follows the code. The same page names a window of the event as a
condition for dispatch; the code reads only its timestamp.

## Model

| member | source | states |
|---|---|---|
| Rounding.NearestError | src/celine/grid/services/risk_summary.py:74-76 | publishing moves a figure by at most half a unit of its last place |
| Rounding.NearestMonotone | src/celine/grid/services/risk_summary.py:68-78 | rounding keeps the order of figures |
| Rounding.NearestOdd | src/celine/grid/services/risk_summary.py:74-76 | ties go to the even neighbour, so rounding treats both signs alike |
| Rounding.Round2Positive | src/celine/grid/services/risk_summary.py:74-76 | a published length is positive exactly above 0.005 km |
| Exposure.TriggeredVectors | src/celine/grid/services/risk_summary.py:38-49 | the loop keeps exactly the watched hazards that some row hits at or above the floor, in the order watched |
| Exposure.GroupBy | src/celine/grid/services/risk_summary.py:58-60 | filling the dictionary gives each key its rows in order, keys in order of first appearance |
| Exposure.SummariseLinesWithin | src/celine/grid/services/risk_summary.py:89-102 | the loop computes the per-line summary that the unit lemmas are about |
| Exposure.SummariseGroup | src/celine/grid/services/risk_summary.py:63-84 | one group's entry; lines inside it are summarised unless the group is a line |
| Exposure.Summarise | src/celine/grid/services/risk_summary.py:56-86 | the loop computes the summary whose shape, sums and order the lemmas below give |
| Exposure.BuildBlock | src/celine/grid/services/risk_summary.py:117-154 | one block: units, lines that qualify up to the cut, totals |
| Exposure.BuildDays | src/celine/grid/services/risk_summary.py:105-156 | the nested loops give one day per date and one block per hazard, in the order asked |
| ExposureOrder.SummaryShape | src/celine/grid/services/risk_summary.py:61-86 | a summary is sorted and holds one entry per group key |
| ExposureOrder.SummaryAlike | src/celine/grid/services/risk_summary.py:56-86 | permuting the rows leaves every entry and its place, worst level aside |
| ExposureOrder.ReportIgnoresRowOrder | src/celine/grid/services/risk_summary.py:105-156 | for any permutation of the rows the report names the same units, lines, totals and figures in the same order, worst levels aside |
| ExposureOrder.WorstLevelIs | src/celine/grid/services/risk_summary.py:67 | ALERT if any row says so, else WARNING if any does, else what the first row says |
| ExposureOrder.OrderFreeExactly | src/celine/grid/services/risk_summary.py:67-156 | the whole report is the same for every order of the rows if and only if every printed worst level is decided by its rows |
| ExposureOrder.TwoSpellings | src/celine/grid/services/risk_summary.py:67 | two rows of one block with different unknown levels give another report in each order |
| ExposureOrder.TwoSpellingsExample | src/celine/grid/services/risk_summary.py:67 | two concrete rows whose order changes the report |
| ExposureOrder.KnownLevelsOrderFree | src/celine/grid/services/risk_summary.py:12-156 | rows that use the three known levels give the identical report in every order |
| ExposureSums.SumByClass | src/celine/grid/services/risk_summary.py:58-66 | summing over disjoint classes one by one is summing once over their union |
| ExposureSums.GroupsPartition | src/celine/grid/services/risk_summary.py:58-66 | for any measure of rows, units or lines or the totals add up to all rows: no row is lost and none counts twice |
| ExposureSums.EntriesCountRows | src/celine/grid/services/risk_summary.py:73 | the tratte counts of a summary, at any grain and before any filter, add up to the number of rows |
| ExposureSums.TotalsFigures | src/celine/grid/services/risk_summary.py:148-153 | the totals are the count, sums and index of the whole block, zeros and no index when it is empty |
| ExposureSums.BlockCounts | src/celine/grid/services/risk_summary.py:117-153 | a block's units count the same rows as its totals |
| ExposureSums.UnitIsItsLines | src/celine/grid/services/risk_summary.py:69-101 | the unrounded per-line sums inside a unit add up exactly to what the unit rounds and publishes |
| ExposureSums.ReportCounts | src/celine/grid/services/risk_summary.py:114-155 | with distinct dates and hazards the totals of all blocks count each row whose date and hazard are named exactly once |
| ExposureSums.PublishedSumsClose | src/celine/grid/services/risk_summary.py:74-76 | the published unit kilometres add up to within 0.005 (n + 1) of the published totals, for all three measures |
| ExposureSums.IndexNearShares | src/celine/grid/services/risk_summary.py:52-79 | the published index is within 0.125 of the ALERT share plus half the WARNING share, and all three are missing together |
| ExposureSums.MeanAbove | src/celine/grid/services/risk_summary.py:64-68 | some part of positive weight has a ratio no larger than the ratio of the sums |
| ExposureSums.TotalsIndexIsMean | src/celine/grid/services/risk_summary.py:64-68 | two units enclose the totals' published index, rounding included |
| ExposureSums.NoIndexExactly | src/celine/grid/services/risk_summary.py:68 | the block has no index if and only if no unit has one |
| ExposureSums.BlockIndexIsMean | src/celine/grid/services/risk_summary.py:64-153 | the block's index is within 0..100, between the least and the greatest unit index, and null exactly when all units' are |
| ExposureTop.SummaryRanked | src/celine/grid/services/risk_summary.py:85 | entries by falling index, missing indices last, ties by key |
| ExposureTop.LineUnits | src/celine/grid/services/risk_summary.py:81 | a line names each unit of its rows once, in string order, and no blank one |
| ExposureTop.TopLinesCut | src/celine/grid/services/risk_summary.py:134-147 | as many qualifying lines as fit are listed, and none left out has a greater index than one listed |
| ExposureTop.WorstLinesCut | src/celine/grid/services/risk_summary.py:82-101 | no line dropped by the cut at three ranks above one kept, ties by kilometres at ALERT |
| ExposureTop.CutThenFilter | src/celine/grid/services/risk_summary.py:82 | cutting before filtering agrees with filtering before cutting exactly when the cut kept only passing elements or dropped none |
| ExposureTop.WorstLinesExactly | src/celine/grid/services/risk_summary.py:82 | the worst lines are the three worst lines at risk if and only if no calm line took a place from one at risk |
| ExposureTop.WorstLinesBySums | src/celine/grid/services/risk_summary.py:82-101 | on the lines' sums: this fails if and only if a calm line of some length among the first three sorts by its key ahead of a line further down with nothing at ALERT and a rounded index of zero |
| ExposureTop.VisibleRiskIsListed | src/celine/grid/services/risk_summary.py:82-101 | when every line at risk keeps a positive rounded index, no calm line takes a place |
| ExposureTop.RiskHiddenByCalmLines | src/celine/grid/services/risk_summary.py:82-101 | four long lines, the last barely at risk: the unit shows no worst line |
| ExposureTop.ListsLineExactly | src/celine/grid/services/risk_summary.py:134-147 | a block lists a line if and only if some line's sum at or above the floor still shows in hundredths |
| ExposureTop.RowIsListed | src/celine/grid/services/risk_summary.py:30-147 | one row that shows is enough for its block to list a line |
| ExposureTop.HundredthIsListed | src/celine/grid/services/risk_summary.py:30-147 | a row with at least 0.01 km at or above the floor has its block list a line, two exact ties of 0.005 aside |
| ExposureTop.FaintIsLost | src/celine/grid/services/risk_summary.py:45-146 | when every line of a block has less than 0.005 km at each level that counts, its rows trigger and it lists nothing |
| ExposureTop.FaintRowIsLost | src/celine/grid/services/risk_summary.py:45-146 | one such row triggers on less than 0.01 km and is not listed |
| ExposureTop.FaintExample | src/celine/grid/services/risk_summary.py:45-146 | 1/256 km at ALERT and as much at WARNING trigger and list nothing |
| ExposureTop.PublishedPositive | src/celine/grid/services/risk_summary.py:146 | published kilometres above zero come from an unrounded sum above zero, whatever the signs |
| ExposureTop.ListedWasTriggered | src/celine/grid/services/risk_summary.py:134-147 | every listed line has a row of that line, date and hazard at or above the floor, so that hazard triggers |
| ReportBody.BlockPrints | src/celine/grid/services/risk_summary.py:117-154 | a block prints exactly the units of its rows and lines of its rows that count at the floor, none twice, each with the sums, shares, index, level, units and worst lines of its own rows, and the totals of all rows |
| ReportBody.BlockRanks | src/celine/grid/services/risk_summary.py:85-147 | units and lines by falling index, ties by name; a line that counts is left out only when the list is full of lines with no smaller index |
| ReportBody.DaysPrint | src/celine/grid/services/risk_summary.py:113-155 | each date has one block per hazard, printed from the rows of that date and hazard |
| ReportBody.LineSumsOf | src/celine/grid/services/risk_summary.py:92-100 | a line inside a unit has the unrounded sums and the index of the unit's rows of that line |
| ReportBody.EveryLineRanked | src/celine/grid/services/risk_summary.py:92-101 | every line of a unit's rows is ranked |
| ReportBody.TriggersExactly | src/celine/grid/services/risk_summary.py:26-49 | a hazard triggers if and only if it is watched and a row of it has kilometres at ALERT, or at WARNING when that is the floor |
| Recipients.DedupeEmails | src/celine/grid/services/notification_recipients.py:11-23 | the loop with its set of keys seen computes the deduplication the lemmas are about |
| Recipients.ParseRecipients | src/celine/grid/services/notification_recipients.py:26-30 | nothing for no text, else the deduplicated pieces |
| RecipientsProofs.DedupeClean | src/celine/grid/services/notification_recipients.py:11-23 | addresses only, no two equal up to case, and every address among the values is covered |
| RecipientsProofs.DedupeAppend | src/celine/grid/services/notification_recipients.py:14-22 | more values append the addresses not yet present, in order and in first spelling |
| RecipientsProofs.ParseAppend | src/celine/grid/services/notification_recipients.py:26-30 | parsing two texts joined by any separator is the first's addresses followed by the second's new ones |
| RecipientsProofs.ParseParsed | src/celine/grid/services/notification_recipients.py:26-30 | a parsed list is clean and holds no separator |
| RecipientsProofs.ParseRoundTrip | src/celine/grid/services/notification_recipients.py:26-30 | writing a parsed list with commas and parsing it again gives it back unchanged |
| RecipientText.StripIs | src/celine/grid/services/notification_recipients.py:15 | stripping takes white space off both ends and nothing else |
| RecipientText.WhiteSpaceIs | src/celine/grid/services/notification_recipients.py:8-29 | white space is these twenty-nine characters |
| RecipientText.AddressesAre | src/celine/grid/services/notification_recipients.py:8 | an address is a local part, an at sign and a domain with a dot inside, without white space or another at sign |
| RecipientText.EachSeparates | src/celine/grid/services/notification_recipients.py:29 | a comma, a semicolon, a blank, a tab and a line break each separate |
| RecipientText.SolidParses | src/celine/grid/services/notification_recipients.py:29-30 | an address without a comma, a semicolon and white space parses as itself |
| RecipientText.RunsParse | src/celine/grid/services/notification_recipients.py:11-30 | addresses distinct up to case, with any runs of those characters between them, parse as that list |
| RecipientText.LowerIs | src/celine/grid/services/notification_recipients.py:18 | only the case of ASCII letters is ignored |
| CanonicalKey.SpellingDoesNotMatter | src/celine/grid/services/notification_recipients.py:33-37 | re-ordering or re-casing a list never changes its key |
| CanonicalKey.JoinCounts | src/celine/grid/services/notification_recipients.py:34-36 | the joined text shows how many addresses it holds, and whether any of them contains the joining character |
| CanonicalKey.CanonicalExactly | src/celine/grid/services/notification_recipients.py:33-37 | two lists, one of them without a loose piece, have the same key if and only if they hold the same addresses up to order and case |
| CanonicalKey.NothingLoose | src/celine/grid/services/notification_recipients.py:8-36 | a list of one address, and a list free of the joining character, has no loose piece |
| CanonicalKey.MoveCollides | src/celine/grid/services/notification_recipients.py:8-37 | in a list of any length, a loose piece whose move leaves the list sorted gives other addresses with the same key, and a list that parsing gives when none repeats |
| CanonicalKey.SharedByMoves | src/celine/grid/services/notification_recipients.py:8-37 | a parsed list shares its key with another parsed list of other addressees if and only if moves of its loose pieces, at most one over each join, leave another sorted list without repetition |
| CanonicalKey.SharedExactly | src/celine/grid/services/notification_recipients.py:8-37 | when the neighbours' local parts end differently, if and only if one loose piece can move and leave it sorted |
| KeyCollisions.TiesMoveTogether | src/celine/grid/services/notification_recipients.py:8-37 | neighbours with one local part: no single piece can move, two together give another parsed list with the same key |
| KeyCollisions.RepeatIsNoCollision | src/celine/grid/services/notification_recipients.py:8-37 | a parsed list whose one sorted move repeats an address, and which shares its key with no other parsed list |
| KeyCollisions.PipesCollide | src/celine/grid/services/notification_recipients.py:8-37 | two different lists, both as parsing gives them, with one key |
| KeyCollisions.PipesCollideExample | src/celine/grid/services/notification_recipients.py:8-37 | two concrete parsed lists that collide |
| Calendar.IsoRoundTrip | src/celine/grid/services/pipeline_listener.py:102-115 | a date written as text reads back as itself |
| Calendar.IsoInverse | src/celine/grid/services/pipeline_listener.py:114-115 | a text reads as a date if and only if it is that date written out |
| Calendar.IsoExample | src/celine/grid/services/pipeline_listener.py:114-115 | 3 February 2026 is written 2026-02-03; 29 February is a day of leap years only |
| Calendar.DatePatternIs | src/celine/grid/services/pipeline_listener.py:34 | the date pattern is four digits, two digits and two digits with hyphens between them |
| Calendar.NextDayIsNext | src/celine/grid/services/pipeline_listener.py:115 | the next date is the next day number, over months, leap years and turns of the year |
| Calendar.DaysCount | src/celine/grid/services/pipeline_listener.py:115 | the i-th date of a horizon is i days after its first |
| Calendar.HorizonDistinct | src/celine/grid/services/pipeline_listener.py:107-115 | the horizon is never empty, starts on the day read, and names consecutive days, each once |
| Calendar.HorizonStarts | src/celine/grid/services/pipeline_listener.py:83-115 | the horizon starts on the day the timestamp names, read as a date, else as a full timestamp with a final Z as UTC, else today; it has as many days as configured, at least one |
| Calendar.FullTimestampStarts | src/celine/grid/services/pipeline_listener.py:83-104 | a full timestamp starts the horizon on the day its reader finds, whatever today is |
| Calendar.HorizonRaisesExactly | src/celine/grid/services/pipeline_listener.py:96-115 | the horizon raises if and only if the timestamp looks like a date and names no day, or the calendar ends |
| Calendar.UnreadableStartsTodayExactly | src/celine/grid/services/pipeline_listener.py:107-114 | an unreadable timestamp starts the horizon today if and only if it does not look like a date |
| Calendar.ThirteenthMonth | src/celine/grid/services/pipeline_listener.py:97-114 | 2026-13-45 raises |
| Dispatch.RuleEmailRecipients | src/celine/grid/services/alert_dispatcher.py:42-52 | the rule's own list, else its operator's settings |
| Dispatch.AddHit | src/celine/grid/services/alert_dispatcher.py:60-69 | one step of the merge: the group of the hit's list is opened if new, then takes its hazards, floor and rule |
| Dispatch.MergeByRecipients | src/celine/grid/services/alert_dispatcher.py:55-70 | the loop over hits yields one group per distinct list, in order of first appearance |
| Dispatch.BuildReportPayload | src/celine/grid/services/alert_dispatcher.py:73-96 | the payload of a group, its days built at the group's floor with the cut at fifteen lines |
| Dispatch.Nudging.IngestEvent | src/celine/grid/services/alert_dispatcher.py:166 | every send is logged as attempted, and fails where the oracle says so |
| Dispatch.EvaluateRules | src/celine/grid/services/alert_dispatcher.py:151-157 | the loop collects the rules that trigger, with their hazards and recipients |
| Dispatch.SendReport | src/celine/grid/services/alert_dispatcher.py:163-176 | one report is attempted and its failure caught |
| Dispatch.SendReports | src/celine/grid/services/alert_dispatcher.py:162-178 | for every pattern of failures each group is attempted once, in order, and the count is the successes |
| Dispatch.DispatchGridAlerts | src/celine/grid/services/alert_dispatcher.py:99-178 | what one dispatch adds to the log, including nothing for no dates, no name, no rules, a failed fetch or no rows; the count is the successes |
| DispatchProofs.GroupSaysWhatMembersAsk | src/celine/grid/services/alert_dispatcher.py:60-69 | a group holds its members' rules, the union of their triggered hazards and the lowest of their floors |
| DispatchProofs.MergePartitions | src/celine/grid/services/alert_dispatcher.py:55-70 | for any measure of rules the groups add up to the triggered rules |
| DispatchProofs.MergedIds | src/celine/grid/services/alert_dispatcher.py:59-70 | no two groups have one user id |
| DispatchProofs.RuleInOneGroup | src/celine/grid/services/alert_dispatcher.py:55-70 | each triggered rule is in the group of its own addressees and in no other |
| DispatchProofs.IdsAreHonest | src/celine/grid/services/alert_dispatcher.py:61 | two hits share an id only when addressed alike, given no digest collision, no list with a loose piece and no operator id that looks synthetic |
| DispatchProofs.NetworkIdsHonest | src/celine/grid/services/alert_dispatcher.py:42-61 | the same for the hits of a network, whose lists are parsed |
| DispatchProofs.MergeIgnoresOrder | src/celine/grid/services/alert_dispatcher.py:55-70 | permuted hits merge into the same ids, hazards, floors and rules, with recipients equal up to order and case |
| DispatchProofs.AttemptsCover | src/celine/grid/services/alert_dispatcher.py:121-178 | for any measure of rules the attempts of a dispatch add up to its active triggered rules |
| DispatchProofs.AttemptsDistinct | src/celine/grid/services/alert_dispatcher.py:162-163 | a dispatch addresses no user id twice |
| DispatchProofs.AttemptedRules | src/celine/grid/services/alert_dispatcher.py:114-130 | every rule behind an attempt is active, of the dispatched network, which has a name, and triggered |
| DispatchProofs.AttemptsIgnoreRuleOrder | src/celine/grid/services/alert_dispatcher.py:121-163 | however the database orders the rules each user id gets the same report, up to order and spelling of its addresses |
| DispatchProofs.ReportSays | src/celine/grid/services/alert_dispatcher.py:73-96 | the report names exactly the hazards triggered for the group, sorted, covers the horizon with one block for each and carries the group's list and floor |
| Reports.OwnListWins | src/celine/grid/services/alert_dispatcher.py:42-45 | a rule's own addresses are its list, whatever its operator's settings say |
| Reports.FallsBack | src/celine/grid/services/alert_dispatcher.py:47-52 | a rule without addresses of its own has those of its operator's settings |
| Reports.NoList | src/celine/grid/services/alert_dispatcher.py:42-52 | without those either it has none |
| Reports.LoneRuleIsTold | src/celine/grid/services/alert_dispatcher.py:42-93 | carried through a dispatch: the report goes to the operator's addresses, or under the operator's id without any |
| Reports.ToldExactly | src/celine/grid/services/alert_dispatcher.py:114-157 | a dispatch tells a rule if and only if it is active and of the named network, there is a date, the fetch succeeds and a row hits one of its hazards at its floor |
| Reports.ReportFields | src/celine/grid/services/alert_dispatcher.py:73-93 | a report's hazards are those its rules watch and a row hits, its floor the lowest of theirs, its period the first date, its network and address the given ones |
| Reports.ReportPrints | src/celine/grid/services/alert_dispatcher.py:94 | the body is, per date and hazard, the block of those rows at the report's floor, with at most fifteen lines |
| Reports.CountIsSuccesses | src/celine/grid/services/alert_dispatcher.py:161-178 | the count returned is the number of sends that did not fail |
| Addressing.UnderItsUserId | src/celine/grid/services/alert_dispatcher.py:60-93 | the report behind a rule goes out under the id of the rule's own addressees |
| Addressing.FirstRuleDecides | src/celine/grid/services/alert_dispatcher.py:61-69 | a report carries the list of the first of its rules that the database returned |
| Addressing.ReachedExactly | src/celine/grid/services/alert_dispatcher.py:42-93 | in a dispatch every report reaches the own addressees of all its rules if and only if no two triggered rules with different addressees share an id |
| Addressing.CollidingRules | src/celine/grid/services/alert_dispatcher.py:55-70 | of two rules whose different lists share a key only the first is told, and the database's order decides which |
| Addressing.CollidingRulesExample | src/celine/grid/services/alert_dispatcher.py:55-70 | two concrete rules with lists that parse: the second one's addressees are left out, in either order |
| Addressing.ReportsIsolated | src/celine/grid/services/alert_dispatcher.py:55-178 | an id asked for by the same rules with the same lists is sent the very same reports by a run, whatever other rules are filed |
| Listener.PipelineListener.constructor | src/celine/grid/services/pipeline_listener.py:31-33 | no broker and no client exists before the broker is created |
| Listener.PipelineListener.CreateBroker | src/celine/grid/services/pipeline_listener.py:48-81 | a new broker for the configured host is stored and returned; the nudging client always exists afterwards, the Digital Twin client only with a configured address or from before |
| Listener.PipelineListener.OnPipelineRun | src/celine/grid/services/pipeline_listener.py:132-180 | only a completed run of the flow, while enabled and with clients, attempts anything, and then exactly its run's reports; only an unreadable horizon raises |
| Listener.DispatchOver | src/celine/grid/services/pipeline_listener.py:169-176 | the networks are dispatched one after another, in order |
| ListenerProofs.NetworksShape | src/celine/grid/services/pipeline_listener.py:123-129 | the evaluated networks are the named ones with an active rule, sorted, each once |
| ListenerProofs.EvaluatedNetworks | src/celine/grid/services/pipeline_listener.py:118-167 | under a pipeline namespace the named networks with an active rule, elsewhere the namespace itself |
| ListenerProofs.PipelineNamespaceIs | src/celine/grid/services/pipeline_listener.py:118-120 | a namespace counts if it is the configured one or ends in it after a dot |
| ListenerProofs.CountsExactly | src/celine/grid/services/pipeline_listener.py:132-152 | a message counts if and only if it parses as a completed run of the configured flow with alerts enabled |
| ListenerProofs.RunCovers | src/celine/grid/services/pipeline_listener.py:163-176 | for every rule table, rows and failures, and any measure of rules, the run's attempts add up to exactly the rules to tell |
| ListenerProofs.OnlyRulesToTell | src/celine/grid/services/pipeline_listener.py:123-176 | no inactive rule and no rule without a network is behind any attempt, and an attempt holds rules of its own network only |
| ListenerProofs.RunDistinct | src/celine/grid/services/pipeline_listener.py:163-176 | a run addresses no user id twice about one network |
| ListenerProofs.FanOutRefines | src/celine/grid/services/pipeline_listener.py:118-176 | a run under the pipeline's namespace attempts what one single-network run per network would, in sorted order, if no network is named like such a namespace |
| ListenerProofs.InactiveRulesChangeNothing | src/celine/grid/services/pipeline_listener.py:123-129 | rules that are not active, whatever networks they name, change no run |
| ListenerProofs.FetchFailureIsolated | src/celine/grid/services/pipeline_listener.py:169-176 | whatever the fetch for one network does, the attempts for all others stay as they are |
| ListenerProofs.RunIgnoresRuleOrder | src/celine/grid/services/pipeline_listener.py:123-176 | the order of the rule table changes no report of a run, up to order and spelling of addresses |
| Policy.NetworksAre | src/celine/grid/security/policy.py:35-41 | the caller's networks are the aliases of their DSO organisations, by type or by attribute |
| Policy.ReadExactly | policies/grid.rego:29-44 | a caller not judged a service reads a network if and only if it is one of their DSO organisations, whatever scopes they hold |
| Policy.WriteExactly | src/celine/grid/api/deps.py:85-104 | writing is allowed if and only if the network resolves, and it resolves exactly to the caller's one DSO organisation |
| Policy.ServiceExactly | policies/grid.rego:46-75 | a service reads on a grid scope and does anything else only as grid.admin |
| Policy.DecisionExactly | src/celine/grid/security/policy.py:64-173 | who is allowed what: without a working engine only development; a service by its scopes; everyone else reads their own DSO networks, lists rules, and files them with one DSO organisation |
| Policy.RefusalExactly | policies/grid.rego:95-125 | the reason given for each refusal |
| Policy.DsoIs | src/celine/grid/security/policy.py:37-41 | an organisation is a DSO by its type or by its attribute |
| Policy.ReasonsAgree | policies/grid.rego:77-125 | no input makes two different reasons fire |
| Policy.ReasonMatchesDecision | policies/grid.rego:10-125 | a granting reason is given if and only if the request is allowed |
| Policy.OrganisationOrderIrrelevant | src/celine/grid/security/policy.py:35-111 | the order of the organisations in the token reaches no decision |
| AlertStore.Store.ListAlertRules | src/celine/grid/api/alerts.py:24-29 | the caller's rules, oldest first, or an error when one of them cannot be answered; changes nothing |
| AlertStore.Store.CreateAlertRule | src/celine/grid/api/alerts.py:32-43 | guards, resolves the network from the token, stamps owner and network, and adds the rule |
| AlertStore.Store.UpdateAlertRule | src/celine/grid/api/alerts.py:46-60 | finds by id and owner, applies the fields set, fails as a whole on a null for a column that takes none, and answers with an error after storing a null for the hazards |
| AlertStore.Store.DeleteAlertRule | src/celine/grid/api/alerts.py:63-72 | finds by id and owner and removes that row |
| AlertStore.Store.GetNotificationSettings | src/celine/grid/api/alerts.py:79-90 | answers the caller's settings, created empty if there are none |
| AlertStore.Store.UpdateNotificationSettings | src/celine/grid/api/alerts.py:93-108 | merges the fields set into the caller's settings, created if there are none |
| StoreEffects.MembersAllowed | src/celine/grid/api/alerts.py:24-108 | a member lists rules and asks for settings freely, and does the rest if and only if they have one DSO organisation; a refusal changes nothing |
| StoreEffects.NothingWithoutEngine | src/celine/grid/api/alerts.py:24-108 | without a working engine everything is refused outside development |
| StoreEffects.CreateStores | src/celine/grid/api/alerts.py:33-43 | a creation adds one rule with the body's fields, the caller, their network and the moment of the call |
| StoreEffects.UpdateStores | src/celine/grid/api/alerts.py:46-60 | an update writes the fields the body sets into that one rule and leaves every other rule, their order and the settings alone |
| StoreEffects.DeleteKeepsOthers | src/celine/grid/api/alerts.py:63-72 | a deletion takes that one rule away and keeps all others, in order, and the settings |
| StoreEffects.ListChangesNothing | src/celine/grid/api/alerts.py:24-29 | listing changes nothing |
| StoreEffects.GetSettingsStores | src/celine/grid/api/alerts.py:79-90 | asking answers the caller's row, created empty if there is none, and touches nobody else's |
| StoreEffects.PutSettingsStores | src/celine/grid/api/alerts.py:93-108 | storing writes the fields the body sets into the caller's row and touches nobody else's |
| AlertTraces.OtherStep | src/celine/grid/api/alerts.py:24-108 | no other user's request changes a user's rows |
| AlertTraces.OwnStep | src/celine/grid/api/alerts.py:24-108 | a request answers and acts by its caller's rows alone, but for a creation's look at whether its id is taken |
| AlertTraces.Noninterference | src/celine/grid/api/alerts.py:24-108 | for every interleaving of requests with fresh ids, each user gets the answers and rows they would get alone |
| AlertTraces.RunKeyed | src/celine/grid/db/models.py:18 | over every trace no two rules share an id |
| AlertTraces.ListIsOwnRules | src/celine/grid/api/alerts.py:25-29 | a list is all of the caller's rules and no other, oldest first |
| AlertTraces.ListFailsExactly | src/celine/grid/api/alerts.py:24-29 | a list fails if and only if a rule of the caller has null stored for its hazards |
| AlertTraces.UpdateFailsExactly | src/celine/grid/api/alerts.py:46-60 | an allowed update of a present rule fails if and only if it sets null where none is taken, and then changes nothing, or leaves null hazards, and then it is stored |
| AlertTraces.NullSticks | src/celine/grid/api/alerts.py:24-60 | an update that leaves the hazards null makes the caller's next list fail |
| AlertTraces.NotFoundExactly | src/celine/grid/api/alerts.py:46-70 | update and delete answer not found if and only if the caller has no such rule, and then change nothing |
| AlertTraces.DeletedIsGone | src/celine/grid/api/alerts.py:63-72 | after a deletion nobody finds that id again |
| AlertTraces.PatchesCompose | src/celine/grid/api/alerts.py:56-57 | two partial updates are the one that combines them, and none touches id, owner, network or creation time |
| AlertTraces.SettingsOnceAsked | src/celine/grid/api/alerts.py:79-90 | asking for settings again answers the same and changes nothing |
| AlertTraces.Provenance | src/celine/grid/api/alerts.py:33-60 | over every trace a rule keeps owner and network, and was filed by its owner, whose one DSO organisation that network is |
| Locale.RankParts | src/celine/grid/api/user.py:39-52 | the loop keeps the named entries of positive quality with their positions |
| Locale.FromAcceptLanguage | src/celine/grid/api/user.py:28-58 | the loop over the sorted entries returns the first that is a word |
| Locale.ResolveLocale | src/celine/grid/api/user.py:61-78 | answers as the function that LocaleIs is about |
| Locale.SplitOnJoin | src/celine/grid/api/user.py:40 | splitting the header loses nothing and leaves no separator in a piece |
| Locale.HeaderPicksBest | src/celine/grid/api/user.py:28-58 | the language returned is that of the candidate with the highest quality, the earliest among equals, and there is none if and only if there is no candidate |
| Locale.BestIsUnique | src/celine/grid/api/user.py:54 | only one candidate can win, so a single scan would find the same |
| Locale.PrimaryIs | src/celine/grid/api/user.py:15-25 | a tag's primary subtag is the word it starts with, up to its end or a hyphen, in lower case; there is one if and only if it starts so |
| Locale.LocaleIs | src/celine/grid/api/user.py:61-78 | the language is a lower-case word: the claim's if it names one, else the header's best candidate; none if and only if neither names one |
| LanguageHeader.PartMeans | src/celine/grid/api/user.py:40-52 | a tag alone counts as 1, one with a quality as that quality, a malformed quality as 1; a wildcard, a blank part and a quality not above zero count as nothing |
| LanguageHeader.WinnerIsChosen | src/celine/grid/api/user.py:28-58 | in a header of words and qualities the word of the highest quality wins, the first among equals |
| LanguageHeader.NothingIsChosen | src/celine/grid/api/user.py:49-58 | no positive quality, no language |
| LanguageHeader.ItalianFirst | src/celine/grid/api/user.py:28-58 | `en;q=0.5,it` gives `it` |
| EndToEnd.ToldExactlyOnce | src/celine/grid/services/alert_dispatcher.py:121-178 | in every run each rule to tell is behind exactly one attempted report, about its network, under its own id, and to its own list when the network's ids are honest |
| EndToEnd.ToldRulesWereFiled | src/celine/grid/services/alert_dispatcher.py:121-126 | every rule behind a report about a network was filed by a request of its operator, whose one DSO organisation was that network |
| EndToEnd.ReportsNoninterference | src/celine/grid/services/alert_dispatcher.py:121-178 | after any interleaving of requests with fresh ids, an addressee that one user alone has active rules for is sent the very same reports as if only that user had made requests |
| EndToEnd.TriggerIsListed | src/celine/grid/services/alert_dispatcher.py:151-164 | a rule that triggers on a row of the horizon by kilometres that show has a block for that date and hazard with a line listed |
| EndToEnd.ToldAndListed | src/celine/grid/services/alert_dispatcher.py:121-178 | a rule to tell with a row that shows is told by exactly one report of the run, addressed as above, and that report lists a line for the row's date and hazard |
| EndToEnd.NoLineExactly | src/celine/grid/services/alert_dispatcher.py:73-96 | a report lists no line at all if and only if no line of the horizon and the group's hazards has kilometres at the group's floor that show |
| EndToEnd.ListedWasCounted | src/celine/grid/services/alert_dispatcher.py:73-96 | every line of a report comes from a fetched row of that line, date and hazard at or above the report's floor, and the hazard triggered for a rule of the group |
| EndToEnd.AttemptsIgnoreRowOrder | src/celine/grid/services/alert_dispatcher.py:135-164 | rows with known levels may arrive in any order: the same reports are attempted |

## Left out

- Floating point: kilometres are exact reals and rounding is to nearest with ties to even; binary representation error, infinities and NaN in the table are not modelled.
- Field values of other types: a kilometre field is a number or counts as zero, a text field is a text or is absent.
- Letters outside ASCII: lower-casing and the alphabetic test treat only ASCII letters as letters, and dates only ASCII digits as digits; white space is the full Unicode set.
- SHA-256 and the cut of its digest: any function of the canonical text; claims that need distinct ids assume no collision.
- Library readers of numbers and of full timestamps: parameters, with the malformed cases kept.
- The clock, fresh ids, the current day and the failure of a fetch or a send: inputs; `generated_at` and log lines are not modelled.
- The database: a rule table and a settings table; listing breaks ties of creation time by table order, and dispatch is proved for every order. Migrations and the column `network_id_unset` are not modelled.
- Failed commits: only a taken id and a null for a column that takes none; other database errors are not modelled.
- The response models: only the null they refuse for the hazards of a rule is modelled.
- Request validation, routing, token decoding, the Digital Twin proxy routes and the MQTT connection: plumbing; organisations, scopes and the service-account flag are inputs.
- Organisation groups in the policy input: no rule reads them.
- ExposureSums.BlockIndexIsMean: requires kilometres that are not negative and no row with more at risk than it has; the index is no percentage otherwise.
- EndToEnd.TriggerIsListed: requires the row's kilometres to still show in hundredths, because the code filters lines on rounded figures and triggers on unrounded ones.
