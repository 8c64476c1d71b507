# Weekly venue scheduling by a genetic algorithm — a Dafny model

This project models the core of a campus event scheduler, `genetic_algo_optimization.py`.
For one week in Philippine time (PHT, fixed UTC+8), the scheduler:

- compiles the academic calendar into the week's constraints:
  - general unavailable slots: holiday, break and exam days, the week before each exam period, Sundays and the nightly 22:00–06:00 curfew;
  - a hectic-week flag;
  - a table of venue-type blockages;
- searches with a genetic algorithm for an assignment of venues and times to the pending events;
- re-scores the best assignment and proposes a schedule only when that score counts no hard-constraint violation (with the violation counting of lines 519-538 corrected; see "## Findings");
- explains, for every event it leaves unscheduled, which constraints got in the way (the post-mortem).

The model is split into these modules:

- `Clock`: instants are integer UTC minutes. PHT dates are day numbers, and `check_overlap` is defined on them.
- `Text`: lower-casing, substring tests, and the category of a reason (the text before its first `:`).
- `DateParsing`: `parse_date_string` over date texts that have already been split into tokens.
- `WeekConstraints`: `process_weekly_constraints`.
- `Inputs`: the records the optimiser reads and their lookups.
- `Genome`: a chromosome, a dictionary from event id to an optional slot, modelled as an association list.
- `Fitness`: `calculate_fitness`.
- `SlotCheck`: `_check_slot_constraints_for_reason` and `_run_post_mortem_analysis`.
- `Random`: the random generator, as an oracle of values read by position.
- `Operators`: `initialize_population`, `selection`, `crossover` and `mutate`.
- `Optimizer`: the generation loop and the final schedule of `optimize_weekly_schedule`.

Code that loops over changing state is modelled as methods with loop invariants. Some methods are proved equal to a function that states what they compute (for example `SlotCheck.CheckSlot` equals `SlotReason`, `Fitness.BuildActive` equals `ActiveMap`, and `SlotCheck.PostMortem` equals `PostMortemOf`), and lemmas prove what the source promises about those functions. The others are specified directly by the properties their results have. These are the week's constraints (`WeekConstraints.CompileWeek`), the random draws, the genetic operators, the generation loop and the final schedule. Their contracts state the slots they block or may draw, the order they keep, the invariant `Operators.Sound` they preserve, the run history they record and the entries they give.

Operators and chromosomes have one invariant in common, `Operators.Sound`. It says that every assigned gene belongs to a pending event, at a known venue, starting on a usable date of the week (in the week, not a Sunday) outside the curfew. Initialisation establishes it, and crossover and mutation preserve it. So do the elitist generation step and therefore the whole run. Every entry of a proposed schedule satisfies it as a result.

## Model

| member | source | states |
|---|---|---|
| Clock.LocalRoundTrip | genetic_algo_optimization.py:149-150 | a PHT date and time of day, converted to UTC and back, give the same date and time |
| Clock.LocalSplit | genetic_algo_optimization.py:336 | every UTC instant is the UTC form of its own PHT date and time of day, and that time lies within one day |
| Clock.WeekdayNext | genetic_algo_optimization.py:176-181 | the next date's weekday is one later, modulo 7; seven days on is the same weekday |
| Clock.OverlapSymmetric | genetic_algo_optimization.py:320-321 | `check_overlap` does not depend on which interval comes first |
| Clock.OverlapSelf | genetic_algo_optimization.py:320-321 | an interval overlaps itself exactly when it is non-empty |
| Clock.AdjacentDisjoint | genetic_algo_optimization.py:320-321 | an interval ending where another begins does not overlap it |
| Clock.OverlapWitness | genetic_algo_optimization.py:320-321 | two non-empty intervals overlap exactly when some instant lies in both |
| Clock.YearLength | genetic_algo_optimization.py:63-68 | consecutive years are 366 days apart after a leap year and 365 otherwise |
| Clock.MonthsFillYear | genetic_algo_optimization.py:52-54 | the month lengths of a year add up to the length of that year |
| Clock.DaysInMonth | genetic_algo_optimization.py:52 | every month has 28 to 31 days |
| Text.Lower | genetic_algo_optimization.py:352 | lower-casing keeps the length, leaves no ASCII capital, moves each capital to its small letter and keeps every other character in place |
| Text.LowerIdempotent | genetic_algo_optimization.py:352 | lower-casing twice is lower-casing once |
| Text.Category | genetic_algo_optimization.py:468 | a reason's category is the text before its first `:`, or the whole reason when it has none |
| Text.CategoryOfLabelled | genetic_algo_optimization.py:468 | a reason `P:details` with a colon-free `P` falls under category `P` |
| DateParsing.ParseDateString | genetic_algo_optimization.py:32-114 | the result is strictly increasing and holds exactly the dates the text denotes, unparsable fragments contributing nothing |
| DateParsing.SortedUnique | genetic_algo_optimization.py:114 | `sorted(set(...))`: strictly increasing, with the same dates as the input |
| DateParsing.Insert | genetic_algo_optimization.py:114 | inserting into an increasing list keeps it increasing and adds exactly the new date |
| DateParsing.AppendDate | genetic_algo_optimization.py:41-44 | a single "Mon D" token adds its date when that date exists, and nothing otherwise |
| DateParsing.AppendSpan | genetic_algo_optimization.py:65-68 | a cross-month range adds exactly the days from its start to its end |
| DateParsing.AppendMonthRun | genetic_algo_optimization.py:51-54 | a same-month range adds exactly the days from its start while still in that month and not past the last day |
| DateParsing.SameMonthRangeDays | genetic_algo_optimization.py:45-54 | "Mon D - L" gives consecutive days from D up to the earlier of L and the month's end, and nothing when that end precedes D |
| DateParsing.SingleDayYear | genetic_algo_optimization.py:37-44 | "Mon D" gives that day in the second calendar year for months before July and in the first otherwise, or nothing when the day does not exist |
| DateParsing.IncreasingBounds | genetic_algo_optimization.py:138 | `min` and `max` of a parsed list are its first and last dates |
| DateParsing.Consecutive | genetic_algo_optimization.py:66-68 | a list denoting a span of days is exactly the consecutive days of that span |
| WeekConstraints.CompileWeek | genetic_algo_optimization.py:117-218 | the general slots are sorted by start and each is called for by the calendar. At a holiday's midnight the blocks are the entries' full-day blocks for that date, in the order of the entries, so the first entry's reason comes first. Every holiday, break and exam day of the week is blocked. Each pre-exam day, each unblocked Sunday and each night's curfew is blocked exactly once. The hectic flag is set exactly when some hectic period touches the week. The blockage table is empty on hectic weeks and the configured one otherwise |
| WeekConstraints.GeneralSlots | genetic_algo_optimization.py:142-215 | the same properties of the general slots, before they are packaged, including the order of the full-day blocks at each holiday's midnight |
| WeekConstraints.EntryOrderKept | genetic_algo_optimization.py:142-215 | after the stable sort, the blocks starting at a holiday's midnight are the entries' full-day blocks for that date, in entry order |
| WeekConstraints.OnlyEntriesAtMidnight | genetic_algo_optimization.py:163-199 | no pre-exam, Sunday or curfew block starts at the midnight of a holiday |
| WeekConstraints.MidnightsDiffer | genetic_algo_optimization.py:149 | different dates have different midnights |
| WeekConstraints.CurfewNotMidnight | genetic_algo_optimization.py:190-195 | no curfew starts at a midnight |
| WeekConstraints.HecticWeek | genetic_algo_optimization.py:134-140 | hectic exactly when the span from first to last date of some period overlaps the week |
| WeekConstraints.HolidayBlocks | genetic_algo_optimization.py:142-156 | the blocks are exactly the full-day blocks of the week's dates in the holiday, break and exam entries, with each entry's reason; the blocked dates are those dates. The blocks of one date come in the order of the categories and of the entries within each |
| WeekConstraints.EntryBlocks | genetic_algo_optimization.py:145-155 | one entry adds exactly a full-day block, with its reason, for each week date it denotes; the blocks of one date number one when the entry denotes it and none otherwise |
| WeekConstraints.ExamStarts | genetic_algo_optimization.py:158-161 | the first date of every exam period that has dates |
| WeekConstraints.PreExamBlocks | genetic_algo_optimization.py:163-176 | in increasing order of exam start, each week date in the seven days before an exam start is blocked once, unless it was already blocked, and is then counted as blocked |
| WeekConstraints.BlockWeekBefore | genetic_algo_optimization.py:164-176 | one exam start adds exactly the not-yet-blocked week dates of the seven days before it, each once |
| WeekConstraints.PreExamStep | genetic_algo_optimization.py:163-176 | processing one more, later exam start adds exactly that start's new dates and blocks to those of the earlier starts |
| WeekConstraints.DayBlocks | genetic_algo_optimization.py:178-199 | one curfew per night of the week, one Sunday block per Sunday not yet blocked, and nothing else |
| WeekConstraints.Usable | genetic_algo_optimization.py:206-211 | exactly the configured ranges that have both a start and an end time are kept |
| WeekConstraints.ParseRanges | genetic_algo_optimization.py:204-211 | the ranges of one venue type, as `Usable` states |
| WeekConstraints.BlockageTable | genetic_algo_optimization.py:202-212 | a venue type is in the table exactly when its value is a list with at least one usable range |
| WeekConstraints.BuildBlockageTable | genetic_algo_optimization.py:202-212 | the table built is `BlockageTable` of the configuration |
| WeekConstraints.SortByStart | genetic_algo_optimization.py:215 | the slots sorted by start: a sorted permutation, and stable (the slots with one start keep their input order) |
| WeekConstraints.InsertByStart | genetic_algo_optimization.py:215 | inserting keeps the order and adds exactly the slot |
| WeekConstraints.WithStart | genetic_algo_optimization.py:215 | the slots with a given start, in order |
| WeekConstraints.WithStartConcat | genetic_algo_optimization.py:215 | the slots with one start in a concatenation are those of each part, in turn |
| WeekConstraints.WithStartAppend | genetic_algo_optimization.py:215 | appending a slot appends it to the slots with its start only |
| WeekConstraints.InsertStable | genetic_algo_optimization.py:215 | an inserted slot goes after every slot with the same start, and the others keep their order |
| WeekConstraints.InsertStableAt | genetic_algo_optimization.py:215 | the same, for one start |
| WeekConstraints.InsertFront | genetic_algo_optimization.py:215 | a slot starting before all others goes in front and is the last of its start |
| WeekConstraints.InsertBehind | genetic_algo_optimization.py:215 | inserting behind the first slot keeps that slot ahead of the others with its start |
| WeekConstraints.PrependStart | genetic_algo_optimization.py:215 | a slot put in front comes first among the slots with its start |
| WeekConstraints.StartsLater | genetic_algo_optimization.py:215 | in a sorted list no slot starts before the first |
| WeekConstraints.NoneStartsAt | genetic_algo_optimization.py:215 | a list with no slot at a start has no slots with that start |
| WeekConstraints.BlockShapes | genetic_algo_optimization.py:149-198 | a full-day block determines its date and reason, a curfew its date, and no curfew is a full-day block |
| WeekConstraints.ReasonsDiffer | genetic_algo_optimization.py:173-187 | a pre-exam reason never reads as the Sunday reason |
| WeekConstraints.LeastOfParsed | genetic_algo_optimization.py:161 | the minimum of a parsed date list is its first date |
| WeekConstraints.HolidayDatesMembers | genetic_algo_optimization.py:143-156 | a date is blocked as a holiday exactly when it is in the week and some entry denotes it |
| WeekConstraints.HolidayBlocksMembers | genetic_algo_optimization.py:143-156 | a holiday block exists exactly for each week date an entry denotes, with that entry's reason |
| Inputs.FindEvent | genetic_algo_optimization.py:507 | the event found has the id asked for; none is found exactly when no pending event has it |
| Inputs.FindVenue | genetic_algo_optimization.py:519 | the venue found has the id asked for; none is found exactly when no venue has it |
| Inputs.EventIds | genetic_algo_optimization.py:673 | the pending ids, one per event, in order; an id is among them exactly when some event carries it |
| Inputs.FindEventIds | genetic_algo_optimization.py:507 | an event is found by id exactly when the id is one of the pending ids |
| Inputs.Duration | genetic_algo_optimization.py:642-645 | the requested span when it is positive, 90 minutes otherwise; always positive |
| Inputs.VenueKind | genetic_algo_optimization.py:521-522 | "Classroom" exactly when the venue type contains "classroom" in any case; "ULS" exactly when it does not and the name contains "uls" |
| Inputs.VenueKindIgnoresCase | genetic_algo_optimization.py:521-522 | venues whose type texts and names agree up to ASCII case have the same kind; lower-casing both does not change the kind |
| Inputs.LowerOccurs | genetic_algo_optimization.py:521-522 | a word occurring in a text occurs, lower-cased, at the same place in the lower-cased text |
| Inputs.ClassroomInAnyCase | genetic_algo_optimization.py:521-522 | a type text containing "classroom" spelt in any mix of cases makes the venue a Classroom |
| Inputs.DaySuffix | genetic_algo_optimization.py:525-526 | there is a weekday or Saturday suffix for every day but Sunday |
| Inputs.BlockageKey | genetic_algo_optimization.py:521-527 | a blockage key exists exactly when the venue has a kind and the slot does not start on a PHT Sunday; it is the kind followed by `_weekend_Sat` on a Saturday and by `_weekday` on Monday to Friday |
| Genome.Get | genetic_algo_optimization.py:675 | a slot found is the gene stored under that id; a missing id gives none |
| Genome.Put | genetic_algo_optimization.py:676 | storing under an existing id keeps the key order; a new id is appended |
| Genome.GetPut | genetic_algo_optimization.py:676 | after storing, the id reads back the stored value and every other id its old one |
| Genome.GetPutAll | genetic_algo_optimization.py:714 | the same, for all other ids at once |
| Genome.PutWellFormed | genetic_algo_optimization.py:676 | storing keeps the ids distinct |
| Genome.GetAt | genetic_algo_optimization.py:496 | iterating over the entries yields the value a lookup gives |
| Fitness.CalculateFitness | genetic_algo_optimization.py:479-606 | the violations are the number of assigned genes failing a hard check. The fitness is the soft score of the accepted genes minus the hard penalty per violation (the corrected evaluator, see Findings) |
| Fitness.JudgeAll | genetic_algo_optimization.py:495-604 | one verdict per gene, in chromosome order, each from the checks in the source's order |
| Fitness.JudgeGene | genetic_algo_optimization.py:504-604 | the verdict on one gene is the first hard check it fails, or its soft score |
| Fitness.Tally | genetic_algo_optimization.py:480-606 | the totals count every violation and add the score of every accepted gene |
| Fitness.BuildActive | genetic_algo_optimization.py:495-503 | the per-venue lists hold the genes' slots, then the existing schedules, in order |
| Fitness.AddGenes | genetic_algo_optimization.py:495-499 | the per-venue lists of the assigned genes' slots |
| Fitness.AddBookings | genetic_algo_optimization.py:500-503 | the existing schedules appended to their venues' lists |
| Fitness.ActiveMembers | genetic_algo_optimization.py:495-503 | an occupancy is listed under a venue exactly when it was placed there |
| Fitness.FirstOverlapping | genetic_algo_optimization.py:512-514 | the first general slot the gene overlaps; none exactly when it overlaps none |
| Fitness.ScanGeneral | genetic_algo_optimization.py:512-515 | the scan finds what `FirstOverlapping` states |
| Fitness.FirstRuleHit | genetic_algo_optimization.py:529-535 | the first applicable blockage rule the gene overlaps; none exactly when it overlaps none |
| Fitness.ScanRules | genetic_algo_optimization.py:529-535 | the scan finds what `FirstRuleHit` states |
| Fitness.SameVenueClash | genetic_algo_optimization.py:541-545 | a clash exactly when another occupancy of the same venue overlaps the slot |
| Fitness.ConcurrentIds | genetic_algo_optimization.py:548-552 | the ids of all other occupancies, at any venue, that overlap the slot |
| Fitness.AddDemand | genetic_algo_optimization.py:555-558 | the totals gain, per named equipment, exactly the quantities one event requests |
| Fitness.EquipmentShortage | genetic_algo_optimization.py:554-563 | short exactly when some equipment name is needed by the concurrent events together beyond its stock |
| Fitness.BestPreference | genetic_algo_optimization.py:582-589 | the best alternative's date-time score, times 0.8, bounds every alternative from above and is one of them, or 0 |
| Fitness.VenuePart | genetic_algo_optimization.py:569-574 | the venue part is the full match for the requested venue, 0.8 of it for the first preferred venue, else 0 |
| Fitness.DateTimePart | genetic_algo_optimization.py:576-590 | the date and time part, from the requested date or from the best alternative |
| Fitness.HecticPart | genetic_algo_optimization.py:592-597 | the hectic bonus, given exactly when the requested date lies in some hectic period's span |
| Fitness.ScoreSlot | genetic_algo_optimization.py:566-604 | base score plus the venue, date-time, hectic and capacity parts |
| Fitness.SpansBounds | genetic_algo_optimization.py:596 | a date is in a period's span exactly when it lies between the parsed list's first and last dates |
| Fitness.UnassignedNeutral | genetic_algo_optimization.py:505 | a gene without a slot is neither counted nor scored; every assigned gene is one or the other |
| Fitness.UnknownEventCosts | genetic_algo_optimization.py:507-508 | an assigned gene of an id that is not pending always costs a violation |
| Fitness.ViolationsBound | genetic_algo_optimization.py:504-563 | a chromosome never has more violations than assigned genes |
| Fitness.ZeroViolationsMeansFeasible | genetic_algo_optimization.py:504-563 | with no violation, every assigned gene belongs to a pending event and overlaps no general slot. It is not double-booked and causes no equipment shortage. On non-hectic weeks it is also at a known venue, clear of that venue type's blockages |
| Fitness.CalculateFitnessAsWritten | genetic_algo_optimization.py:479-606 | the evaluator as written: only the genes before the first venue-type blockage are counted and scored |
| Fitness.TallyAsWritten | genetic_algo_optimization.py:529-538 | the totals as written stop at the first venue-type blockage and do not count it |
| Fitness.UntilVenueClash | genetic_algo_optimization.py:536 | the verdicts reached: the longest prefix without a venue-type blockage |
| Fitness.VenueClashGoesUncounted | genetic_algo_optimization.py:536 | as written, a chromosome with a venue-type blockage reports strictly fewer violations than it has |
| Fitness.AsWrittenUndercounts | genetic_algo_optimization.py:536 | as written, the count never exceeds the corrected count |
| SlotCheck.CheckSlot | genetic_algo_optimization.py:323-406 | the reason is that of the first failed check: week, general slots, venue and blockages on non-hectic weeks, own equipment, capacity |
| SlotCheck.NoReasonIffFeasible | genetic_algo_optimization.py:323-406 | no reason exactly when the slot is in the week, clear of every general slot and, on non-hectic weeks, at a known venue clear of its blockages, with every request known, within stock, and within the venue's capacity |
| SlotCheck.VenueBlockageAgrees | genetic_algo_optimization.py:355-377 | a blockage reason exactly when the fitness evaluator finds a rule hit, always starting "Venue Blockage: " |
| SlotCheck.FirstBadRequest | genetic_algo_optimization.py:386-393 | the problem of the first request whose equipment is unknown or not in stock; none exactly when every request is fine |
| SlotCheck.OwnNamesMembers | genetic_algo_optimization.py:392 | the totals' keys are distinct and are exactly the names the requests resolve to |
| SlotCheck.FirstShortage | genetic_algo_optimization.py:395-397 | none exactly when every name's total is within stock; a shortage reason starts "Equipment Unavailable: '" |
| SlotCheck.TotalRequests | genetic_algo_optimization.py:385-393 | the first bad request, or the per-name totals in first-request order |
| SlotCheck.ScanTotals | genetic_algo_optimization.py:395-397 | the scan finds what `FirstShortage` states |
| SlotCheck.CheckEquipment | genetic_algo_optimization.py:385-397 | a bad request first, else the first shortage |
| SlotCheck.OverDemandReported | genetic_algo_optimization.py:395-397 | a slot passing the earlier checks whose event asks for more of a name than is stocked gets an equipment reason |
| SlotCheck.HecticNoBlockage | genetic_algo_optimization.py:347 | on a hectic week no reason is a venue blockage |
| SlotCheck.SampleAt | genetic_algo_optimization.py:445-458 | a sampled time is tried exactly when it passes the curfew and night-spill filters, and then yields the checker's reason |
| SlotCheck.SampleVenue | genetic_algo_optimization.py:444-458 | some time is tried exactly when one passes the filters; the reasons are those of the tried times |
| SlotCheck.SampleDay | genetic_algo_optimization.py:442-458 | the same over every venue of one date |
| SlotCheck.WeekStep | genetic_algo_optimization.py:439-459 | one more date adds its reasons unless it is a Sunday |
| SlotCheck.WeekReasonsMembers | genetic_algo_optimization.py:439-459 | a reason is collected exactly when some non-Sunday week date yields it |
| SlotCheck.WeekReasonsMeans | genetic_algo_optimization.py:437-459 | a reason is collected exactly when, at some non-Sunday date, venue and sampled time that passes the filters, the checker reports it |
| SlotCheck.WeekReasonsSound | genetic_algo_optimization.py:437-459 | a collected reason was reported at some date, venue and sampled time |
| SlotCheck.WeekReasonsComplete | genetic_algo_optimization.py:437-459 | a reported reason is collected |
| SlotCheck.CollectedMembers | genetic_algo_optimization.py:458 | only non-empty reasons are added |
| SlotCheck.Grouped | genetic_algo_optimization.py:466-469 | the groups are keyed by the categories present and each holds exactly the reasons of its category |
| SlotCheck.GroupReasons | genetic_algo_optimization.py:466-469 | the grouping built is `Grouped` |
| SlotCheck.DiagnosisMeans | genetic_algo_optimization.py:461-476 | "nothing checked" exactly when no venue or no sampled time passes the filters. "No conflicts" means no reason was reported. Otherwise the groups hold exactly the reported reasons |
| SlotCheck.DiagnoseEvent | genetic_algo_optimization.py:426-476 | the analysis of one event is its `Diagnosis` |
| SlotCheck.NoVenuesFor | genetic_algo_optimization.py:415-417 | without venues, every id gets the no-venues note |
| SlotCheck.DiagnoseAll | genetic_algo_optimization.py:425-477 | an analysis for exactly the ids that name pending events, each its `Diagnosis` |
| SlotCheck.PostMortem | genetic_algo_optimization.py:408-477 | no analysis for no ids; the no-venues note for each id without venues; otherwise `DiagnoseAll` |
| Random.RandInt | genetic_algo_optimization.py:634 | `randint(lo, hi)` lies in [lo, hi] |
| Random.Choice | genetic_algo_optimization.py:621 | `choice` returns a member of the sequence |
| Random.Sample | genetic_algo_optimization.py:664 | `sample(range(n), k)`: k distinct indices below n |
| Random.RemoveAt | genetic_algo_optimization.py:664 | removing one entry of a repetition-free pool leaves the others, without repetition |
| Operators.DrawTime | genetic_algo_optimization.py:634-651 | one attempt: a slot given is on a non-Sunday date of the week, starts at a quarter hour between 06:00 and 21:45, lasts the event's duration and does not run into the night |
| Operators.DrawSlot | genetic_algo_optimization.py:633-653 | up to 20 attempts; a slot given has the properties of one attempt |
| Operators.InitialSlot | genetic_algo_optimization.py:620-655 | a slot given is at a known venue, at the requested time when that is usable, else at a drawn time. A first draw at or above 0.9 gives none |
| Operators.InitialChromosome | genetic_algo_optimization.py:617-656 | every pending id exactly once, each slot placeable for its event |
| Operators.Initialize | genetic_algo_optimization.py:608-657 | `size` chromosomes; all empty without venues or events, otherwise each as `InitialChromosome` states |
| Operators.FirstBest | genetic_algo_optimization.py:667 | the first contender with the highest score |
| Operators.Selection | genetic_algo_optimization.py:659-667 | the winner is a member. For k <= 0 it is the first member. Otherwise it is the first top-scoring of min(k, n) distinct random contenders |
| Operators.Crossover | genetic_algo_optimization.py:669-678 | at or above the rate the parents are returned unchanged. Otherwise the children hold exactly the pending ids, each value either kept or swapped between the parents |
| Operators.Deal | genetic_algo_optimization.py:674-677 | each id's two parental values dealt to the children, in order or swapped |
| Operators.MutantSlot | genetic_algo_optimization.py:691-713 | none, or a drawn slot at a known venue |
| Operators.Mutate | genetic_algo_optimization.py:680-715 | no change without venues. Otherwise each pending event draws once, in order, at increasing positions `gates`. An id none of whose draws is below the rate keeps its value, so a rate of zero or less changes nothing. The last event of an id drawn below the rate gives that id a value mutation can give. Only pending ids change, and all old keys remain |
| Operators.MutateEvent | genetic_algo_optimization.py:690-714 | one event: a draw at or above the rate changes nothing; one below it puts a value mutation can give at the event's id and leaves every other id alone |
| Operators.GatedStep | genetic_algo_optimization.py:689-714 | one more event's draw keeps the rate gate's two facts |
| Operators.KeptStep | genetic_algo_optimization.py:690 | ids with no draw below the rate keep their values after one more event |
| Operators.LatestStep | genetic_algo_optimization.py:690-714 | the last event of an id drawn below the rate decides its value, after one more event |
| Operators.MutatedStep | genetic_algo_optimization.py:714 | mutating one pending event loses no key, invents none, and changes only that event's id |
| Operators.InitialSound | genetic_algo_optimization.py:617-656 | initial chromosomes are sound |
| Operators.RecombinedSound | genetic_algo_optimization.py:669-678 | children of sound parents are sound |
| Operators.MutantSound | genetic_algo_optimization.py:680-715 | a mutant of a sound chromosome is sound |
| Operators.PlaceableStart | genetic_algo_optimization.py:627-640 | a placeable slot starts on a usable date of the week, outside the curfew |
| Optimizer.NoWorseTransitive | genetic_algo_optimization.py:781-782 | "at least as good" (fewer violations, then a score no lower) is transitive |
| Optimizer.Track | genetic_algo_optimization.py:780-783 | the best so far is replaced by the leader only when the leader has fewer violations or as many and a higher score; the result is no worse than either |
| Optimizer.Evaluate | genetic_algo_optimization.py:777 | one `calculate_fitness` result per member, in order |
| Optimizer.Score | genetic_algo_optimization.py:802 | one `calculate_fitness` result: the number of hard violations and the soft score less the penalty for them |
| Optimizer.Leader | genetic_algo_optimization.py:778 | the first member with the highest score, violations not consulted |
| Optimizer.NextGeneration | genetic_algo_optimization.py:788-793 | exactly population-size members; the best so far first when present and the size allows; every later member an offspring of the old population, that is a mutant of a child that crossover made from two tournament picks (or `{}` from an empty population); soundness preserved |
| Optimizer.Breed | genetic_algo_optimization.py:790-792 | one refill round: both mutants are offspring of the population, made from two selected parents by crossover and mutation |
| Optimizer.Brood | genetic_algo_optimization.py:792 | appending the next one or two mutants, cut at the population size, keeps the elite first, every other member an offspring, and soundness |
| Optimizer.OffspringSound | genetic_algo_optimization.py:790-792 | an offspring of a sound population is sound, whether crossover passed the parents through or recombined them, and whichever child was mutated |
| Optimizer.Rank | genetic_algo_optimization.py:777-778 | every member's fitness, in order, and the index of the first member with the highest score |
| Optimizer.Evolve | genetic_algo_optimization.py:774-793 | one population per generation, the first the initial one, each of population size. Each generation's leader is its first top-scoring member. The best-so-far starts at the first leader and is replaced by a later leader exactly when that leader beats it, so it never gets worse and is no worse than any leader. A best exists exactly when a generation ran; it is the leader of one generation, its score is its chromosome's fitness, and it is sound. The elite after each generation is that generation's leader when it beats the previous best and the previous elite otherwise, and it is scored as the trail says. Each later generation starts with the previous elite (unless that is `{}`) and is otherwise made of offspring of the previous generation. The final best is the last elite |
| Optimizer.Generations | genetic_algo_optimization.py:774-793 | the generation loop: the run history (populations, leaders, trail, elites, the origin of the best) stays consistent, each generation descends from the previous one with its elite, and a sound initial population gives a sound best |
| Optimizer.Lead | genetic_algo_optimization.py:777-783 | one generation's scores in member order, its leader the first top-scoring member, and the best so far tracked against that leader |
| Optimizer.Advance | genetic_algo_optimization.py:777-783 | the history of a run, with its trail, leaders, elites and the generation the best comes from, stays consistent when one generation is appended |
| Optimizer.Elect | genetic_algo_optimization.py:781-783 | the elite of the new generation is its leader when the leader beats the previous best, the previous elite otherwise, and it is scored as the trail says |
| Optimizer.Descent | genetic_algo_optimization.py:788-793 | the chain of generations, each descending from the previous with its elite, grows by one generation |
| Optimizer.Record | genetic_algo_optimization.py:777-783 | the run history (populations, leaders, best-so-far scores) stays consistent when one generation is appended |
| Optimizer.Climb | genetic_algo_optimization.py:780-783 | one more generation keeps the trail of bests monotone and the best no worse than every leader |
| Optimizer.Entries | genetic_algo_optimization.py:811-822 | the entries are those of the assigned genes of pending events, in the chromosome's order, one per such gene and no other, and the ids they schedule |
| Optimizer.Listed | genetic_algo_optimization.py:811-822 | entries indexed by the genes that give them are exactly the entries those genes propose |
| Optimizer.IndexedStep | genetic_algo_optimization.py:811-822 | listing the entry of one more gene keeps the indices increasing and complete |
| Optimizer.NamedStep | genetic_algo_optimization.py:822 | adding an entry and its id keeps the scheduled ids exactly those of the entries |
| Optimizer.Unscheduled | genetic_algo_optimization.py:823 | the input ids not scheduled, each once |
| Optimizer.Settle | genetic_algo_optimization.py:802-824 | the best is scored once more. With a violation left everything is unscheduled. Otherwise every entry comes from one of its genes, every assigned gene of a pending event gives an entry, and exactly the pending ids without an entry are unscheduled |
| Optimizer.Optimize | genetic_algo_optimization.py:759-829 | no events gives an empty result, and the unscheduled ids always get their post-mortem. Without a best, or with a violation left, every event is unscheduled. Otherwise every entry comes from a gene of the verified best, every assigned gene of a pending event in it gives an entry, and exactly the pending ids without an entry are unscheduled. Every entry is at a known venue, on a usable date, outside the curfew |
| Optimizer.EntrySound | genetic_algo_optimization.py:811-822 | an entry of a sound chromosome is at a known venue, on a usable date, outside the curfew |
| Optimizer.ScheduleFeasible | genetic_algo_optimization.py:806-822 | an entry proposed from a violation-free best overlaps no general slot and is not double-booked. On non-hectic weeks its venue is known |

## Left out

- Reading the database (`fetch_ga_data`, lines 220-318) and the calendar JSON file: the model starts from the gathered records (`Inputs.RunData`) and a parsed `Calendar`.
- Printing and logging, and the report dictionary's summary texts and counts: they do not affect the result.
- The regular expressions and `dateutil` in `parse_date_string`: date texts arrive already split into tokens (`DateParsing.DateText`). A month word is a number 1..12, and any other number stands for a word the parser rejects. The default year `dateutil` takes from the clock is not modelled.
- Floating point: scores and weights are `real`.
- The random generator: its values are an oracle (`Random.Draws`) read in the order the source draws them. `Random.Sample` draws distinct indices from a shrinking pool but does not reproduce CPython's exact mapping from draws to samples. Every contract holds for every sequence of draws.
- Duplicate ids: events, venues and requests are looked up first-match (`Inputs.FindEvent`, `Inputs.FindVenue`). A Python dict built from a list keeps the last duplicate, so ids are taken to be unique.
- Existing schedules are tagged as bookings by a constructor rather than by the `existing_` prefix on their ids, so an event id that itself starts with `existing_` is not modelled.
- Optimizer.Evaluate, Optimizer.Score, Optimizer.Rank, Optimizer.Evolve, Optimizer.Generations, Optimizer.Lead, Optimizer.Settle, Optimizer.Optimize, Optimizer.ScheduleFeasible: score with the corrected evaluator `Fitness.CalculateFitness`, not with the one as written (`Fitness.CalculateFitnessAsWritten`) that lines 777 and 802 call. Their contracts describe the program with the finding below fixed; with the code as written, a best whose only violations are venue-type blockage hits can be proposed.
- Text.Lower: lowers ASCII capitals only, where Python's `str.lower()` also lowers other letters. No other letter lowers to one of the letters of "classroom" or "uls", so the kinds of venues come out the same.
- Optimizer.Unscheduled: keeps the order of the pending events; `list(set(...))` at line 823 has no defined order.
- Operators.Initialize, Operators.DrawTime, Operators.Mutate, Optimizer.NextGeneration, Optimizer.Breed, Optimizer.Evolve, Optimizer.Generations, Optimizer.Optimize: require a non-empty week (`weekStart < weekEnd`). With an empty week, `random.randint` at lines 634 and 694 raises an error, and that error path is not modelled.
- Optimizer.Evolve, Optimizer.Generations, Optimizer.Lead: require a positive population size (the `max` of line 778 fails on an empty one). The empty population of lines 769-772 is handled by `Optimizer.Optimize` before the loop.
- Exception handlers (lines 112-113, 128-132, 728-731, 761-763): the error paths they catch are left out.
- The `is_optimized` flag and the conversion of ids to `ObjectId` in the entries: they carry no logic.
- Operators.Selection: the tournament contenders are a ghost out-parameter, so its contract is checked only through the winner.
- `.copy()` of chromosomes: chromosomes are values, so copying and aliasing do not arise.

## Findings

| source | as written | input that shows it | evidently intended | confidence | as-written member | corrected member |
|---|---|---|---|---|---|---|
| genetic_algo_optimization.py:536 | On a venue-type blockage hit, `if current_event_violations > 0: break` leaves the loop over the whole chromosome. Line 538 is skipped, so that violation is never counted, and later genes are neither checked nor scored | A non-hectic week, a chromosome whose first gene is a Classroom venue on a weekday overlapping a configured `Classroom_weekday` range, followed by any genes: `calculate_fitness` returns 0 violations where there is at least 1 | leave only the loop over the rules, count the violation and go on to the next gene, as the other checks do | high; not executed | Fitness.CalculateFitnessAsWritten, Fitness.VenueClashGoesUncounted | Fitness.CalculateFitness |
