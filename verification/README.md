# Verification of the training platform

A Dafny model of the platform's three cores and of what they promise to each other.

**Platform state** (`Tables`, `Repository`, `RunReaper`, `Requests`, `RequestHandler`).
The database is a set of tables keyed by primary key; every repository call is one
atomic step. `SqliteRepository` is the class whose methods rewrite those tables, each
proved equal to a transition of `Tables`; the safety results are about all traces of
transitions. `TicketSafety`, `LabLifecycle`, `ScoreLedger` and `SeasonCalendar` hold for
any interleaving of calls. `AdminSafety` and `IdempotentReplay` hold for histories in
which each request completes before the next one, with every other call in between. `RowEffects`
and `RequestEffects` say in terms of rows and words what single calls and requests do.
Which requests are "the same" is decided by the canonical printer, whose injectivity is
proved in `CanonicalJson` on top of the string and number printers of `JsonText`;
`CanonicalForm` says what it writes and `JsonFields` reads the members of a body.

**Contract to grade** (`Questions`, `ContentContract`, `ContractChecker`, `DraftGenerator`,
`DraftAcceptance`, `DraftContract`, `Grading`, `TrustedEvidence`, `GradableContent`,
`Submission`, `AcceptedPackages`, `AcceptedRules`, `DraftAsks`, `AnswerMarks`, `SubmittedBody`,
`GradedSubmission`). The content service promises
packages that are executable and gradable. Where that is true of the code it is proved;
where it is not, the exact condition is:

- accepted content never makes the scorer throw, *provided* no hidden `points` is a
  boolean, because Python holds `True == 1` and the scorer asks for an integer;
- full marks are within reach *provided* every choice key holds a string (a number
  passes through `str`, and the scorer drops it) and every ATT&CK key is written in ASCII
  digits (Python's `\d` takes others). The API's own checks rule out the first and the
  third of these gaps, not the second;
- the generator's drafts pass the contract exactly for requests in normal form (a space
  before the prompt is enough to be refused), and can be answered for 100 points.

`AcceptedPackages` holds a whole accepted package for each of these gaps, together with
accepted and refused drafts; `SubmittedBody` reads a submission's body and
`GradedSubmission` follows it into the ledger, up to the result that a lab made from a
generated draft can be solved for everything it is worth.

**Telemetry and ranking** (`BlueTelemetry`, `TelemetryCorpus`, `Reporting`, `Rankings`,
`SeasonPolicy`, `OrganizationReports`, `SeedDocuments`, `PublishedBoards`). Event expansion, competition ranking, streaks,
season scores and report figures over exact rationals, with `floor(x + 1/2)` for rounding.

`Wrappers`, `Sorting`, `Sequences` and `Rounding` are shared helpers. Random identifiers, clocks,
hashes, adapter answers and collations are parameters. A hash is any function that prints
64 hexadecimal digits; results that compare two digests say which two texts it must not
confuse, and no result needs more than that one pair. `dafny verify dfyconfig.toml` checks everything.

## Model

| member | source | states |
|---|---|---|
| CanonicalJson.CanonicalIffEquivalent | services/api/src/app.ts:867-878 | Two JSON values print to the same canonical text exactly when they are equal up to the order of object members, for all nested lists, objects, escaped strings and finite numbers. |
| CanonicalJson.PrintsApart | services/api/src/app.ts:867-878 | The printer is prefix-free: texts that agree up to what may follow a value come from equivalent values, whatever follows. |
| CanonicalJson.EquivalentPrintAlike | services/api/src/app.ts:867-878 | The converse half: reordering members anywhere inside a value does not change its text. |
| CanonicalJson.DigestIffEquivalent | services/api/src/app.ts:880-882 | Under a hash that does not confuse the two texts at hand, equal digests mean equivalent requests and the other way round. |
| CanonicalForm.KeyLessIs | services/api/src/app.ts:871 | Keys are ordered by the first code unit in which they differ, and a key comes before its continuations. |
| CanonicalForm.TwoMembersWritten | services/api/src/app.ts:867-878 | An object of two members is written with the preceding key first, whichever came first in it. |
| CanonicalForm.WholeNumbersWritten | services/api/src/app.ts:877 | Whole numbers are written out up to 21 digits and in exponent notation from there on. |
| CanonicalForm.FractionsWritten | services/api/src/app.ts:877 | Fractions are written out down to a millionth and in exponent notation below. |
| CanonicalForm.ConstantsWritten | services/api/src/app.ts:867-878 | The constants and the separators of lists, unit by unit. |
| JsonText.QuoteRoundTrip | services/api/src/app.ts:873-877 | Reading back a quoted, escaped key or string gives the original code units and leaves the rest of the text. |
| JsonText.QuotePrefixFree | services/api/src/app.ts:873-877 | Two quoted strings followed by anything agree only if the strings and what follows agree. |
| JsonText.NumberTextInjective | services/api/src/app.ts:877 | Different finite numbers never print alike in the shortest ECMAScript notation (plain, fractional or exponential). |
| JsonText.NumberTextPrefixFree | services/api/src/app.ts:877 | A number's text ends where a separator or a closing bracket begins, so numbers can be told apart inside lists and objects. |
| Repository.SqliteRepository.SetUserPlatformRole | services/api/src/database.ts:2382-2391 | Changes the role of that user only; tells whether the row exists. |
| Repository.SqliteRepository.SetUserDisabled | services/api/src/database.ts:2393-2414 | Marks or clears the suspension of that user only. |
| Repository.SqliteRepository.CreateOrganization | services/api/src/database.ts:2008-2066 | Adds the organization unless its slug or join-code hash is taken, and then changes nothing. |
| Repository.SqliteRepository.RotateOrganizationJoinCode | services/api/src/database.ts:2068-2104 | Replaces the hash of an existing organization unless another one uses it. |
| Repository.SqliteRepository.SetOrganizationMemberRole | services/api/src/database.ts:2432-2445 | Changes the role of a member who is not the owner, and reports whether it did. |
| Repository.SqliteRepository.RemoveOrganizationMember | services/api/src/database.ts:2447-2455 | Deletes a membership that is not the owner's, and reports whether it did. |
| Repository.SqliteRepository.CreateLab | services/api/src/database.ts:1218-1255 | A new lab is a draft and belongs to its owner's organization. |
| Repository.SqliteRepository.UpdateLabConfig | services/api/src/database.ts:1313-1326 | Merges the patch into the configuration of a draft lab and of no other. |
| Repository.SqliteRepository.SaveValidation | services/api/src/database.ts:1328-1381 | Upserts every check and settles the status in one step, an administrator's quarantine overriding the decision. |
| Repository.SqliteRepository.QuarantineLab | services/api/src/database.ts:2106-2136 | Quarantines the lab and records who did it and why. |
| Repository.SqliteRepository.ReleaseLabQuarantine | services/api/src/database.ts:2348-2373 | Returns a quarantined lab to draft and clears the administrator's mark; any other lab is left alone and reported as not released. |
| Repository.SqliteRepository.CreateRun | services/api/src/database.ts:1383-1406 | Inserts the run under a fresh identifier or changes nothing. |
| Repository.SqliteRepository.UpdateRunReadiness | services/api/src/database.ts:1415-1435 | Moves the owner's provisioning run to its reported status; runs past provisioning stay as they are. |
| Repository.SqliteRepository.MarkRunExpired | services/api/src/database.ts:2491-2507 | Ends a run that is not terminal as expired; the row is returned whether or not anything changed. |
| Repository.SqliteRepository.MarkRunStopped | services/api/src/database.ts:2509-2530 | Ends a run that is not terminal as stopped; the row is returned whether or not anything changed. |
| Repository.SqliteRepository.ListExpiredRunIds | services/api/src/database.ts:2469-2478 | Lists min(limit, overdue) different runs that are provisioning or ready with a deadline not after now, by deadline, and all of them when the limit is not reached. |
| Repository.SqliteRepository.ListActiveRunIdsForUser | services/api/src/database.ts:2480-2489 | Lists exactly the user's provisioning and ready runs, each once, oldest first. |
| Repository.SqliteRepository.CreateAccessTicket | services/api/src/database.ts:1551-1566 | Stores an unspent ticket for an existing run and user under a fresh hash. |
| Repository.SqliteRepository.ConsumeAccessTicket | services/api/src/database.ts:1568-1630 | Spends a ticket and writes its audit row together, exactly when kind, expiry and run status allow; the grant holds the run's own data. |
| Repository.SqliteRepository.SaveChallengeResult | services/api/src/database.ts:1475-1549 | Stores result and score event together or neither; refused with a duplicate error exactly when the run has a result; answers the rounded percentage of the points. |
| Repository.SqliteRepository.CreateSeason | services/api/src/database.ts:2221-2261 | Refuses an overlapping season, then an existing one, with different errors, else inserts. |
| Repository.SqliteRepository.DeleteSeason | services/api/src/database.ts:2263-2269 | Deletes that season only. |
| Repository.SqliteRepository.SaveIdempotencyRecord | services/api/src/database.ts:2554-2578 | Stores a record under an unused (user, operation, key) and never replaces one. |
| TicketSafety.RunsOnlyAdvance | services/api/src/database.ts:1415-1435 | Over any interleaving a run only moves forward through its stages; stopped and expired are final and freeze the row. |
| TicketSafety.ReadyAtMostOnce | services/api/src/database.ts:1427-1435 | A run becomes ready at most once in any trace. |
| TicketSafety.RedeemedAtMostOnce | services/api/src/database.ts:1568-1630 | Each ticket is redeemed at most once in any trace, and only if it was not spent before. |
| TicketSafety.RedeemsExactlyWhen | services/api/src/database.ts:1577-1585 | Redeeming succeeds if and only if the ticket is unspent, of the asked kind, not past its expiry, and its run is ready; it then marks that ticket alone as consumed, and otherwise changes nothing. |
| TicketSafety.NoRedemptionUnlessReady | services/api/src/database.ts:1577-1585 | No trace redeems a ticket of a run that is past ready. |
| TicketSafety.LeavingReadyEndsAccess | services/api/src/database.ts:2491-2530 | Once a run has been stopped, expired or failed, none of its tickets is ever redeemed again, in any continuation. |
| TicketSafety.AccessInvariantReachable | services/api/src/database.ts:2491-2530 | In every reachable state spent tickets were spent before their expiry and terminated runs expose no access data. |
| TicketSafety.AuditCountsRedemptions | services/api/src/database.ts:1604-1621 | Over any trace the number of consumption rows in the audit log grows by exactly the number of newly spent tickets, plus the rows that were recorded under that action by hand. |
| LabLifecycle.QuarantineVisibleReachable | services/api/src/database.ts:1346-1369 | A lab with an administrator's mark shows as quarantined in every reachable state. |
| LabLifecycle.OnlyReleaseLiftsQuarantine | services/api/src/database.ts:1346-1369 | No sequence of calls without a release of that lab lifts an administrator's quarantine, whatever validations report. |
| LabLifecycle.ReleasedNeedsNewPass | services/api/src/database.ts:2348-2373 | A released lab becomes validated again only through a new passing validation, after which it was validated in every state. |
| LabLifecycle.ValidatedSinceAPass | services/api/src/database.ts:1328-1369 | A validated lab owes that to one passing validation after which it was validated in every state. |
| LabLifecycle.ConfigFrozenOutsideDraft | services/api/src/database.ts:1313-1326 | The configuration is frozen from leaving draft until a release of that lab. |
| LabLifecycle.ShapeFrozen | services/api/src/database.ts:1437-1453 | The hidden questions a lab was created with are the ones it is graded against after any sequence of calls. |
| ScoreLedger.LedgerReachable | services/api/src/database.ts:637-647 | In every reachable state score events and results are in one-to-one order with equal points, and each run has at most one result. |
| ScoreLedger.PointsConserved | services/api/src/database.ts:1475-1549 | A user's booked points equal the sum of the user's results in every reachable state. |
| ScoreLedger.SaveExactlyOnce | services/api/src/database.ts:713-716 | Saving appends exactly one result and the one event made from it, or, for a run that has a result, nothing; earlier rows never change. |
| RowEffects.ReadinessReport | services/api/src/database.ts:1415-1435 | A report moves the owner's provisioning run to the reported status and no other run. |
| RowEffects.BecomesReady | services/api/src/database.ts:1427-1435 | A run becomes ready by its owner's report on a provisioning run and by nothing else. |
| RowEffects.TicketIssued | services/api/src/database.ts:1551-1566 | A new ticket is of the asked kind, for the asked run and user, in time, and unspent; nothing else changes. |
| RowEffects.TicketSpent | services/api/src/database.ts:1577-1630 | A ticket is spent exactly when it is unspent, of the asked kind and in time and its run is ready; then it alone is marked and one audit row is written. |
| RowEffects.RunsInRows | services/api/src/database.ts:1415-1435 | Along any sequence of calls a run keeps owner and deadline, what is over stays as it is, and what was ready or failed is so still or is over. |
| RowEffects.IssuedThenRedeemed | services/api/src/database.ts:1551-1630 | A ticket for a ready run opens it once: not twice, not late, and not as the other kind. |
| RowEffects.ValidationDecides | services/api/src/database.ts:1328-1369 | A validation decides the status of a lab without an administrator's mark, and leaves a marked one quarantined. |
| RowEffects.EvidenceKept | services/api/src/database.ts:1328-1345 | Of several outcomes of one check the last one is kept; other checks and other labs keep theirs. |
| RowEffects.PatchReachesDrafts | services/api/src/database.ts:1313-1326 | A patch gives its keys to a draft and leaves the others; other labs are not reached. |
| RowEffects.LabCreated | services/api/src/database.ts:1218-1255 | A new lab is a draft of its owner's organization without a mark. |
| RowEffects.AccountsSoundReachable | services/api/src/database.ts:2008-2104 | In every reachable state slugs, join codes and handles tell their rows apart and members belong to existing organizations. |
| RowEffects.OwnersStay | services/api/src/database.ts:2432-2455 | No sequence of calls changes the membership of an organization's owner. |
| RowEffects.MemberRoleAssigned | services/api/src/database.ts:2432-2445 | A member who is not the owner gets the role asked for, in that organization only. |
| RowEffects.MemberRemoved | services/api/src/database.ts:2447-2455 | A member who is not the owner is removed from the asked organization, and nobody else. |
| SeasonCalendar.SeasonsDisjointReachable | services/api/src/database.ts:2221-2261 | Seasons are pairwise disjoint half-open intervals in every reachable state. |
| SeasonCalendar.LimitOneHidesNothing | services/api/src/database.ts:2203-2212 | At most one season is active at any instant, so the limited query returns all there is. |
| SeasonCalendar.RefusedExactlyOnClash | services/api/src/database.ts:2221-2261 | A season is refused exactly when it overlaps an existing one or reuses an identifier or slug. |
| SeasonCalendar.SeasonsInRows | services/api/src/database.ts:2203-2212 | No reachable state has two seasons at one instant or under one slug, and the query finds exactly the one that has begun and not ended. |
| SeasonCalendar.BackToBack | services/api/src/database.ts:2221-2261 | A season may begin at the instant another one ends. |
| RunReaper.ReleaseRunResources | services/api/src/app.ts:1072-1086 | Each adapter is asked to destroy the run exactly once, the second one whatever the first one answers; the log tells which of the two failed, and a failure goes no further. |
| RunReaper.LogIsExact | services/api/src/app.ts:1072-1086 | Over a whole loop the log holds every failure of each adapter exactly once, independently of the other adapter, and nothing else. |
| RunReaper.SweepExpiredRuns | services/api/src/app.ts:1113-1134 | One sweep expires exactly the listed runs, asks both adapters once for each of them, and writes one audit row for each, whatever the adapters answer. |
| RunReaper.TerminateRunsForUser | services/api/src/app.ts:1094-1110 | Stops every active run of the user and nothing else, asking both adapters once for each, whatever they answer. |
| RunReaper.SweepEndsExactly | services/api/src/app.ts:1113-1134 | A sweep takes exactly the chosen runs out of the overdue and the active set; every other run is unchanged. |
| RunReaper.SweepTakesWhatRanOut | services/api/src/app.ts:1113-1134 | In terms of the rows: a sweep expires only provisioning or ready runs whose deadline is not after now, leaves every run with time left as it was, and leaves no such run behind when it lists fewer than its limit. |
| RunReaper.SweepsFinish | services/api/src/app.ts:1113-1134 | As many sweeps as there are runs leave no run alive past its deadline, under any positive limit, and touch none that had time left. |
| RunReaper.SweepProgress | services/api/src/app.ts:1113-1134 | Each sweep removes exactly min(limit, overdue) runs, the longest overdue ones first. |
| RunReaper.BacklogAfter | services/api/src/app.ts:1113-1134 | After k sweeps at a fixed time the backlog is what it was less k limits, or nothing. |
| RunReaper.CapacityGrows | services/api/src/app.ts:1113-1134 | With a positive limit enough sweeps exceed any backlog. |
| RunReaper.SweepsTerminate | services/api/src/app.ts:1113-1134 | Enough sweeps at a fixed time leave no overdue run active. |
| RunReaper.StopRunsOfEnds | services/api/src/app.ts:1094-1110 | After the termination loop none of the user's runs is provisioning or ready; those that were are stopped and cleared, and every other row is as it was. |
| RequestHandler.Route | services/api/src/app.ts:1646-2100 | Guards, replay lookup, operation, record and audit row of the nine keyed operations, run step by step, equal the specified request; a suspension's list holds the user's active runs oldest first. |
| RequestHandler.SuspensionBranch | services/api/src/app.ts:2027-2100 | The account is locked and every active run of the user is stopped and released at both adapters, oldest first; an unknown user changes nothing and releases nothing. |
| RequestHandler.DeployBranch | services/api/src/app.ts:2732-2802 | Refuses an access method that the lab does not enable before anything is provisioned; inserts the provisioned run for the actor; on any later refusal (missing or refused telemetry, failed insertion) leaves the tables alone and asks the runtime, and after a failed insertion also the telemetry, to take the new environment down. |
| RequestHandler.SubmitBranch | services/api/src/app.ts:2979-3028 | Reads the body's answers, grades them against the hidden questions of the run's lab and books grade and hint count for the run's owner, or refuses without a trace. |
| RequestHandler.TerminateBranch | services/api/src/app.ts:1896-1956 | An active run is released at the runtime first and the telemetry second; the first failure refuses the request with the tables as they were. A terminal run is not released again. |
| AdminSafety.SafeReachable | services/api/src/app.ts:1958-2100 | From a state with an enabled platform administrator, every history of requests and background calls keeps one, and never leaves a suspended user with a provisioning or ready run. |
| AdminSafety.SuspensionKeepsSafe | services/api/src/app.ts:1094-1110 | The termination loop is what keeps the second invariant through a suspension. |
| AdminSafety.OnlyAnotherAdminChangesAccess | services/api/src/app.ts:373-384 | A role or suspension changes only at the request of another enabled administrator. |
| AdminSafety.RunsStartFromValidatedLabs | services/api/src/app.ts:2708-2720 | A run comes into being only for an enabled user who sees its lab, while the lab is validated and enables the access method asked for. |
| AdminSafety.SuspensionTakesEffect | services/api/src/app.ts:2060-2077 | A suspension that is carried out locks the account and ends all its environments. |
| AdminSafety.RoleLasts | services/api/src/app.ts:1958-2025 | A role change lasts until a request addresses that account again, whatever else happens, and an account made a plain user gets no administrative request through meanwhile. |
| AdminSafety.TerminationTakesEffect | services/api/src/app.ts:1896-1956 | A termination that is carried out ends that run, clears its access data, and touches no other. |
| RequestEffects.RoleWords | services/api/src/app.ts:1958-2025 | A role request is carried out exactly for an admitted administrator, a fitting reason, another existing account and one of the two role words; "user" makes a plain user, "platform_admin" an administrator, and nothing else changes. |
| RequestEffects.SuspensionWords | services/api/src/app.ts:2027-2100 | The same for suspensions: true locks the account and ends exactly what it has running, false unlocks it and touches no run, anything else is refused. |
| RequestEffects.QuarantineWords | services/api/src/app.ts:1788-1840 | A quarantine is carried out exactly for a lab that exists, and stores actor, time and the reason without the white space around it. |
| RequestEffects.ReleaseWords | services/api/src/app.ts:1842-1895 | A release is carried out exactly for a quarantined lab and makes it a draft without a mark. |
| RequestEffects.TerminationWords | services/api/src/app.ts:1896-1956 | A termination is carried out exactly for a run that exists and is over or that both adapters let go; it stops and clears a run that is not over and changes no other. |
| RequestEffects.AccessWords | services/api/src/app.ts:2737-2753 | Each access word needs exactly the ways in that it names; every other word is refused. |
| RequestEffects.DeployWords | services/api/src/app.ts:2700-2802 | A deployment is carried out exactly for an enabled user, a validated lab in sight, an access word the lab enables, and runtime and telemetry that are ready; the new run is the runtime's, for that user and that lab. |
| RequestEffects.OrganizationWords | services/api/src/app.ts:1646-1708 | An organization is created exactly when an administrator names one whose slug and join code are free. |
| RequestEffects.RotationWords | services/api/src/app.ts:1710-1786 | A join code is rotated exactly for an existing organization, an empty body and a code nobody else uses. |
| RequestEffects.AnswersAndAudit | services/api/src/app.ts:1685-1708 | A performed request answers with its row as it now is and leaves one audit row of its name, for its actor and its resource. |
| AdminSafety.SuspensionLasts | services/api/src/app.ts:2027-2100 | After a suspension, whatever happens until a request addresses that account again, every request of its own is refused without effect and it has no live environment. |
| AdminSafety.SelfDemotionWouldLockOut | services/api/src/app.ts:1974-1980 | Without the self-modification guard one role change could leave no administrator. |
| IdempotentReplay.LaterRequest | services/api/src/app.ts:936-958 | After a request was carried out and anything happened since, an admitted request under its key gets the stored answer if its body is equivalent and a refusal otherwise; the tables do not change. The hash must not confuse the two requests. |
| IdempotentReplay.PerformedAtMostOnce | services/api/src/app.ts:936-958 | In any history the effect happens at most once for a key, and exactly when the key becomes used. |
| IdempotentReplay.EnvelopesMatch | services/api/src/app.ts:1728 | Within one operation the digested envelope tells exactly the bodies apart. |
| IdempotentReplay.UsedKey | services/api/src/app.ts:945-957 | What a used key answers: refusal by the guards first, then the stored answer or a conflict. |
| IdempotentReplay.PerformedUsesKey | services/api/src/database.ts:2554-2578 | Carrying out an operation stores its digest and its answer, without the join code, under a key that was unused. |
| IdempotentReplay.RecordPersists | services/api/src/database.ts:2554-2578 | A stored record survives every history unchanged. |
| IdempotentReplay.CodeOnlyInFirstAnswer | services/api/src/app.ts:1678-1708 | A join code appears in an answer exactly when that request creates or rotates it; no replay ever shows one. |
| Grading.UniqueMap | packages/grading/src/index.ts:152-164 | Fills the map row by row and stops at the first missing or repeated identifier. |
| Grading.NoFaultIff | packages/grading/src/index.ts:152-164 | The map is filled exactly when all identifiers are nonempty and different. |
| Grading.FirstFaultIff | packages/grading/src/index.ts:59-69 | Grading throws exactly on invalid or repeated questions, answers or evidence, unknown answers, or a pass score out of range. |
| Grading.GradeQuestion | packages/grading/src/index.ts:84-123 | Awarded points stay within the question's points; full for correct, none for incorrect or ungradable. |
| Grading.Share | packages/grading/src/index.ts:94-97 | Partial credit is within the points and off the exact share by at most half a point; nothing for ratio 0, everything for ratio 1. |
| Grading.ExternalCredit | packages/grading/src/index.ts:89-102 | Evidence that counts and passed earns its share of the points; evidence that fails or does not count earns nothing. |
| AnswerMarks.MultipleChoiceMarks | packages/grading/src/index.ts:111-115 | Full points exactly for a list that reads the same as the key's, trimmed and in lower case, item by item; otherwise nothing. |
| AnswerMarks.WrongOptionEarnsNothing | packages/grading/src/index.ts:111-115 | One text more or one text less than the key, and nothing is earned. |
| AnswerMarks.SingleChoiceMarks | packages/grading/src/index.ts:104-109 | Full points exactly for a text that reads like the only one the key holds. |
| AnswerMarks.WrongShapeEarnsNothing | packages/grading/src/index.ts:104-115 | A text for a list, a list for a text, or no answer earns nothing. |
| AnswerMarks.TechniqueMarks | packages/grading/src/index.ts:117-122 | Full points exactly for naming the key's techniques, all of them and no other, in a list or as one text. |
| AnswerMarks.ExternalMarks | packages/grading/src/index.ts:88-102 | The rounded share of the points when the evidence comes from the right source, names policy and reference, has a ratio between 0 and 1 and passed; otherwise nothing. |
| AnswerMarks.BlanksDoNotCount | packages/grading/src/index.ts:176-196 | White space around an answer does not count. |
| AnswerMarks.BlanksAndCase | packages/grading/src/index.ts:176-196 | What counts as white space and what the case mappings do, on examples that pin both ends of the alphabet. |
| AnswerMarks.GradesEach | packages/grading/src/index.ts:59-76 | Each question is graded by the answer and the evidence that carry its identifier, and as unanswered without one. |
| AnswerMarks.ScoreMeans | packages/grading/src/index.ts:77-81 | The score is the rounded percentage of the sum of all points, and passing is reaching the pass score. |
| AnswerMarks.SkillsByKind | services/api/src/app.ts:787-794 | Searches count for investigation, mappings for attack mapping, both kinds of choice for red team execution and texts for analysis. |
| Grading.GradeRunTotals | packages/grading/src/index.ts:53-82 | Totals and score stay in bounds; full and zero totals mean full and zero awards on every question; a full run scores 100. |
| Grading.GradeSkills | services/api/src/app.ts:787-807 | A skill appears from its first grade on and holds the sums of its grades. |
| Grading.SkillsConservePoints | services/api/src/app.ts:787-807 | The skill totals add up to exactly the run's awarded and maximum points. |
| TrustedEvidence.ValidateTrustedGradeEvidence | services/api/src/evidence-grader.ts:166-223 | Accepts exactly lists of valid evidence for externally graded questions, one per question, and returns them unchanged; otherwise reports the first fault in the order of the list. |
| TrustedEvidence.MergeTrustedGradeEvidence | services/api/src/app.ts:778-785 | Sets every stored, then every generated item in order. |
| TrustedEvidence.MergedIsLastPerQuestion | services/api/src/app.ts:778-785 | The merge holds one row per question that occurs, the last one. |
| TrustedEvidence.MergeAcceptable | services/api/src/app.ts:778-785 | Merging two accepted lists is acceptable again, keeps everything generated and whatever stored evidence it does not replace. |
| TrustedEvidence.DevelopmentGraderAcceptable | services/api/src/evidence-grader.ts:19-66 | The development grader's verdicts always pass the evidence checks, whatever the identifiers of run and questions. |
| AnswerMarks.SearchMarks | services/api/src/evidence-grader.ts:31-41 | A search passes exactly with a query and just the expected events, of which there are some, all of them in the telemetry. |
| AnswerMarks.VerdictMeans | services/api/src/evidence-grader.ts:31-66 | One verdict for each externally graded question; an essay earns all from 80 trimmed characters on, half from 40 on, nothing below. |
| ContentContract.ScanFinds | services/ai/app/content_contract.py:393-405 | The scan reports exactly the values that hold an answer name at some depth or are nested more than twelve levels. |
| ContractChecker.CheckOptions | services/ai/app/content_contract.py:58-67 | Two to eight options with valid identifiers and labels, none repeated, decided by counting a set. |
| ContractChecker.CollectQuestions | services/ai/app/content_contract.py:40-69 | Succeeds exactly when every public question is valid and none repeats an identifier; the map and the kinds are those of the list. |
| ContractChecker.CollectTelemetryIds | services/ai/app/content_contract.py:357-378 | Returns the event identifiers of a blue package exactly when all events are valid and different; nothing for other teams. |
| ContractChecker.CheckGrading | services/ai/app/content_contract.py:87-100 | Decides exactly whether each hidden question matches a public one and every public one is matched. |
| ContractChecker.RequestedTypes | services/ai/app/content_contract.py:32 | Keeps each requested type once. |
| ContractChecker.ValidateGeneratedContent | services/ai/app/content_contract.py:16-104 | The loops accept exactly the packages that meet the contract, image and repository patterns and unsupported keys included. |
| ContractChecker.DistinctIffAsMany | services/ai/app/content_contract.py:376-377 | A list repeats nothing exactly when it has as many members as places. |
| AcceptedRules.AcceptedHidesAnswers | services/ai/app/content_contract.py:393-405 | In accepted content no public question and no telemetry event has a member named like an answer, at any depth and in any case. |
| AcceptedRules.AcceptedQuestions | services/ai/app/content_contract.py:39-73 | Accepted questions are four or six to twenty, with identifiers of their own, of requested kinds, all of which occur, in 10 to 2000 characters with Hangul, for 1 to 1000 points. |
| AcceptedRules.AcceptedBlue | services/ai/app/content_contract.py:74-83 | Accepted blue content asks at least three searches and three mappings and nothing else. |
| AcceptedRules.AcceptedTelemetry | services/ai/app/content_contract.py:357-378 | Accepted blue content holds 1 to 100 events with different identifiers. |
| AcceptedRules.AcceptedKeys | services/ai/app/content_contract.py:329-354 | Each hidden question has a public one of the same identifier, kind and points, and its key names only that question's options, techniques of the chain, or events of the telemetry. |
| AcceptedRules.AcceptedSpec | services/ai/app/content_contract.py:103-143 | The accepted specification is for the request's team and prompt and says the same as the rest of the package. |
| AcceptedRules.AcceptedTopology | services/ai/app/content_contract.py:220-275 | Accepted blue environments give an analyst a monitored target and its telemetry, others an operator a vulnerable target, each run isolated. |
| AcceptedRules.AcceptedGeneration | services/ai/app/content_contract.py:276-303 | The accepted telemetry plan is within the limits of the expansion and has room for its events. |
| AcceptedRules.AcceptedTarget | services/ai/app/content_contract.py:123-190 | Accepted targets have 1 to 20 probes of each sort on a proper port, and vulnerability probes say what they prove. |
| AcceptedRules.AcceptedRefs | services/ai/app/content_contract.py:192-212 | Every accepted question has its hidden reference, and every reference a question. |
| AcceptedRules.AcceptedLearning | services/ai/app/content_contract.py:214-219 | Accepted lessons have five or six to twelve sections of 20 to 20000 characters with Hangul. |
| GradableContent.AcceptedPairing | services/ai/app/content_contract.py:39-100 | In accepted content no hidden identifier repeats, and hidden and public identifiers are the same. |
| GradableContent.AcceptedNeverThrows | packages/grading/src/index.ts:53-81 | Grading accepted content throws on no orderly submission, exactly when no hidden points are a boolean. |
| GradableContent.FullMarksIff | services/ai/app/content_contract.py:329-354 | Full marks on accepted content are possible exactly when no points are booleans, every choice key holds a string and every ATT&CK key an ASCII technique. |
| GradableContent.KeysScoreFull | packages/grading/src/index.ts:53-123 | Answering from the keys with full credit elsewhere scores 100. |
| GradableContent.KeyMeetsItself | packages/grading/src/index.ts:105-122 | An answerable key is met by its own answer; an unanswerable one by no response at all. |
| GradableContent.UnanswerableFallsShort | packages/grading/src/index.ts:105-122 | One unanswerable key keeps every submission below full marks. |
| GradableContent.EmptySubmissionScoresZero | packages/grading/src/index.ts:53-123 | The empty submission without evidence scores 0. |
| AcceptedPackages.TruePointsAcceptedAndThrow | services/ai/app/content_contract.py:94-95 | An accepted package whose hidden points are the boolean true, equal to one point for the contract: grading throws on every submission whatsoever. |
| AcceptedPackages.NumberKeyAcceptedAndWorthless | services/ai/app/content_contract.py:336-340 | An accepted package, taken over by the API as well, with the number 1 as key for option "1": grading works and every graded submission earns 0 points. |
| AcceptedPackages.ForeignDigitsAcceptedAndWorthless | services/ai/app/content_contract.py:387 | An accepted package with a technique in non-ASCII digits: the API refuses to take it over, and every graded submission would earn 0 points. |
| AcceptedPackages.TextKeyAcceptedAndFull | services/ai/app/content_contract.py:336-340 | The same package with the text "1" as key is accepted and can be answered for full marks. |
| AcceptedPackages.UniformAccepted | services/ai/app/content_contract.py:16-104 | Four equal questions make an accepted package whenever one pair of them, its options and its key, and the attack chain meet the contract's local rules. |
| Submission.TakenFullMarksIff | services/api/src/ai.ts:647-683 | Once the API has taken an accepted package over, grading never throws, and full marks are possible exactly when every choice key holds a string. |
| Submission.TakenReadyIff | services/api/src/ai.ts:647-683 | Accepted and taken content can be answered in full before the development grader exactly when no choice or ELK key consists of non-strings only. |
| AcceptedRules.TakenRules | services/api/src/ai.ts:647-683 | What the API checks again: counts, prompts, whole points, no answer names, and one public question of the same identifier, kind and points for each hidden one. |
| Submission.Submit | services/api/src/app.ts:2996-3020 | Checks the stored evidence, then the generated, merges and grades them, and breaks the grade down by skill; succeeds exactly when all of these do and otherwise reports the first that fails. |
| Submission.GradedRunIsStorable | services/api/src/database.ts:543-554 | A graded run meets the checks of the results table and its skills add up to it. |
| Submission.SubmissionIsBooked | services/api/src/database.ts:1475-1549 | The ledger entry of a submission holds exactly the points its skills add up to. |
| Submission.FullSubmissionScores100 | services/api/src/evidence-grader.ts:19-66 | Answering from the keys before the development grader scores 100, whatever acceptable evidence was stored. |
| GradedSubmission.PerformedSubmitBooks | services/api/src/app.ts:2979-3028 | A submit request that is carried out adds one result and one event for its run and user, with exactly the grade of its own answers against its own lab's questions; the skills add up to it. |
| GradedSubmission.SubmitPerformedIff | services/api/src/app.ts:2957-3028 | A submission is carried out exactly when it is admitted under a new key, its body can be read, its lab is in reach and has questions, evidence and answers pass, and the run has no result yet; otherwise nothing changes. |
| GradedSubmission.SubmitAnswers | services/api/src/app.ts:2957-3028 | The request as it runs, from its body to the ledger: what is booked is the grade of its own answers, or nothing at all. |
| GradedSubmission.KeysBookEverything | services/api/src/app.ts:2979-3008 | The first submission of a run that answers from the keys before the development grader is carried out with a score of 100 and books every point. |
| GradedSubmission.DraftBooksEverything | services/api/src/app.ts:2979-3008 | From the instructor's request to the ledger: a lab made from the draft for a conforming request can be solved for everything it is worth. |
| GradedSubmission.KeysCanBeSent | services/api/src/app.ts:747-776 | There is a body that says exactly the key answers. |
| SubmittedBody.SubmittedAnswersIff | services/api/src/app.ts:747-776 | A body is read exactly when it holds a list of answers, each with an identifier, and claims no evidence of its own; what is read is that list, item by item. |
| SubmittedBody.BodyRoundTrip | services/api/src/app.ts:747-776 | Reading the body that carries given answers gives these answers back, for every text of every script. |
| SubmittedBody.ResponsesRead | services/api/src/evidence-grader.ts:31-41 | An object is read as a search, without a query or events unless it has them in the right form; numbers, constants and nothing are no response. |
| SubmittedBody.HintsTaken | services/api/src/app.ts:739-745 | Whole hint counts are taken as they are up to 20, larger ones as 20, and negative, zero or missing ones as 0. |
| DraftGenerator.PadTypes | services/ai/app/domain.py:660-664 | The red questions repeat the chosen types in turn up to four. |
| DraftGenerator.GenerateRedQuestions | services/ai/app/domain.py:660-706 | Public questions and hidden contracts grow together, pair by pair. |
| DraftAcceptance.BlueQuestionsOk | services/ai/app/domain.py:638-662 | The six blue questions meet the contract's rules for counts, kinds and identifiers. |
| DraftAcceptance.RedQuestionsOk | services/ai/app/domain.py:660-706 | The red questions meet them for every choice of types. |
| DraftAcceptance.BlueGradingOk | services/ai/app/domain.py:638-662 | Blue keys refer only to generated telemetry and to the attack chain. |
| DraftAcceptance.RedGradingOk | services/ai/app/domain.py:660-706 | Red keys refer only to generated options and to the attack chain. |
| DraftAsks.BlueAsks | services/ai/app/domain.py:638-662 | A blue draft asks for its six signals in the order of the attack and for the first techniques of the chain, for 100 points in all. |
| DraftAsks.RedAsks | services/ai/app/domain.py:660-706 | A red draft's keys: safe enumeration, the three kinds of evidence, the first technique, and a rubric of its own for each text. |
| DraftAsks.RedOffers | services/ai/app/domain.py:660-706 | The options of a red draft are those of the key and the wrong ones. |
| DraftAsks.DraftAsksThese | services/ai/app/domain.py:37-246 | A draft asks its team's questions about its team's attack chain, and only blue drafts hold telemetry. |
| DraftAsks.DraftSignals | services/ai/app/domain.py:538-628 | The signals of a blue draft, in the order of the attack. |
| DraftAsks.RedWords | services/ai/app/domain.py:660-706 | Each kind of red question has its own prompt and each option its own label. |
| DraftAsks.DraftRefusedIff | services/ai/app/domain.py:37-60 | A draft is refused exactly for a short title, a short prompt, an unknown team, or kinds of questions that are not the team's. |
| DraftAsks.CvesListed | services/ai/app/domain.py:61-68 | The draft lists, in capitals, exactly the identifiers of the request that start like a CVE. |
| DraftAsks.OpeningSays | services/ai/app/domain.py:428-535 | The opening lesson says the title, the prompt, the summary and every CVE listed. |
| DraftAcceptance.SignalEventsOk | services/ai/app/domain.py:538-628 | The generated signals are valid, different, and free of answer material. |
| DraftAcceptance.LearningOkIff | services/ai/app/domain.py:428-535 | Only the opening lesson can break the learning rules, by its length. |
| DraftContract.DraftAcceptedIff | services/ai/app/domain.py:37-246 | A draft passes the contract for its request exactly when team is in normal form, prompt is trimmed, at most twenty well-formed CVE identifiers are listed and the opening lesson fits. The hash only has to tell the prompt from its trimmed form. |
| AcceptedPackages.OrdinaryDraftAccepted | services/ai/app/domain.py:37-246 | Under any hash that prints digests an ordinary request of either team gets a draft and the contract accepts it. |
| AcceptedPackages.SpacedDraftRefused | services/ai/app/content_contract.py:117-119 | The same request with one space before the prompt gets a draft that the contract refuses, unless the hash confuses the two prompts. |
| DraftContract.OpeningFits | services/ai/app/main.py:37-44 | Within the endpoint's limits the opening lesson always fits. |
| DraftContract.FewTypes | services/api/src/input.ts:217-219 | Requests without repeated types ask for at most four. |
| DraftContract.DraftEndToEnd | services/ai/app/domain.py:37-246 | A draft for a conforming request without repeated types is accepted, taken over by the API, and answered from its keys for 100, under any hash that prints digests. |
| BlueTelemetry.SeededRandom.Next | services/api/src/blue-telemetry.ts:468-477 | Each number advances the accumulator by the constant and is a fraction of it in [0, 1). |
| BlueTelemetry.ExpandBlueTelemetryEvents | services/api/src/blue-telemetry.ts:119-180 | The map, the random sequence, the sort and the numbering give exactly the specified corpus. |
| TelemetryCorpus.ExpandsIff | services/api/src/blue-telemetry.ts:119-156 | Expansion succeeds exactly for valid plans and seeds whose distinct identifiers fit into the requested number. |
| TelemetryCorpus.SortedAndNumbered | services/api/src/blue-telemetry.ts:156-180 | Exactly the requested number of events, in order of time and identifier, numbered from 0 and stamped with their identifier. |
| TelemetryCorpus.EachOnceIff | services/api/src/blue-telemetry.ts:128-160 | The corpus holds every seed, profile and background identifier and no other; each exactly once precisely when no seed uses a generated background identifier. |
| TelemetryCorpus.ClashRepeatsAnIdentifier | services/api/src/blue-telemetry.ts:295 | For any plan and seeds, a seed named evt-00001 is in the corpus exactly twice when there is room for a background event, and once otherwise. |
| TelemetryCorpus.TimesListed | services/api/src/blue-telemetry.ts:128-160 | How often any identifier occurs: once for being a seed's or the profile's, and once more for being a generated background identifier. |
| TelemetryCorpus.OneSeedClashes | services/api/src/blue-telemetry.ts:128-160 | One such seed is enough, with any document and any valid plan. |
| TelemetryCorpus.TimesWithinWindow | services/api/src/blue-telemetry.ts:284-303 | Every timestamp lies between anchor minus range and anchor, for every legal range. |
| TelemetryCorpus.BackgroundKeepsOrder | services/api/src/blue-telemetry.ts:155-160 | Every generated background event has a place in the corpus, and the places ascend in the order of generation: the background is a subsequence. |
| TelemetryCorpus.SignalsAre | services/api/src/blue-telemetry.ts:124-148 | One signal per distinct identifier, none more than fourteen minutes before the anchor. |
| TelemetryCorpus.MergeAt | services/api/src/blue-telemetry.ts:483-492 | The overlay wins wherever it has a value that is not a record; what it does not mention stays. |
| TelemetryCorpus.MergeTwice | services/api/src/blue-telemetry.ts:483-492 | Applying the same overlay twice is applying it once. |
| SeedDocuments.SeedKept | services/api/src/blue-telemetry.ts:128-148 | A seed whose identifier nobody else uses is in the corpus with its own document, at every path outside the stamped records and with its own event members, at its own time. |
| SeedDocuments.SeedLaidOver | services/api/src/blue-telemetry.ts:128-148 | For every identifier the leaf values of its last seed are in the event, whoever used it before. |
| SeedDocuments.UnmentionedKept | services/api/src/blue-telemetry.ts:128-148 | Of two seeds with one identifier, what the first has and the second does not mention is still there. |
| SeedDocuments.AllStamped | services/api/src/blue-telemetry.ts:160-180 | Every event carries its identifier, its place, the anchor and the generator's name. |
| SeedDocuments.StagesInOrder | services/api/src/blue-telemetry.ts:183-282 | The six stages of the PowerShell profile happen in their order at fixed times of the last thirteen minutes, unless a seed takes one over. |
| SeedDocuments.BackgroundInItsSlot | services/api/src/blue-telemetry.ts:284-303 | Every background event lies in its own one of equally long slots of the range, at most two and a half seconds into it, and has a known category. |
| SeedDocuments.KindShares | services/api/src/blue-telemetry.ts:295-302 | Of a hundred percentiles 23 mean authentication, 24 processes, 19 the network, 13 files, 14 the web and 7 PowerShell. |
| SeedDocuments.DrawsTaken | services/api/src/blue-telemetry.ts:284-303 | The first draw places an event, the second decides its kind in whole percents shifted by 37 from event to event, and its contents take one draw more, or two. |
| SeedDocuments.ExpandsInNumbers | services/api/src/blue-telemetry.ts:119-160 | Expansion takes exactly 100 to 5000 events over 15 to 240 minutes, plain identifiers and record documents, with no more identifiers than events. |
| SeedDocuments.KnownDraws | services/api/src/blue-telemetry.ts:468-477 | The first numbers drawn from state zero. |
| Reporting.RankUsers | packages/reporting/src/index.ts:592-638 | The accumulating loops and the running rank give exactly the specified board. |
| Reporting.AssignRanks | packages/reporting/src/index.ts:631-637 | The running rank moves on only when the points change. |
| Rankings.CompetitionRank | packages/reporting/src/index.ts:631-637 | Every rank is one more than the number of entries with strictly more points. |
| Rankings.ListedExactly | packages/reporting/src/index.ts:600-630 | The board lists exactly the users with positive points, each with that user's totals. |
| Rankings.RankingIgnoresOrder | packages/reporting/src/index.ts:592-638 | With unique handles the board is the same for every order of users and evidence. |
| Reporting.Ranking | packages/reporting/src/index.ts:197-275 | Filters the eligible users, ranks them in both windows, shows how each place changed and sums up for the viewer; fails exactly for an organization board without an organization. |
| Rankings.BoardListsExactly | packages/reporting/src/index.ts:224-229 | A board lists exactly the users with positive points who opted in, or who belong to the organization, one entry each with that user's totals. |
| Rankings.NotEligibleNotListed | packages/reporting/src/index.ts:224-229 | A user who did not opt in is nowhere on the global board, and only members are on an organization's. |
| Rankings.OthersLeaveNoTrace | packages/reporting/src/index.ts:224-229 | Who is not eligible leaves no trace: datasets with the same eligible users and the same evidence of theirs give the same board. |
| Rankings.ChangeMeans | packages/reporting/src/index.ts:230-238 | The change shown is the previous rank less the current one, and 0 for users who were not on the previous board. |
| PublishedBoards.GlobalBoard | packages/reporting/src/index.ts:224-228 | A user is on the global board exactly after opting in and scoring. |
| PublishedBoards.OrganizationBoard | packages/reporting/src/index.ts:224-228 | A user is on an organization's board exactly as a member who scored. |
| PublishedBoards.OnlyUsers | packages/reporting/src/index.ts:224-228 | Nobody is on a board who is not a user with the right to be there. |
| PublishedBoards.OneMoreItem | packages/reporting/src/index.ts:592-620 | One more item of evidence counts for its own user only, exactly when it is valid and was completed in the window: one lab more, and its season score. |
| PublishedBoards.NothingYet | packages/reporting/src/index.ts:592-620 | Without evidence all totals are zero, so the previous row determines them. |
| PublishedBoards.AccuracyIs | packages/reporting/src/index.ts:600-626 | The accuracy is the percentage of the plain points that count, without bonus or penalty. |
| PublishedBoards.PercentMeans | packages/reporting/src/index.ts:693-696 | Percentages are rounded, kept between 0 and 100, and 0 where there is no maximum. |
| PublishedBoards.BoardOrder | packages/reporting/src/index.ts:627-637 | More points come first, then more labs, then the handle; equal points share a rank and fewer points rank lower. |
| PublishedBoards.PeriodsAre | packages/reporting/src/index.ts:640-651 | Weekly and monthly boards reach back 7 and 30 days; the all-time board holds everything up to now. |
| PublishedBoards.SeasonsReplace | packages/reporting/src/index.ts:217-222 | A running season replaces the period, and the board before it covers as long a time. |
| PublishedBoards.TopPercentMeans | packages/reporting/src/index.ts:431-435 | The share shown is the rank's percentage to one decimal, and at least 0.1. |
| PublishedBoards.DaysAre | packages/reporting/src/index.ts:353-375 | Active days are UTC days of 24 hours. |
| Reporting.ViewerSummary | packages/reporting/src/index.ts:384-449 | Recomputes the viewer's totals and both streaks from the evidence and takes only the rank from the board. |
| Rankings.ViewerAgreesWithBoard | packages/reporting/src/index.ts:416-437 | For a ranked viewer the recomputed totals are those of the entry, 1 <= rank <= participants and 0.1 <= share <= 100. |
| Rankings.ScoringViewerIsRanked | packages/reporting/src/index.ts:430 | A listed viewer with positive points always finds a rank. |
| Reporting.LongestStreak | packages/reporting/src/index.ts:353-366 | A run of exactly this many consecutive days exists in the timestamps and none is longer. |
| Reporting.CurrentStreak | packages/reporting/src/index.ts:369-382 | Terminates with the longest run ending today, or yesterday when today is not active. |
| Rankings.CurrentWithinLongest | packages/reporting/src/index.ts:443-447 | The current streak never exceeds the longest one. |
| Rankings.EndingAtIsMaximal | packages/reporting/src/index.ts:369-382 | Exactly the runs up to the current streak end on that day. |
| Rankings.ShiftedTiles | packages/reporting/src/index.ts:538-541 | The window before a season is adjacent, equally long and disjoint. |
| Rankings.PeriodsTile | packages/reporting/src/index.ts:640-651 | Current and previous period are disjoint; weekly and monthly ones also adjacent and equally long. |
| Rankings.DeltaCountsOnce | packages/reporting/src/index.ts:213-222 | No evidence counts on both sides of the points delta. |
| Reporting.SumEvidencePoints | packages/reporting/src/index.ts:319-332 | Adds exactly the skills of the domain that have a positive maximum. |
| SeasonPolicy.SeasonScoreBounds | packages/reporting/src/index.ts:280-289 | For points within their maximum, 0 <= score <= round(1.2 * base). |
| SeasonPolicy.SeasonScoreMonotone | packages/reporting/src/index.ts:280-305 | The rounded score never falls with more points and never rises with more hints or a longer or missing time. |
| SeasonPolicy.TimeBonusIs | packages/reporting/src/index.ts:292-299 | A fifth more within half the allotted time, tapering linearly to nothing at its end. |
| SeasonPolicy.FullMarksFloor | packages/reporting/src/index.ts:280-305 | Full marks are worth at least the base less the hint penalty, and never less than four fifths of the base. |
| PublishedBoards.Tiers | packages/reporting/src/index.ts:280-289 | Full marks are worth 100, 250 or 500 by difficulty. |
| PublishedBoards.FastTiers | packages/reporting/src/index.ts:292-299 | A fifth more when solved in half of the time. |
| PublishedBoards.HintedTiers | packages/reporting/src/index.ts:302-305 | A fifth less with five hints or more. |
| PublishedBoards.OneMoreSkill | packages/reporting/src/index.ts:319-332 | Within a domain one more skill counts exactly when it belongs to the domain and has a positive maximum. |
| OrganizationReports.MediantBound | packages/reporting/src/index.ts:104-147 | The organization's rounded score lies between the lowest and highest score of its members with evidence. |
| OrganizationReports.ReadEvidenceIsMembers | services/api/src/database.ts:1632-1777 | In every dataset read from the tables an organization's evidence belongs to its listed members. |
| OrganizationReports.ReportShows | packages/reporting/src/index.ts:104-147 | The report has one row for each member and nobody else, each with the percentage of that member's points in the organization, and the percentage of all of them on top. |

## Left out

- HTTP, CORS, sessions, tokens, gateways, consent gating and listing endpoints: plumbing around the modelled branches.
- Calls that interleave inside one request: the code awaits between check and write, so the administrative, deploy and replay results are stated for one request at a time.
- RequestHandler.Route: covers nine of the thirteen keyed operations; the two organization-membership operations appear as repository calls only, and lab generation and the build retry are not modelled as requests, since the builder they talk to is outside.
- SubmittedBody.HintsUsed: what `Number` makes of a hint count that is a string, a list or an object is a parameter.
- SubmittedBody.BodyRoundTrip: a surrogate without a partner in a body is read as U+FFFD; list items that are not strings, which no grader looks at, are all alike.
- GradedSubmission.SubmitAnswers: stored evidence and what the grading adapter returns are parameters; for the development adapter they are computed.
- RequestHandler.DeployBranch: what the runtime returns and how many telemetry events that yields are parameters; the events' contents are not followed into the telemetry store.
- Normalization of organization names and slugs, and of result and lab fields that no branch reads: given as parameters.
- Repository.SqliteRepository.CreateLab: keeps owner, organization, status and configuration of a lab; its hidden questions are part of its shape; descriptive columns are not modelled, nor are search and paging.
- Repository.SqliteRepository.SaveValidation: evidence rows keep check and outcome, not their details.
- Registration and onboarding: one step that adds an account, without password, identity or consent columns.
- Seed data for demonstrations, which writes results without score events, and schema migration.
- Negative zero in JSON bodies: prints as zero, so the number model has one zero.
- Numbers too large for a double, and IEEE rounding: numbers are finite decimals in the printer and exact reals in scores.
- `localeCompare`: any total order of strings; for telemetry also one in which numbers of equal width come in numeric order.
- Case mapping and trimming outside ASCII letters and the ECMA-262 and Python white-space sets; comparisons under Python's `re.I` fold ASCII only. Identifiers, techniques and option keys are ASCII wherever a result needs them.
- ContractChecker.ValidateGeneratedContent: the shape of each JSON value (object, list, string) is given by its type here, and one error stands for all messages.
- A stray `questionId` field in hidden questions: dropped by the API before grading.
- DraftGenerator: keyword matching and the Korean texts are parameters whose length and Hangul conditions are assumed; desktop image, access method and log sources do not reach the contract. The build catalog's image and repository names are parameters that meet the contract's patterns, as the catalog loader's stricter patterns imply.
- BlueTelemetry: the contents of background and profile documents beyond identifier, time and category, and date parsing; times are integer milliseconds within the range of a JavaScript date.
- BlueTelemetry.ExpandBlueTelemetryEvents: the random state after hashing the seed is a parameter.
- Reporting: organization names, primary domains, organization rankings, skill trends and activity dates, which repeat the same sums over other filters; members of a report keep their input order.
- OrganizationReports.MediantBound: needs all evidence of the organization to be its members'; the repository's dataset satisfies that.
- Infrastructure checks, capture analysis, vulnerability feeds, catalogs, publish policy and the runtime-contract parser: long conjunctions without state.
- The skill keys of graded runs and those of ranking domains do not meet in the code, so a domain filter finds no points from graded runs; nothing is claimed about it.
