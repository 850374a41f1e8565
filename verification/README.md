# The registry's release protocol, modelled and proved

A plugin registry accepts releases from publishers, decides which go live without a human, lets
reviewers decide the rest, and serves an index of the live ones. This project models that as a Dafny
program and proves what the design promises of it.

## What is modelled

- **The database** (`Tables`). One mutable `Store` whose fields are the tables: accounts, plugins,
  releases in insertion order, idempotency keys, grants, trust tiers and the audit log. Its methods are the
  SQL statements, each with the schema's constraints as the reason it may refuse. `Db` is the value of
  the tables at one moment.
- **The operations** (`Publishing`, `Reviewing`, `Ownership`, `Seeding`, `Catalogue`). Each transaction is
  a method that changes the store step by step, proved equal to a function on `Db`: the new database when
  it commits, the old one and an error when it does not.
- **The interleaving** (`Protocol`). A publish is seven reads, a fetch with any outcome and a commit, and
  a re-verification is a read, a fetch and a commit. Calls in flight hold what they have read. Between any
  two of their steps every other transaction may run. `Run` folds a sequence of steps; `Reachable` is what
  some run from the empty database leads to. `Schedules` proves that the machine and the methods agree on
  a call whose steps run with nothing in between.
- **The invariants** (`Invariants`, `AuditTrail`, `Commits`) and what follows from them over every run
  (`Safety`, `Progress`), what the present rows say about the past (`History`), and runs that show the results are
  about something (`Witness`).
- **The answers** (`Answers`). For each operation, the exact condition of every answer it can give and the columns
  it writes, stated of the tables and the raw input instead of the functions that specify it.
- **The pure cores**: version comparison (`Versions`, and `Renderings` for what a text is split into), ULIDs (`Ulids`), release notes (`Notes`), submissions
  and the idempotency pre-image (`Submissions`), the index document (`Registry`).

SHA-256, which yields 64 hex characters, and the hostname of a URL are arbitrary functions (`Lib`), so every
theorem holds for all of them. Ids, clock values, random bytes and fetch results are parameters. A string is a
sequence of characters, except in `Ulids`, where each character stands for one byte, as the Go code reads them.

## Where the code does less than it says

Each of these is proved as an exact condition, with an input or a run on which the property fails.

- The epoch of a version is read with `strconv.Atoi`, which accepts a sign, and `v-5000000000000000000!1` is an
  accepted version (`Witness.CyclingVersionsPass`). Two epochs of different sign can be further apart than 64 bits
  hold, and then `compareVersions` answers the wrong way round (`Versions.CompareIsTheOrder`), so "higher" has a
  cycle (`Versions.HigherHasACycle`). The listing moves forward without a human exactly when neighbouring epochs fit
  (`Progress.ClimbsExactlyWhenFits`), which they do when no submitted version has a negative epoch
  (`History.PlainVersionsClimb`), that is, when none starts with `v-` (`History.NegativeEpochShows`).
- A trailing `.0` is ignored on every all-numeric version but one that ends in a dot
  (`Versions.TrailingZeroIsIgnored`): `1.` and `1..0` are accepted and unordered (`Witness.DottedVersionsAreUnordered`).
- The guard against removing the last owner counts maintainers too (`Progress.OwnerRoleSurvives`,
  `Progress.LastOwnerCanLeave`); `Witness.AnOwnerLeaves` is a run in which nobody can manage a plugin any more.
- The document's validator accepts a name or a version that starts with NUL, and the schema's length CHECK does not
  (`Seeding.ImportSucceeds`, `Seeding.NulNameIsRefused`, `Seeding.NulVersionIsRefused`). The CHECK on idempotency keys
  reads a NUL the same way (`Safety.OnlyIdCollisionsAreRefused`).

## Model

| member | source | states |
|---|---|---|
| Safety.PublishLinearises | internal/release/publish.go:232-279 | In every interleaving, a publish that commits an approved release did exactly what the whole call would have done run alone at the moment of its commit; the decision, the trust and the grant it rested on are the current ones |
| Safety.GoesLiveExactlyWhen | internal/release/publish.go:339-517 | A fetched publish goes live at its commit if and only if it decided to, the live release, trust and grant are still as the decision needs them, and neither key, version nor id has been used (a key that starts with NUL counts as empty and is never accepted) |
| Safety.PrevIsLive | internal/release/publish.go:449-466 | Re-checking only the version of the live release is enough: the row it names is the row the comparison was made against, its url and size included |
| Safety.LiveIsNeverGone | internal/release/publish.go:451-457 | An automatic publish is never stopped for want of a live release: that branch cannot be reached |
| Safety.ListingNeverRollsBack | internal/release/publish.go:468-484 | Over any run a live plugin stays live, and its live release is only ever replaced by one submitted later |
| Safety.FirstReleaseMeansNeverApproved | internal/review/queue.go:154-191 | The queue's first-release mark (no approved release now) holds if and only if no state of the whole history had an approved release of the plugin |
| Safety.LogDeterminesState | internal/release/publish.go:497-504 | In every reachable state, folding the audit log over the imported releases gives exactly the state of every release, and nothing for an id that names none |
| Safety.OneKeyOneRelease | internal/release/publish.go:725-742 | Two successful answers to one account and key name one release and answered one request hash, and one submission as far as SHA-256 tells their texts apart |
| Safety.KeysAndReleasesPair | internal/release/publish.go:481-512 | Keys and published releases are in one-to-one correspondence: neither row exists without the other, and the key belongs to the account that published |
| Safety.AnswersStand | internal/release/publish.go:750-773 | The release a successful answer named is still what its key stands for, and still in the table, after any further run |
| Safety.OnlyIdCollisionsAreRefused | internal/release/publish.go:481-512 | In a reachable state the recording transaction violates a schema constraint, the account and plugin foreign keys and every CHECK included, if and only if every check passed and the minted id is already a release's or the key starts with NUL |
| Safety.DecisionsAreNeverRefused | internal/review/queue.go:229-269 | In a reachable state an approval violates a schema constraint if and only if it is in order in every other way and the reviewer is no account |
| Safety.SignedInAreNeverRefused | internal/review/reverify.go:92-127 | In a reachable state no rejection, re-verification, trust change, delisting or relisting by an account violates a schema constraint, and no change of owners by anybody does |
| Safety.ClaimsAreNeverRefused | internal/ownership/claim.go:83-138 | In a reachable state a claim of a well-formed id violates a schema constraint if and only if it is in order and the claimant is no account |
| Safety.DecidedIsFrozen | internal/store/sqlitegen/review.sql.go:430-458 | Over any run everything submitted is frozen, as is a stored hash, size or verification time, and a release that has left pending changes in no column, except that an approved one may become superseded |
| History.HowRowsMove | internal/release/publish.go:225-279 | The whole list of what any step of any interleaving does to a release row: leave it, retire it, decide it as the named reviewer did, fill a blank, or append the one row a publish commits or those an import writes |
| History.GoesLiveOnlyBy | internal/release/quarantine.go:94-131 | A step that makes a release live is an import, the approval of that release by the reviewer it records, or the commit that inserts it over a live release it is higher than, its submitter trusted and holding the plugin at that moment; there is no other way |
| History.FirstLiveIsHuman | internal/release/quarantine.go:107-111 | In every run the first release of a plugin ever to be live was let in by a human at that very step |
| History.LiveHasFirstStep | internal/release/quarantine.go:107-111 | A plugin that is live after a run has such a first step |
| History.AutomaticHasItsCommit | internal/release/publish.go:371-466 | In every run each release noted as published automatically has the commit in that run that wrote it, at which its submitter was trusted and held the plugin and a lower release was live |
| History.AutomaticServesWhatWasClaimed | internal/release/publish.go:314-336 | In every run each automatically published release serves the digest that the fetch of its own call returned, and that digest is the one its submitter claimed |
| History.StoredHashesWereComputed | internal/release/publish.go:529-579 | In every run each stored hash is that of an imported listing, or was computed, with its size and time, by a fetch of the call that wrote or filled the row; a claimed digest is never stored |
| History.SubmittersMayPublish | internal/release/publish.go:781-831 | In every run whoever submitted a published release is an account that may publish, and still is |
| History.WentLiveMeansWasApproved | internal/store/sqlitegen/review.sql.go:501-522 | In every run the columns of a row say that it went live if and only if some earlier state of the run had it approved |
| Safety.EarliestLiveRowIsHuman | internal/release/quarantine.go:107-111 | Of the rows of a plugin whose columns say they went live, the earliest was imported or approved by a reviewer |
| Safety.AutomaticNeedsTrustAndPredecessor | internal/release/publish.go:371-466 | A commit that answers approved found the submitter trusted and holding the plugin, fetched bytes whose digest is the one submitted, stored that digest, and replaced a live release the new one is higher than |
| Progress.StepAdvances | internal/release/publish.go:449-466 | One step by anybody, short of a human approving the plugin, leaves its live release or replaces it by one that compares higher, which is ahead of it if and only if the two epochs fit 64 bits and behind it otherwise |
| Progress.ClimbsExactlyWhenFits | internal/release/publish.go:449-466 | Every replacement in a stretch without a human approval moves the listing forward if and only if every two neighbouring live versions have epochs that fit |
| Progress.LiveVersionsClimb | internal/release/version.go:48-81 | Over any stretch of a run without a human approval, in which neighbouring live versions have epochs that fit 64 bits, the last live version is the first one or strictly ahead of it; the comparison of the two says "higher" if and only if their epochs fit |
| History.PlainVersionsClimb | internal/release/version.go:48-81 | If nothing with a negative epoch is live at the start, in flight or submitted, the live version of such a stretch only rises, and the comparison of the last with the first says higher |
| History.NegativeEpochShows | internal/release/version.go:106-118 | An accepted version has a negative epoch only if it starts with v- |
| Progress.HeldStaysHeld | internal/ownership/ownership.go:266-302 | Once a plugin has a grant it has one in every later state |
| Progress.OnlyOwnersChangeHolders | internal/ownership/ownership.go:361-375 | Over any run, with anything interleaved, who holds a plugin and at which role changes only by an owner adding or removing somebody, the claim of the id, or an imported grant |
| Progress.OutsidersChangeNothing | internal/ownership/ownership.go:361-375 | Any number of owner changes attempted by accounts without an owner-role grant changes nothing at all in the machine |
| Progress.OwnerRoleSurvives | internal/store/sqlitegen/ownership.sql.go:12-21 | The last-owner guard counts grants of every role: a removal leaves an owner-role grant if and only if the caller removed somebody else or is not the only owner |
| Progress.LastOwnerCanLeave | internal/ownership/ownership.go:266-302 | A sole owner who shares a plugin with a maintainer can remove themself, after which no sequence of owner changes has any effect |
| Progress.IndexAlwaysRenders | internal/registry/index.go:138-186 | In every reachable state the catalogue is readable, every listing passes the client's rules, and the document is the listings in strictly increasing id order |
| Progress.CountsAddUp | internal/plugin/catalogue.go:94-126 | In every reachable state the directory's listed, awaiting and delisted counts partition the plugins, listed is the length of the index, and the page is an in-order part of it, all of it for the empty query |
| Progress.ExportedCatalogueComesBack | internal/plugin/seed.go:112-161 | The catalogue of any reachable state, imported into an empty database, is served again unchanged |
| Progress.LaterImportsWriteNothing | internal/plugin/seed.go:123-144 | Once there is a plugin, importing any seed after any run writes nothing |
| Protocol.NextKeeps | internal/release/publish.go:225-279 | Every step of every interleaving keeps the database invariants, what each call in flight relies on and the answers given, and only evolves the database |
| Protocol.RunKeeps | internal/release/publish.go:225-279 | The same over whole runs |
| Protocol.ReachableOk | internal/release/publish.go:225-279 | The invariants hold in every state reachable from the empty database |
| Protocol.PrevStays | internal/release/publish.go:886-903 | What a publish read of the live release before its fetch still describes a frozen row after anybody else's step |
| Protocol.CallStepKeeps | internal/review/reverify.go:64-127 | Every read, fetch result and commit of a publish or a re-verification keeps the invariants |
| Schedules.UninterruptedPublish | internal/release/publish.go:232-279 | The steps of one publish scheduled with nothing in between leave the database and give the answer that the method Publish does, on every path, and disturb no other call |
| Schedules.UninterruptedReverify | internal/review/reverify.go:64-127 | The same for a re-verification |
| Witness.AutomaticPublishHappens | internal/release/publish.go:232-279 | For every hash and host function, a run of thirteen steps from the empty database ends in an automatic publish that answers approved |
| Witness.AnOwnerLeaves | internal/ownership/ownership.go:266-302 | A run reaches a sole owner beside a maintainer, who removes themself and leaves a plugin nobody can manage |
| Witness.DottedVersionsAreUnordered | internal/release/version.go:61-80 | `1.` and `1..0` are accepted versions that compare unknown |
| Witness.CyclingVersionsPass | internal/release/submission.go:187-198 | The three versions of the cycle are accepted versions |
| Commits.RecordKeeps | internal/release/publish.go:339-517 | The recording transaction keeps every invariant whatever its result |
| Commits.CommittedMeans | internal/release/publish.go:371-466 | A recording transaction that succeeds passed every check; the row it appended carries the submission's columns and the hash, size and time that were computed, or none of the three after a failed fetch |
| Commits.ApproveKeeps | internal/review/queue.go:220-290 | An approval keeps every invariant and only moves the listing forward |
| Commits.RejectKeeps | internal/review/queue.go:293-342 | A rejection keeps every invariant |
| Commits.ReverifyKeeps | internal/review/reverify.go:142-186 | Recording a verification keeps every invariant, whatever was read before the fetch |
| Commits.ImportKeeps | internal/plugin/seed.go:112-161 | An import of any seed keeps every invariant whatever its result |
| Commits.AddKeeps | internal/ownership/ownership.go:198-259 | Adding an owner keeps every invariant |
| Commits.RemoveKeeps | internal/ownership/ownership.go:266-302 | Removing an owner keeps every invariant |
| Commits.ImportGrantKeeps | internal/ownership/seed.go:186-237 | An imported grant keeps every invariant |
| Commits.ClaimKeeps | internal/ownership/claim.go:83-138 | A claim keeps every invariant |
| Commits.SetTrustKeeps | internal/release/trust.go:115-170 | A change of trust keeps every invariant |
| Commits.DelistKeeps | internal/review/plugins.go:265-313 | Delisting keeps every invariant and leaves the releases alone |
| Commits.RelistKeeps | internal/review/plugins.go:324-368 | Relisting keeps every invariant and leaves the releases alone |
| Commits.RecordedKeys | internal/release/publish.go:498-507 | Adding the key and its release together keeps the one-to-one correspondence |
| Commits.DecideIsOk | internal/release/publish.go:849-868 | A decision on any fetch in range is one the table can record: approved rows carry a hash and the automatic note |
| AuditTrail.RecordedKeepsLog | internal/release/publish.go:597-689 | The publish row and one row for each retired release account for every state change of a commit |
| AuditTrail.DecisionKeepsLog | internal/review/queue.go:271-284 | The row of a reviewer's decision accounts for the release decided and the one it retired |
| AuditTrail.ImportKeepsLog | internal/plugin/seed.go:146-155 | Imported releases need no row of their own: they start approved |
| AuditTrail.NeutralKeepsLog | internal/audit/audit.go:76-118 | A row about anything but a release's state changes no release's replayed state |
| Answers.ApproveAnswers | internal/review/queue.go:220-290 | In every reachable state an approval succeeds if and only if the trimmed note fits, a release of that id is pending and verified and the reviewer is an account; each refusal has its exact condition too |
| Answers.ApproveSays | internal/review/queue.go:243-284 | It answers the plugin and version of the row and the id of the release that was live, and logs these with the hash and the note |
| Answers.RejectAnswers | internal/review/queue.go:293-342 | The exact condition of every answer of a rejection |
| Answers.RejectSays | internal/review/queue.go:305-336 | A rejection records the reviewer, the time and the trimmed reason in the row, and the reason in the log |
| Answers.ReverifyAnswers | internal/review/reverify.go:64-127 | The exact condition of every answer of a re-verification in a reachable state |
| Answers.ReverifyFills | internal/review/reverify.go:142-186 | One that reads the bytes leaves that row, and no other, with the hash, size and time computed; one that fails leaves every row; each is logged with its digest or its failure |
| Answers.SetTrustAnswers | internal/release/trust.go:115-170 | The exact condition of every answer of a trust change, and the old and new tier in its log row |
| Answers.DelistAnswers | internal/review/plugins.go:265-313 | The exact condition of every answer of a delisting; the log row names the version that was live, or none |
| Answers.RelistAnswers | internal/review/plugins.go:324-368 | The same for a relisting; the log row quotes the reason of the delisting |
| Answers.AddAnswers | internal/ownership/ownership.go:198-259 | The exact condition of every answer; the role asked for goes to the account asked for and to nobody else |
| Answers.RemoveAnswers | internal/ownership/ownership.go:266-302 | The exact condition of every answer; the last-owner guard fires when nobody but the caller has a grant |
| Answers.ClaimAnswers | internal/ownership/claim.go:83-174 | The exact condition of every answer; the plugin stored has the trimmed fields |
| Answers.ImportGrantAnswers | internal/ownership/seed.go:186-237 | An imported grant that exists is left alone; a new one is at owner role and logged as the system's |
| Answers.RecordAnswers | internal/release/publish.go:371-466 | For a call in flight in a reachable state the transaction answers the first of six refusals that applies, stated of the tables, and otherwise succeeds unless the id is taken or the key is empty to SQL |
| Answers.ACommitWrites | internal/release/publish.go:449-513 | A commit retires the waiting releases and, when it goes live, the live one, appends a row with what was submitted and computed, adds the key, and touches no table but these and the log |
| Answers.ACommitSays | internal/release/publish.go:486-513 | It answers the columns it stored, the id of the live release it replaced and the ids of those it retired while they waited |
| Answers.ACommitLogs | internal/release/publish.go:597-689 | It logs one row for each release retired while it waited, with that release's version and the new one, and then the publish with its reasons |
| Answers.PublishAnswers | internal/release/publish.go:225-279 | For a call with nothing in between, each of six refusals has its exact condition, and two answers are never given: that the live release changed, and that the key was raced |
| Answers.ReplaySays | internal/release/publish.go:725-773 | In a reachable state a repeated key whose request is unchanged is answered with the present state, hash, size and note of its release, and writes nothing |
| Answers.NewSubmissionSays | internal/release/submission.go:110-184 | A submission is accepted if and only if its trimmed fields have the accepted shapes, each refusal names the first that has not, and what comes out is those trimmed fields |
| Answers.NotesSay | internal/release/notes.go:46-74 | Margins of blanks are ignored, and what is left is returned unchanged unless it holds a control character or is too long |
| Answers.ListingsSay | internal/store/sqlitegen/plugin.sql.go:334-351 | A listing is in the index if and only if it has the columns of an approved release and the metadata of its plugin, which is not delisted |
| Answers.CountsSay | internal/plugin/catalogue.go:94-126 | In a reachable state each count is that of its own plugins: with a live release, without one, and delisted |
| Answers.QueryFinds | internal/store/sqlitegen/plugin.sql.go:616-637 | A listing is on the page if and only if its id, name, description or author holds the query, ASCII case aside |
| Answers.ImportAnswers | internal/plugin/seed.go:112-161 | When an import is invalid, skipped because plugins exist, skipped because one was made before, or empty, and what a successful one logs |
| Invariants.SubmittedKeepsTable | db/migrations-sqlite/20260820142711_publish_idempotency_and_verified_hash.sql:5-46 | Recording a submission keeps one approved and one pending release per plugin, one row per version, and every other promise about the table |
| Invariants.DecidedKeepsTable | db/migrations-sqlite/20260824141600_one_pending_release_per_plugin.sql:3 | A reviewer's decision keeps the same promises |
| Invariants.SubmittedKeepsPartialIndexes | db/migrations-sqlite/20260824141600_one_pending_release_per_plugin.sql:3 | After a submission at most one release of a plugin is approved, and a pending one is the newest row of its plugin |
| Invariants.SubmittedKeepsRoots | internal/release/quarantine.go:107-111 | Behind every automatic publish there is still an earlier release of the plugin that a human let in |
| Publishing.Publish | internal/release/publish.go:232-279 | Run with nothing in between, the call does what the specification function says: the same refusals in the same order, a replay for a key seen before, one transaction otherwise |
| Publishing.Record | internal/release/publish.go:339-517 | The transaction, and when it lost the race for its key the winner's release as the answer |
| Publishing.CommitRecord | internal/release/publish.go:371-513 | The transaction commits everything or restores the database it began with, and answers as specified |
| Publishing.NotRaced | internal/release/publish.go:413-427 | A key that is free when the transaction looks is raced by nobody, and a transaction that fails writes nothing |
| Publishing.RecordBody | internal/release/publish.go:371-513 | The checks made again inside the transaction, in order: grant, blocked, narrowed trust, key, version, live release |
| Publishing.WriteRelease | internal/release/publish.go:449-513 | The writes of a commit are the specified new database and outcome, and the row appended stores what was computed and never what was claimed |
| Publishing.PublishRowSays | internal/release/publish.go:529-590 | The row of a publish has the submission's columns, and for hash, size and time those of the fetched bytes, or NULL in all three when the fetch failed |
| Publishing.RetireOthers | internal/release/publish.go:449-484 | The live release and whatever waited are retired, with one log row for each waiting one, before the insert |
| Publishing.RetireWaitingReleases | internal/release/publish.go:650-689 | Exactly the waiting releases of the plugin are superseded, each with its row |
| Publishing.InsertAll | internal/release/publish.go:486-513 | Release, key and log row are inserted together, or the first refusal is reported |
| Publishing.DecideRelease | internal/release/publish.go:849-868 | The decision is approved only when the fetched digest is the submitted one, the plugin is live and the submitter trusted; pending otherwise |
| Publishing.ApprovedMeans | internal/release/publish.go:849-868 | A decision is approved if and only if the submitter is trusted, the plugin is live, the fetched digest equals the submitted one, host and size held still and the version is clearly higher |
| Publishing.VerdictSays | internal/release/publish.go:314-336 | A release counts as verified exactly when the fetched digest is the submitted one; the note names the reasons and the failure of the fetch |
| Publishing.ReasonsAreNamed | internal/release/quarantine.go:94-131 | Each of the seven reasons is given if and only if its own rule fires: a failed fetch, a digest that differs, no live release, another host, a sharp change of size, versions that cannot be compared, a version not higher |
| Publishing.ReasonsAreInOrder | internal/release/quarantine.go:94-131 | The reasons are in the order the reviewer reads them, none of them twice |
| Publishing.EvaluateQuarantine | internal/release/quarantine.go:94-131 | The reasons appended are those of the rules that fire, in reading order |
| Publishing.AppendChangeReasons | internal/release/quarantine.go:113-130 | Host, size and version reasons against the live release, in that order |
| Publishing.NoReasonMeans | internal/release/quarantine.go:94-131 | No rule fires if and only if the bytes were fetched and matched, the plugin is live, host and size held still and the version compares higher |
| Publishing.SizeRuleIsTheRatio | internal/release/quarantine.go:139-154 | On sizes the fetcher can produce, the 64-bit size rule is the ratio it stands for: below half or above one and a half times |
| Reviewing.Approve | internal/review/queue.go:220-290 | An approval goes ahead if and only if the note fits, the release is pending and verified and the row can be approved, and then changes the database as specified; otherwise it changes nothing and gives the error of the first check that fails |
| Reviewing.Reject | internal/review/queue.go:293-342 | The same for a rejection |
| Reviewing.ApproveSucceedsWhen | internal/review/queue.go:220-290 | On any table an approval succeeds if and only if the note fits, the release is pending with a verification time and a hash, and the reviewer is an account, whether or not another release of the plugin is live |
| Reviewing.PendingAt | internal/review/queue.go:345-358 | A release can be decided if and only if it exists and is pending |
| Reviewing.ReverifyRead | internal/review/reverify.go:64-75 | A re-verification may fetch if and only if the release is pending and has no verification time; each refusal has its own condition |
| Reviewing.ReverifySucceedsWhen | internal/review/reverify.go:64-127 | A whole re-verification succeeds if and only if that holds and the reviewer is an account, whatever the fetch brings |
| Reviewing.Reverify | internal/review/reverify.go:64-127 | Run with nothing in between, a re-verification goes ahead exactly for a pending release that was never verified, fills its blank with what was fetched and logs the attempt, or writes nothing |
| Reviewing.RecordVerification | internal/review/reverify.go:92-186 | Only a blank on a release that is still pending is filled; otherwise nothing is written |
| Reviewing.SetTrust | internal/release/trust.go:115-170 | The tier and its log row are written together, or nothing is |
| Reviewing.Delist | internal/review/plugins.go:265-313 | A listed plugin is delisted with a reason and a log row, or nothing is written |
| Reviewing.Relist | internal/review/plugins.go:324-368 | A delisted plugin is listed again with a log row that quotes why it was delisted, or nothing is written |
| Reviewing.ApproveTouchesTwoRows | internal/review/queue.go:243-284 | An approval changes the row decided, as decided, and the live row it retires, and logs once; a refused one changes nothing |
| Reviewing.RejectTouchesOneRow | internal/review/queue.go:305-336 | A rejection changes the row decided and logs once; a refused one changes nothing |
| Reviewing.DecidedOnce | internal/review/queue.go:345-358 | A release that was approved or rejected is no longer pending for any later decision |
| Reviewing.FilledOnce | internal/review/reverify.go:142-186 | A blank is filled once: a second fetch that succeeds is refused and one that fails leaves the releases alone |
| Reviewing.TrustIsWhatWasSet | internal/release/trust.go:115-185 | A tier that was set is the tier read, nobody else's changed, and a refused change writes nothing |
| Reviewing.RelistUndoesDelist | internal/review/plugins.go:324-368 | Relisting restores the plugins exactly, touches nothing but the log, and quotes the reason of the delisting |
| Ownership.Add | internal/ownership/ownership.go:198-259 | A grant is added by an owner to a live account that has none, or nothing is written |
| Ownership.Remove | internal/ownership/ownership.go:266-302 | A grant is removed by an owner unless it is the last, or nothing is written |
| Ownership.ClaimID | internal/ownership/claim.go:83-174 | A free id becomes a plugin with its claimant as owner, or nothing is written |
| Ownership.RemoveUndoesAdd | internal/ownership/ownership.go:266-302 | Removing who was just added restores the grants and is never refused to the owner who added them |
| Ownership.RemoveTakesOneGrant | internal/ownership/ownership.go:266-302 | A removal takes one grant away and leaves every other; a refused one writes nothing |
| Ownership.ClaimedOnce | internal/ownership/claim.go:83-138 | An id is claimed once: its claimant manages it, and nobody can claim it again |
| Seeding.ImportSeed | internal/plugin/seed.go:112-161 | An import writes the whole seed into an empty, never seeded database, or writes nothing and says why |
| Seeding.ImportEach | internal/plugin/seed.go:146-150 | The loop stops at the first listing refused |
| Seeding.ImportOne | internal/plugin/seed.go:163-227 | One listing becomes one plugin and one approved imported release, with its notes normalised |
| Seeding.ImportSucceeds | internal/plugin/seed.go:163-227 | A valid catalogue goes into an empty database if and only if every listing has acceptable notes and neither a name nor a version that starts with NUL, which the schema takes for empty |
| Seeding.NulNameIsRefused | db/migrations-sqlite/20260818210309_initial_schema.sql:13 | A listing whose name starts with NUL passes the document's validator, and its import is refused and leaves nothing |
| Seeding.NulVersionIsRefused | db/migrations-sqlite/20260820142711_publish_idempotency_and_verified_hash.sql:29 | The same for a version that starts with NUL |
| Seeding.ImportedIndex | internal/plugin/seed.go:112-161 | After an import the index is the imported document with its notes in normal form |
| Seeding.SeedRoundTrip | internal/plugin/seed.go:112-161 | An exported catalogue imported into an empty database is the catalogue served |
| Catalogue.Listings | internal/plugin/catalogue.go:38-58 | The listings are the joined rows, each rendered, or an error when an approved row has no hash |
| Catalogue.Browse | internal/plugin/catalogue.go:94-126 | The page and the three counts, read from one state |
| Catalogue.RenderRows | internal/plugin/catalogue.go:38-58 | Rows are rendered in order, and one that cannot be fails the whole list |
| Catalogue.FoldInPlace | internal/plugin/catalogue.go:136-144 | The byte buffer is lower-cased in place, A to Z only |
| Catalogue.RowsComeFromReleases | internal/store/sqlitegen/plugin.sql.go:334-351 | Every row of the join comes from an approved release of a plugin that is not delisted |
| Catalogue.ReleasesHaveRows | internal/store/sqlitegen/plugin.sql.go:334-351 | Every approved release of a plugin that is not delisted has its row |
| Catalogue.ListingsIncrease | internal/store/sqlitegen/plugin.sql.go:334-351 | With one approved release per plugin the rows are strictly increasing by id and as many as are counted |
| Catalogue.ListedCountIsIds | internal/store/sqlitegen/plugin.sql.go:12-25 | With one approved release per plugin, counting joined rows counts plugins |
| Catalogue.CatalogueAccounting | internal/store/sqlitegen/plugin.sql.go:12-25 | Listed, awaiting and delisted add up to the number of plugins, and listed is the number of listings |
| Catalogue.MatchingIsSubList | internal/store/sqlitegen/plugin.sql.go:616-637 | A search keeps, in order, exactly the rows that match, and the empty needle matches all |
| Catalogue.BrowseAgreesWithIndex | internal/plugin/catalogue.go:94-126 | A page is an in-order part of the index, and all of it for the empty query |
| Registry.NewIndex | internal/registry/index.go:138-148 | The document is the listings sorted by id, built on a copy, exactly when they pass validation, and the error is otherwise that of the first offending listing in sorted order |
| Registry.Validate | internal/registry/index.go:152-186 | The problem reported is that of the first listing in document order that has one |
| Registry.NoProblemMeans | internal/registry/index.go:152-186 | No problem is reported if and only if every listing renders and no id repeats |
| Registry.SortInPlace | internal/registry/index.go:139-141 | The copy is sorted in place |
| Registry.InsertLast | internal/registry/index.go:139-141 | One element is moved down to its place and the rest keep their order |
| Registry.NewIndexIsIncreasing | internal/registry/index.go:138-148 | A document is strictly increasing by id and a permutation of what it was built from |
| Registry.SortOfIncreasing | internal/registry/index.go:139-141 | Sorting listings already in order changes nothing |
| Versions.SplitVersion | internal/release/version.go:106-143 | The loop splits a version into epoch, numeric spine and suffix as the recursive parse does |
| Versions.CompareVersions | internal/release/version.go:48-81 | The loop over both spines computes the declarative comparison: first difference decides, missing parts are zero, suffixes that differ are unknown |
| Versions.CompareSpines | internal/release/version.go:61-68 | The loop finds the first difference of the zero-padded spines |
| Versions.BehindIsStrictOrder | internal/release/version.go:48-100 | Zero-padded order on epoch and spine is irreflexive, asymmetric and transitive |
| Versions.CompareIsTheOrder | internal/release/version.go:48-93 | "Higher" and "lower" are that order and its converse if and only if the epoch subtraction does not overflow; when it does, both answers are reversed |
| Versions.SameSignEpochsFit | internal/release/version.go:52-54 | Epochs of one sign never overflow |
| Versions.CompareIsDual | internal/release/version.go:48-93 | "Equal" and "unknown" are symmetric, and "higher" one way is "lower" the other exactly when the subtraction fits both ways or neither |
| Versions.EqualIsCongruence | internal/release/version.go:48-81 | Replacing a version by an equal one changes no answer, so "equal" is transitive |
| Versions.HigherIsTransitive | internal/release/version.go:48-81 | "Higher" is transitive on epochs that fit |
| Versions.SpineSubtractionFits | internal/release/version.go:61-68 | The subtraction of two spine parts never overflows |
| Versions.TrailingZeroIsIgnored | internal/release/version.go:61-100 | A trailing .0 on an all-numeric version changes no answer if and only if the version does not end in a dot |
| Versions.HigherHasACycle | internal/release/version.go:52-54 | Three versions with epochs 0, 5e18 and -5e18 are each "higher" than the one before and lead back to the first |
| Versions.LeadingDigits | internal/release/version.go:146-153 | The longest prefix of digits |
| Renderings.RenderingParses | internal/release/version.go:106-143 | For every list of numbers, of any length and with any leading zeroes, joined by dots, and every suffix that continues neither: the numbers are the spine and the suffix is the suffix, and one number over 64 bits leaves no spine; a leading v changes nothing |
| Renderings.RenderingThenWordParses | internal/release/version.go:120-126 | The same where a dot stands before the suffix, which is dropped |
| Renderings.WordParses | internal/release/version.go:120-126 | A text that starts with no digit has no spine and is all suffix |
| Renderings.EpochParses | internal/release/version.go:110-118 | The number before the first exclamation mark, negative after v-, is the epoch of what follows |
| Renderings.NoEpochParses | internal/release/version.go:112-116 | Anything else before the first exclamation mark leaves the whole text without a spine |
| Renderings.SpaceIsIgnored | internal/release/version.go:107 | Space around a version changes nothing |
| Renderings.NumbersDecide | internal/release/version.go:48-81 | Of two texts of numbers and suffixes the first pair of numbers that differs, with zero for a missing one, decides whatever the suffixes are |
| Renderings.SuffixesDecide | internal/release/version.go:70-80 | Where no pair differs, equal suffixes compare equal and different ones unknown |
| Ulids.EncodeULID | internal/core/ulid.go:104-119 | The accumulator loop, wrapping at 32 bits, fills exactly 26 cells with the base-32 expansion of the 128-bit value |
| Ulids.NewULID | internal/core/ulid.go:42-64 | An id is minted exactly for milliseconds of 48 bits, and encodes those six bytes followed by the ten random ones |
| Ulids.ParseULID | internal/core/ulid.go:67-85 | Accepted are exactly the 26-digit strings whose value fits 128 bits, unchanged, and each refusal is given for its own reason |
| Ulids.IsCrockford | internal/core/ulid.go:90-97 | Scanning the alphabet finds exactly its digits |
| Ulids.AlphabetIsCrockfords | internal/core/ulid.go:19-23 | The alphabet is the ten digits and the capitals without I, L, O and U |
| Ulids.GroupSurvivesWrap | internal/core/ulid.go:104-119 | A five-bit group read from the wrapped accumulator is the group of the unwrapped value |
| Ulids.AbsorbStep | internal/core/ulid.go:109-111 | Shifting in a byte keeps the low 32 bits of the value read so far |
| Ulids.EmitStep | internal/core/ulid.go:112-116 | Each digit emitted extends the text by the next base-32 digit |
| Ulids.EncodingIsBijective | internal/core/ulid.go:67-119 | Two values are equal if and only if their encodings are |
| Ulids.EveryUlidDecodes | internal/core/ulid.go:67-85 | Every accepted string is the encoding of a 128-bit value |
| Ulids.ValueOrder | internal/core/ulid.go:104-119 | Texts of equal length are in string order if and only if their values are in numeric order |
| Ulids.EarlierSortsFirst | internal/core/ulid.go:42-64 | An id of an earlier millisecond is the lexicographically smaller one whatever the random bits |
| Submissions.NewSubmissionValidates | internal/release/submission.go:110-165 | Only a submission with every field valid comes out, whatever went in |
| Submissions.CheckMinimumAppVersion | internal/release/submission.go:172-184 | A minimum app version that is present passes the version check, so it is never empty |
| Submissions.ParseSubmittedDigest | internal/artifact/digest.go:129-135 | A submitted digest that is accepted is 64 lower-case hex characters |
| Submissions.PreimageInjective | internal/release/publish.go:702-717 | Two valid submissions have the same idempotency pre-image if and only if they are the same submission |
| Submissions.JoinNulInjective | internal/release/publish.go:702-717 | A NUL-separated join of NUL-free fields determines the fields |
| Notes.AcceptedAreFixedPoints | internal/release/notes.go:46-74 | The notes accepted are stored forms, and a stored form is exactly a text the validator returns unchanged |
| Notes.SpellingDoesNotMatter | internal/release/notes.go:46-74 | CRLF, CR and LF spellings of one text have one result, accepted or refused |
| Tables.Store.constructor | db/migrations-sqlite/20260818210309_initial_schema.sql:3-27 | A new database is empty |
| Tables.Store.Rollback | internal/store/store.go:166-182 | A transaction that fails leaves the database it began with |
| Tables.Store.InsertRelease | internal/store/sqlitegen/publish.sql.go:243-295 | A row is appended when keys, indexes and CHECKs admit it, and refused otherwise |
| Tables.Store.Supersede | internal/store/sqlitegen/publish.sql.go:371-400 | Every row of the plugin in the given state becomes superseded and no other changes |
| Tables.Store.ApproveRelease | internal/store/sqlitegen/review.sql.go:12-40 | Only a pending row is approved, and not against the index or the hash CHECK |
| Tables.Store.RejectRelease | internal/store/sqlitegen/review.sql.go:473-499 | Only a pending row is rejected |
| Tables.Store.RecordReleaseVerification | internal/store/sqlitegen/review.sql.go:430-471 | Only a blank on a pending row is filled |
| Tables.Store.InsertIdempotencyKey | internal/store/sqlitegen/publish.sql.go:215-241 | A key is inserted once, not empty, and for a release that exists |
| Tables.Store.InsertPlugin | internal/store/sqlitegen/plugin.sql.go:249-275 | A plugin is inserted once and within its CHECKs |
| Tables.Store.DelistPlugin | internal/store/sqlitegen/plugin.sql.go:84-122 | Only a plugin that is listed is delisted |
| Tables.Store.RelistPlugin | internal/store/sqlitegen/plugin.sql.go:582-614 | Only a plugin that is delisted is relisted |
| Tables.Store.InsertPluginOwner | internal/store/sqlitegen/ownership.sql.go:115-137 | A grant is inserted once and for a plugin that exists |
| Tables.Store.DeletePluginOwner | internal/store/sqlitegen/ownership.sql.go:23-44 | A grant is removed and the removal reported |
| Tables.Store.SetAccountTrust | internal/store/sqlitegen/publish.sql.go:339-369 | The tier of one account is set |
| Tables.Store.Record | internal/audit/audit.go:76-118 | One row is appended, unless an account action names no account |
| Tables.RowWithVersion | internal/store/sqlitegen/publish.sql.go:181-213 | A row of the plugin and version, or the knowledge that there is none |
| Tables.LiveRow | internal/store/sqlitegen/publish.sql.go:107-142 | An approved row of the plugin, or the knowledge that there is none |
| Tables.Waiting | internal/store/sqlitegen/publish.sql.go:297-337 | Exactly the pending rows of the plugin |

## Left out

- HTTP, HTML, sessions, tokens, OAuth, command line, logging and health probes are not part of this model.
- The fetcher's network behaviour: a fetch is any failure, or any digest and size within the cap.
- Invalid UTF-8: a string here is a sequence of characters, so the encoding half of the plain-text checks cannot fail.
- `encoding/json` and the wire form of the index and of log details; a log row is a typed event, and the host and hash fields of a publish row's detail are not kept.
- Identity providers: an account row carries a handle, whether it can publish and whether it is disabled.
- Bookkeeping columns that no rule reads, such as claimed_at, granted_at and set_at.
- A ULID that cannot be minted, because the clock is outside 48 bits of milliseconds or the random source fails, ends a call before it writes; recording takes the id as minted. `Ulids.NewULID` says for which times it succeeds.
- Failures of SQLite itself, such as a busy or full disk: a statement is refused only by a constraint.
- An affected-row count is known only as zero or not zero.
- `Outcome.Verified` of a replay is read from the row and not from the first answer, and the two differ after a hash mismatch; the exactly-once results compare releases and request hashes, not this flag.
- The wording of notes, reasons and errors: each is a datatype value, with the reviewer's or fetcher's own text inside where the code keeps it.
- The queue page, the moderation page and the owner lists, which are read-only joins, except for the first-release mark.
- The single-listing read and the readiness probe of the catalogue.
- The loop of the owners.json import around the grant it makes for each account.
- Submissions.NewSubmissionValidates: does not parse ports, percent escapes and IPv6 literals of a URL; an accepted URL is https in any case with a host, no userinfo, query or ASCII control character, and no fragment but an empty one.
- Ownership.Add: takes the account the handle resolved to, or none; the trimming of the handle and its case-insensitive lookup are not modelled.
- Commits.ImportGrantKeeps: the account exists already; the creation of one that has never signed in is a sign-in step of its own.
- Tables.Store.SetAccountTrust: keeps the tier; set_at, set_by and the note are in the log row only, and set_by is checked as a foreign key.
- Tables.Store.Record: a row has an actor and an event; its id and time are not kept.
- Tables.Waiting: is in insertion order, not by submission time; there is at most one.
- Registry.SortInPlace: insertion sort stands for `sort.Slice`; ids that pass validation are distinct, so every sort gives the same document. For ids that repeat, which of two problems is the first may depend on the sort.
- Publishing.Publish: is the call with nothing in between; its interleaving with others is `Protocol.Next`. `Schedules.UninterruptedPublish` says the machine run that way does what the method does, and `Safety.PublishLinearises` that an interleaved automatic publish does too.
- Reviewing.Reverify: is likewise the call with nothing in between.
- Safety.OneKeyOneRelease: equality of submissions rests on SHA-256 not colliding on the two texts at hand, which is a hypothesis of that clause and of no other.
