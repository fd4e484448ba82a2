# Verified model of the agent harness's evidence pipeline

The repository builds records, brings them into a canonical form, hashes them, binds them to a
commit and verifies them again, refusing whatever does not fit. This project models those parts
in Dafny and proves what the pipeline rests on: that a printer loses nothing, that a builder and
an independent verifier agree on exactly which records are good, that a fast or incremental
decision is the order-free one it stands for, and that state shared by several processes stays
consistent in every interleaving.

`dafny verify dfyconfig.toml` checks all of it.

| files | what they model |
|---|---|
| `CanonicalJson` | the canonical printer and the idempotency hash of events |
| `Archive` | validation and extraction of release archives over a small file system |
| `Jsonc` | the comment and trailing-comma normaliser for Bun lockfiles |
| `PackageUrl`, `Inventory`, `Spdx` | package URLs, the Cargo and Bun lockfile graphs, the SPDX builder and its verifier |
| `Workflow` | the indentation parser for release workflows, with a printer |
| `Scorecard`, `ScorecardNormal`, `ScorecardBounds`, `ScorecardArtifact` | scorecard import, its idempotence, and the artifact that the regression side reads back |
| `RealRunner`, `RunnerSummary` | the budgeted runner loop and the import of its summary |
| `Regression`, `RegressionBatch` | metric comparison, report outcomes and batches |
| `DrillRegistry`, `DrillProtocol`, `Drill`, `DrillHarness` | resource ids, the reservation protocol, evidence, results and reports of fault drills |
| `Budget`, `ReportWriter`, `CheckMatrix`, `AgentMemory` | the consultation budget, the write-once report, the required-check matrix, bounded memory digests |
| `Text`, `Ordering`, `Rounding`, `Sets` | text, stable sorting, rounding to six places, sizes of sets |

Conventions. Code that loops or updates state in place is a method, or a class with `modifies`
clauses, proved against a function of its inputs; protocols between processes are state machines
whose steps are the calls the processes make, and their results hold for every sequence of steps.
An exception is an `Err` or a failing result. SHA-256, JSON rendering of whole records and
regular-expression scans are parameters: functions of the value they are applied to. A hypothesis
about one of them is stated where it is used: `Hashes` and `Seals` (digests are 64 lower-case hexadecimal
digits), `Admits`, `AdmitsArtifacts`, `AdmitsReports` and `AdmitsRun` (the scan lets the listed fixed texts and all
digests through), `IsStub` (the stub's candidates are read back from its replies). Numbers are
integers or reals.

What the code does not do, as proved here:

- The printer does not escape keys: `QuotedKeysCollide`. `DecodedExactly` says which documents it keeps: those without a quote in a key, which the other results about it assume.
- The comma pass is not idempotent on doubled commas: `TrailingLeft` and `IdempotentExactly` say exactly when, `DoubledCommaLeft` gives one.
- A dependency that asks for a version can get another one: `CargoFallbackExactly` and `BunFallbackExactly` say exactly when, `CargoFallsBack` and `BunFallsBack` give lockfiles. The dependencies of a Bun lockfile are often ranges, which equal no locked version, so this path is common there.
- A lockfile with an empty `source` loads, and its inventory is then refused: `LoadedBuiltExactly` and `EmptySourceNotBuilt`.
- A workflow step that starts with another entry than its name is read without that entry, be it its action, its id or its run text: `FirstLineExactly`, `FirstFieldLost` and `UsesLost`.
- An accepted scorecard can have an artifact that the regression side refuses, because the artifact is one level deeper and its id is 23 bytes longer than the run id: `ArtifactReadBackExactly` and `LongRunIdRefused`.
- A live configuration around the stub provider can price its summary differently from what the stub reports: `StubRunImportedExactly`, `PricedStubRunRefused` and, for one run, `PricedStubRun`. `build_pair` sends every live configuration to the Rust runner, so such a configuration reaches `run_mode` only by a direct call.
- A drill whose setup fails, before the block that cleans up, keeps its reservation: `LeakedExactly` and, for the shortest run, `CrashLeaks`.
- Two scenario ids that differ in a colon and a dot share resource ids: `ColonsCollide`.
- The truncation of a consolidated reference list never takes effect: its list is one the loader has already bounded (`Consolidate`).

## Model

| member | source | states |
|---|---|---|
| CanonicalJson.RoundTrip | engine/src/event_schema.rs:73-92 | A decoder recovers every document whose keys hold no quote, in key order, from its canonical text followed by any text that does not continue a number, and leaves that text |
| CanonicalJson.ParseQuoted | engine/src/event_schema.rs:89 | A string literal with the escapes of section 7 of RFC 8259 is read back, with the text after it |
| CanonicalJson.NormalIffSame | engine/src/event_schema.rs:75-83 | Two documents have the same normal form exactly when they are the same document up to the order of keys at every depth |
| CanonicalJson.CanonicalOfNormal | engine/src/event_schema.rs:75-92 | The text depends on the normal form only |
| CanonicalJson.CanonicalIffSame | engine/src/event_schema.rs:73-92 | Two documents print the same text exactly when they are the same document up to key order |
| CanonicalJson.DecodedExactly | engine/src/event_schema.rs:73-92 | A document is recovered from its text exactly when no key at any depth holds a quote |
| CanonicalJson.QuotedKeysCollide | engine/src/event_schema.rs:80 | A key with a quote in it can spell a second field: two different documents with one text |
| CanonicalJson.StableIdempotencyHash | engine/src/event_schema.rs:193-208 | The loop over the fields hashes the canonical text of what is left, and refuses exactly what is no object |
| CanonicalJson.HashInputIffAgree | engine/src/event_schema.rs:193-208 | Two events have the same hash input exactly when they agree on every field except the two excluded ones |
| Archive.NormalizedPathExact | scripts/release_provenance.py:1536-1544 | A name is accepted exactly when it spells a path of normal parts followed by slashes, within the byte bound, and the path is the one it spells |
| Archive.ConflictsWithSeen | scripts/release_provenance.py:1589-1593 | The scan finds a conflict exactly when a file is a proper ancestor of the other path |
| Archive.CheckMember | scripts/release_provenance.py:1577-1600 | One header passes exactly when it is acceptable alone and compatible with every earlier member |
| Archive.ValidateReleaseArchive | scripts/release_provenance.py:1547-1617 | The incremental loop accepts exactly the archives of an order-free predicate: distinct paths under one top level, no file above another path, sizes within the bounds, the required files present |
| Archive.OrderFree | scripts/release_provenance.py:1561-1609 | Acceptance is the same for every permutation of the members |
| Archive.ResolveNormal | scripts/release_provenance.py:1639-1644 | A path of normal parts resolves to itself, so the escape check never fails |
| Archive.ReadSome | scripts/release_provenance.py:1655 | A read returns any non-empty part of what remains, and nothing only at the end |
| Archive.CopyContent | scripts/release_provenance.py:1652-1661 | For every pattern of short reads the copy succeeds exactly when the content has the declared size, and then wrote all of it |
| Archive.FilesOfExact | scripts/release_provenance.py:1637-1662 | The extracted files are exactly the file members with their contents and modes |
| Archive.DirsOfExact | scripts/release_provenance.py:1637-1648 | The extracted directories are exactly the directory members and every ancestor |
| Archive.DirectoryClear | scripts/release_provenance.py:1645-1648 | In an accepted archive no directory that a member needs lies on a file |
| Archive.TargetClear | scripts/release_provenance.py:1653 | In an accepted archive no exclusive create meets something that exists |
| Archive.ExtractMember | scripts/release_provenance.py:1637-1662 | When one member is extracted, what it writes, and that nothing outside the destination changes |
| Archive.ExtractReleaseArchive | scripts/release_provenance.py:1620-1667 | An accepted archive is extracted into a fresh destination without a conflict, exactly when the contents have their declared sizes; the tree is then exactly that of the members, and a refused archive writes nothing |
| Jsonc.StripComments | scripts/release_provenance.py:276-315 | The first loop computes the comment pass |
| Jsonc.StripTrailingCommas | scripts/release_provenance.py:316-346 | The second loop computes the comma pass |
| Jsonc.StripCommentsAndTrailingCommas | scripts/release_provenance.py:273-346 | Both loops together are the normaliser that the results below are about |
| Jsonc.UncommentTokens | scripts/release_provenance.py:276-315 | The first pass deletes exactly the comment tokens |
| Jsonc.Lexable | scripts/release_provenance.py:276-315 | Every text the first pass accepts is spelled by a token sequence |
| Jsonc.LexesUniquely | scripts/release_provenance.py:276-315 | A text is spelled by at most one token sequence |
| Jsonc.DropCommasTokens | scripts/release_provenance.py:337-345 | The second pass deletes exactly the commas before a closing bracket |
| Jsonc.NormalizedTokens | scripts/release_provenance.py:273-346 | The normaliser deletes the comments and then the trailing commas, and its output lexes to the tokens that are left |
| Jsonc.LiteralsSurvive | scripts/release_provenance.py:273-346 | The string literals outside comments survive in order, byte for byte |
| Jsonc.IdentityExactly | scripts/release_provenance.py:273-346 | The normaliser is the identity exactly on texts with no comment and no trailing comma |
| Jsonc.CommentInserted | scripts/release_provenance.py:273-346 | A well-formed comment put at an out-of-string position that follows no slash changes nothing |
| Jsonc.TrailingLeft | scripts/release_provenance.py:337-343 | A trailing comma is left exactly where two commas with only white space between them stood before the bracket |
| Jsonc.IdempotentExactly | scripts/release_provenance.py:273-346 | A second normalisation changes nothing exactly when no such doubled comma stood there |
| Jsonc.DoubledCommaLeft | scripts/release_provenance.py:316-346 | The text [1,,] is normalised to [1,], and only a second time to [1] |
| Workflow.PermissionsLoop | tools/release_workflow_contract.py:87-98 | The index loop over a permissions section computes the parse of those lines and always advances |
| Workflow.InputsLoop | tools/release_workflow_contract.py:137-148 | The loop over `with:` entries, with its step back, ends at the line where the outer loop goes on |
| Workflow.RunLoop | tools/release_workflow_contract.py:149-158 | The loop over a run block collects its lines |
| Workflow.FieldsLoop | tools/release_workflow_contract.py:126-159 | The loop over a step block computes the parse of its fields |
| Workflow.StepsLoop | tools/release_workflow_contract.py:99-161 | The loop over the steps computes the parse of the step blocks and always advances |
| Workflow.BlockLoop | tools/release_workflow_contract.py:113-120 | The inner loop finds the end of a step block |
| Workflow.ParseWorkflow | tools/release_workflow_contract.py:51-165 | The nested index loops compute the functional parse of the text |
| Workflow.EntryLine | tools/release_workflow_contract.py:44-48 | An entry line at any depth is read back as its key and value |
| Workflow.PermissionsBack | tools/release_workflow_contract.py:87-98 | Printed permissions are read back in order, up to the first line that ends them |
| Workflow.InputsBack | tools/release_workflow_contract.py:137-148 | Printed `with:` entries are read back in order |
| Workflow.FieldsBack | tools/release_workflow_contract.py:126-159 | The printed fields of a step are read back |
| Workflow.StepsBack | tools/release_workflow_contract.py:99-161 | Printed steps are read back in order |
| Workflow.JobsBack | tools/release_workflow_contract.py:59-162 | Printed jobs are read back in order |
| Workflow.LinesBack | tools/release_workflow_contract.py:54 | Lines without breaks are split again into the same lines |
| Workflow.ParsePrint | tools/release_workflow_contract.py:51-165 | Printing uniquely named jobs and parsing the text yields the same jobs, permissions and steps, whatever stands before `jobs:` and after the last job |
| Workflow.FirstLineExactly | tools/release_workflow_contract.py:121-126 | Of the entry on the first line of a step the value is kept exactly when its key is name; any other entry there, such as - uses:, - id: or - run:, counts for nothing, whatever lines follow |
| Workflow.FirstFieldLost | tools/release_workflow_contract.py:121-160 | A nameless step whose action, id or run text stands on the first line is read back without that field and with all others, so it is read back exactly when the field is empty |
| Workflow.UsesLost | tools/release_workflow_contract.py:121-160 | The same for - uses:, the form workflows use: the step is read back exactly when it has no action |
| PackageUrl.PercentRoundTrip | scripts/release_provenance.py:349-355 | Percent-encoding, as in sections 2.1 and 2.3 of RFC 3986, has a left inverse |
| PackageUrl.DecodeUtf8 | scripts/release_provenance.py:354 | UTF-8 has a left inverse |
| PackageUrl.PurlInjective | scripts/release_provenance.py:358-360 | A package URL determines ecosystem, name and version |
| Inventory.LoadCargoInventory | scripts/release_provenance.py:386-447 | The loader computes the packages and edges of a Cargo lockfile, or refuses it |
| Inventory.ResolveCargo | scripts/release_provenance.py:426-438 | The loop resolves every dependency through the index by name |
| Inventory.CargoTargetMeaning | scripts/release_provenance.py:429-438 | A dependency resolves to a package exactly when that package is the only one of its name and version, or nothing has that version and it is the only one of its name; a dependency without a version, exactly to the only package of its name; none is skipped |
| Inventory.CargoRefusedExactly | scripts/release_provenance.py:435-437 | A dependency is refused exactly when it names no package in that sense |
| Inventory.CargoFallbackExactly | scripts/release_provenance.py:431-435 | A dependency that asks for a version resolves to another version exactly when its name has one package and that one has another version |
| Inventory.CargoFallsBack | scripts/release_provenance.py:386-447 | A lockfile in which a wants b 2.0 and only b 1.0 is locked loads, with an edge to b 1.0 |
| Inventory.LoadBunInventory | scripts/release_provenance.py:459-547 | The loader computes the packages and edges of a Bun lockfile, or refuses it |
| Inventory.ResolveBun | scripts/release_provenance.py:523-538 | The loop resolves every dependency, and skips the absent optional peers |
| Inventory.BunTargetMeaning | scripts/release_provenance.py:525-538 | A dependency resolves to a package exactly when that is the first of its name and version, or nothing has that version and it is the only one of its name; it is skipped exactly when nothing has its name and it is an optional peer |
| Inventory.BunRefusedExactly | scripts/release_provenance.py:525-538 | A dependency is refused exactly when neither holds |
| Inventory.BunFallbackExactly | scripts/release_provenance.py:525-538 | A dependency resolves to another version than it asks for exactly when its name has one package and that one has another version |
| Inventory.BunFallsBack | scripts/release_provenance.py:459-547 | A Bun lockfile in which a wants b by any text other than 1.0.0 and only b 1.0.0 is locked loads, with an edge to it |
| Inventory.CollectEdges | scripts/release_provenance.py:439-446 | One edge for each resolved dependency, in order |
| Inventory.AddPackages | scripts/release_provenance.py:372-383 | Adding packages one by one succeeds exactly when all identities are complete and distinct |
| Inventory.LoadDependencyInventory | scripts/release_provenance.py:550-594 | The inventory is returned exactly when every lockfile loads and all identities and bounds hold |
| Inventory.LoadAllSound | scripts/release_provenance.py:560-581 | Every edge joins packages of its own lockfile, and every lockfile that was loaded is represented |
| Inventory.LoadedInventorySound | scripts/release_provenance.py:550-594 | A loaded inventory is sorted and sound |
| Inventory.LoadedSources | scripts/release_provenance.py:414 | Every package of a loaded inventory has a source exactly when no Cargo record of the lockfiles gives an empty one |
| Inventory.EndpointUnique | scripts/release_provenance.py:752-765 | In a sound inventory a lockfile and a package URL name one package |
| Spdx.BuildComponents | scripts/release_provenance.py:694-754 | The loop builds one component for each package and refuses exactly repeated identities |
| Spdx.BuildSpdxSbom | scripts/release_provenance.py:605-801 | The document is built exactly when metadata, components, identities and edges are in order |
| Spdx.ResolveEdges | scripts/release_provenance.py:752-772 | The edge loop succeeds exactly when each end of each edge names one component |
| Spdx.LoadedEdgesResolve | scripts/release_provenance.py:752-765 | From a loaded inventory the ambiguous-edge error is unreachable |
| Spdx.VerifySpdx | scripts/release_provenance.py:1175-1246 | The verifier accepts exactly the documents with one described subject whose other packages are its distinct, locked dependencies |
| Spdx.FindSubject | scripts/release_provenance.py:1179-1186 | The subject is found exactly when it is the only package of that name |
| Spdx.CheckDependencies | scripts/release_provenance.py:1200-1237 | The loop over the dependencies succeeds exactly when they are well formed and distinct |
| Spdx.BuiltVerifiedExactly | scripts/release_provenance.py:605-801 | A built document is verified exactly when no dependency has the name of the artifact or the version "locked", all come from required lockfiles, and the shortened hashes do not collide (relationships per clause 11 of SPDX 2.3) |
| Spdx.LoadedBuiltExactly | scripts/release_provenance.py:640-654 | A loaded inventory is built exactly when the metadata is in order and no Cargo record gives an empty source |
| Spdx.EmptySourceNotBuilt | scripts/release_provenance.py:414 | A lockfile whose one record has an empty source loads, and no metadata and no hash makes the builder accept it |
| Spdx.LoadedBuiltVerified | scripts/release_provenance.py:1175-1246 | From lockfiles to verdict: building never meets an ambiguous edge, succeeds exactly when the metadata is in order and no Cargo record gives an empty source, and the verifier accepts exactly the releasable inventories |
| Rounding.RoundError | scripts/token_efficiency_scorecard.py:242 | Rounding to six places moves a number by at most half a millionth |
| Rounding.RoundMonotone | scripts/token_efficiency_scorecard.py:242 | Rounding is monotone |
| Scorecard.RequireStrings | scripts/token_efficiency_scorecard.py:366-367 | The loop succeeds exactly when every listed field is a text that is not blank |
| Scorecard.RequireNumbers | scripts/token_efficiency_scorecard.py:368-369 | The loop succeeds exactly when every listed field is a number that is not negative |
| Scorecard.CopyFields | scripts/token_efficiency_scorecard.py:401-406 | The loop copies exactly the listed fields that are present |
| Scorecard.CheckContract | scripts/token_efficiency_scorecard.py:265-285 | A comparison contract passes exactly when it has its fields and agrees with the run |
| Scorecard.ValidateStep | scripts/token_efficiency_scorecard.py:333-356 | The checks in the order of the script decide the step: its texts, its numbers, then its run, its place, its allowed words and its token parts; a step that passes is normalised to its known fields |
| Scorecard.ValidateSteps | scripts/token_efficiency_scorecard.py:424-427 | The steps are normalised in order, exactly when each passes at its index |
| Scorecard.ImportScorecard | scripts/token_efficiency_scorecard.py:359-438 | The checks and loops, in the order of the script, compute the import that the results below are about |
| Scorecard.DerivedMeans | scripts/token_efficiency_scorecard.py:241-262 | The derived metrics are the total and ratios within half a millionth of their parts, at most one where the checks of the run bound them |
| ScorecardNormal.ContractTwice | scripts/token_efficiency_scorecard.py:287-296 | A normalised contract passes again and is not changed |
| ScorecardNormal.StepsTwice | scripts/token_efficiency_scorecard.py:352-356 | Normalised steps pass again and are not changed |
| ScorecardNormal.CostTwice | scripts/token_efficiency_scorecard.py:407-413 | The cost stored with a contract is the cost its rates imply, so the second comparison has no difference |
| ScorecardNormal.DerivedTwice | scripts/token_efficiency_scorecard.py:431-437 | The derived metrics of a normalised scorecard are recomputed to the same values |
| ScorecardNormal.FieldsOkTwice | scripts/token_efficiency_scorecard.py:366-437 | A normalised scorecard passes every field check |
| ScorecardNormal.NormalizedTwice | scripts/token_efficiency_scorecard.py:401-438 | Normalising a normalised scorecard changes no field |
| ScorecardBounds.NormalizedBounded | scripts/token_efficiency_scorecard.py:215-232 | At any depth, a normalised scorecard is bounded exactly when the optional step values it kept are |
| ScorecardBounds.ImportIdempotent | scripts/token_efficiency_scorecard.py:359-438 | Import is idempotent on every summary it accepts |
| ScorecardArtifact.ArtifactPasses | scripts/token_efficiency_regression.py:203-209 | An artifact passes the bounds and the scan exactly when its run id has at most 1001 bytes, its time at most 1024, its optional step values are one level shallower than the bound, and its time and id are clean |
| ScorecardArtifact.ArtifactReadBackExactly | scripts/token_efficiency_regression.py:203-233 | For every accepted summary the evidence check returns the scorecard and the same content hash exactly under that condition, and refuses the artifact otherwise |
| ScorecardArtifact.LongRunIdRefused | scripts/token_efficiency_scorecard.py:448-472 | A summary with a run id of 1002 letters is accepted, and its artifact is refused on reading |
| RealRunner.BuildConfig | scripts/provider_gated_real_runner.py:105-143 | A configuration is built exactly when all limits are in range, with those limits |
| RealRunner.EstimateEmbedded | scripts/provider_gated_real_runner.py:90-91 | A text embedded in another never has the larger token estimate |
| RealRunner.MakePrompt | scripts/provider_gated_real_runner.py:215-229 | The repeated tokens of a prompt never exceed its context tokens |
| RealRunner.ScoreExact | scripts/provider_gated_real_runner.py:202-203 | Near the target the rounded score is the exact one |
| RealRunner.RunMode | scripts/provider_gated_real_runner.py:288-322 | For any provider: a run ends at the first iteration that meets the threshold, within the token and cost caps, or with the error of the first iteration that is killed or over a cap; the call limit is never met |
| RealRunner.StubRun | scripts/provider_gated_real_runner.py:146-159 | A stub run costs nothing and passes exactly when the candidate of the last allowed iteration would |
| RealRunner.FirstPasses | scripts/provider_gated_real_runner.py:300-322 | Under a threshold of at most 0.6 and with enough tokens a stub run passes in its first iteration |
| RunnerSummary.TokensWithin | scripts/provider_gated_real_runner.py:325-329 | Repeated and retrieved tokens never exceed the context tokens, step by step and in total |
| RunnerSummary.StepAccepted | scripts/provider_gated_real_runner.py:265-285 | Every step the runner builds passes the step check at its index |
| RunnerSummary.SummaryWithinCaps | scripts/provider_gated_real_runner.py:308-343 | For any provider the token totals of a summary are what the loop counted, within the token cap, and the rounded cost is within the cost cap |
| RunnerSummary.StubRunImportedExactly | scripts/provider_gated_real_runner.py:332-366 | The summary of a finished stub run is imported exactly when the rates of its contract are not negative and imply no cost |
| RunnerSummary.StubRunImported | scripts/provider_gated_real_runner.py:369-378 | With the stub or fake provider kind every finished stub run is imported |
| RunnerSummary.PricedStubRunRefused | scripts/provider_gated_real_runner.py:232-262 | With a live configuration and an input rate of at least one dollar every stub summary is refused |
| RunnerSummary.PricedStubRun | scripts/provider_gated_real_runner.py:232-262 | There is such a run: the first iteration of a stub with decimal candidates, under a live kind and an input rate of one dollar |
| Regression.ReportedExactly | scripts/token_efficiency_regression.py:400-410 | A metric not reported as regressed is worse by at most (allowed + 5e-7) * max(abs(reference), 1) + 5e-7, and one reported as regressed is worse by more than the same with the signs of the roundings reversed |
| Regression.NormalizedMonotone | scripts/token_efficiency_regression.py:400-402 | A worse value never has the smaller normalized regression |
| Regression.SelfComparison | scripts/token_efficiency_regression.py:400-410 | Against itself a metric has no delta, no regression and is not reported |
| Regression.Comparison | scripts/token_efficiency_regression.py:389-412 | The loop compares all seven metrics |
| Regression.Unmet | scripts/token_efficiency_regression.py:342-353 | The loop collects exactly the aspects that differ |
| Regression.ContractReasons | scripts/token_efficiency_regression.py:324-359 | The reasons are exactly the aspects in which a scorecard is not what the scenario fixes and the references whose contract differs; there is none exactly when all three match |
| Regression.ReasonsOf | scripts/token_efficiency_regression.py:481-486 | The reasons are exactly the metrics that regressed |
| Regression.Judge | scripts/token_efficiency_regression.py:448-490 | Outcome, reasons and both metric tables are those the scorecards decide; there is no reason exactly on a pass, and there are tables exactly on a pass or a regression |
| Regression.PassMeans | scripts/token_efficiency_regression.py:448-490 | A pass means matching contracts, three qualified runs and every metric within its allowance against both references |
| Regression.SelfPasses | scripts/token_efficiency_regression.py:448-490 | A qualified, matching scorecard passes against itself |
| Regression.ComparedNumbersPresent | scripts/token_efficiency_regression.py:372-386 | When scorecards are compared their cost and score are numbers, never missing or null |
| Regression.EvidenceFits | scripts/token_efficiency_regression.py:203-233 | The run id, schema and hash read from accepted evidence are within the bounds and pass the scan |
| Regression.StampedValid | scripts/token_efficiency_regression.py:266-321 | A report of a valid registry and of sources that passed bounds and scan passes its own check once it is stamped with its hash, bounds and scan included |
| Regression.BuildReport | scripts/token_efficiency_regression.py:415-490 | A report is refused exactly when evidence that is read is refused; otherwise it names its sources, has the outcome, reasons and tables they decide and passes its own check |
| RegressionBatch.TallyTotal | scripts/token_efficiency_regression.py:596-599 | The outcome counts add up to the number of reports |
| RegressionBatch.TallyPositive | scripts/token_efficiency_regression.py:554-557 | The counts list exactly the outcomes that occur |
| RegressionBatch.CountOutcomes | scripts/token_efficiency_regression.py:554-557 | The loop counts the outcomes |
| RegressionBatch.Validate | scripts/token_efficiency_regression.py:502-561 | A batch is accepted exactly when bounds, scan, schema, safety fields, hash and size are in order, each report passes its own check, and order, bindings and counts agree with the reports |
| RegressionBatch.BuildReports | scripts/token_efficiency_regression.py:577-595 | The loop builds the reports in order, and fails exactly when some evidence that is read is refused |
| RegressionBatch.BuildBatch | scripts/token_efficiency_regression.py:564-614 | A batch is refused exactly when its evidence does not cover the registry or some evidence that is read is refused; otherwise it passes its own validation, holds the report of each registered scenario from its own evidence, and its counts add up to the number of scenarios |
| DrillRegistry.ResourceIdExactly | scripts/fault_drill_registry.py:180-182 | For seeds and workers below 2^32 two resource ids are equal exactly when slug, seed, worker and index are |
| DrillRegistry.SharedExactly | scripts/fault_drill_registry.py:180-197 | Two drills have a resource id in common exactly when slug, seed and worker agree and both ask for a resource; their ids then agree index by index and nowhere else |
| DrillRegistry.ColonsCollide | scripts/fault_drill_registry.py:181 | Two scenario ids that differ in a colon and a dot have the same resource ids |
| DrillProtocol.Reservations.TryReserve | scripts/fault_drill_harness.py:257-263 | All ids are reserved, or none when one of them is taken; the set and the verdict are those of the reserving step of the protocol, for any drills and any state of the others |
| DrillProtocol.Reservations.Release | scripts/fault_drill_harness.py:336-338 | Exactly the given ids are released, as in the finishing step of the protocol |
| DrillProtocol.Kept | scripts/fault_drill_harness.py:253-338 | Every step of every drill keeps the active ids equal to those of the holders, with no id held twice |
| DrillProtocol.NoTwoShare | scripts/fault_drill_harness.py:253-338 | In every interleaving no two running drills hold the same id |
| DrillProtocol.NeverTakenAway | scripts/fault_drill_harness.py:257-262 | No step of one drill releases an id of another; a refused drill changes nothing |
| DrillProtocol.RefusedExactly | scripts/fault_drill_harness.py:258-262 | A drill is refused exactly when it shares an id with a holder |
| DrillProtocol.LeakedExactly | scripts/fault_drill_harness.py:265-272 | When all drills have ended an id is still reserved exactly when the setup of a drill that held it had failed |
| DrillProtocol.CrashLeaks | scripts/fault_drill_harness.py:257-272 | One drill that reserves and whose setup fails leaves all its ids reserved, and no later step changes that |
| DrillProtocol.ConflictExactly | scripts/fault_drill_harness.py:257-263 | Two drills conflict exactly when the slugs of their scenarios, their seeds and their workers agree and both ask for a resource |
| DrillProtocol.ConflictMeansSameDrill | scripts/fault_drill_contract.py:386-389 | Colon-free drills conflict only when scenario, seed and worker agree |
| DrillProtocol.DifferentDrillsRun | scripts/fault_drill_harness.py:257-263 | Drills that differ pairwise in slug, seed or worker are never refused, in any interleaving |
| Drill.ValidateChecks | scripts/fault_drill_contract.py:880-904 | The loop accepts exactly the checks with distinct, specific names and no category both passed and unsupported |
| Drill.ValidateOwnerEvidence | scripts/fault_drill_contract.py:815-916 | Evidence is accepted exactly when it is bound to the scenario and well formed |
| Drill.AnyFailedExactly | scripts/fault_drill_contract.py:919-934 | Some category has failed exactly when some check has |
| Drill.ValidAlone | scripts/fault_drill_contract.py:1009-1032 | A result that is valid for its scenario is valid without it |
| Drill.CountsTotal | scripts/fault_drill_contract.py:1092-1097 | The status counts add up to the number of results |
| Drill.BuildReport | scripts/fault_drill_contract.py:1086-1108 | A report is built exactly from valid results of one commit, sorted and counted |
| Drill.ValidateReport | scripts/fault_drill_contract.py:1111-1130 | A report is accepted exactly when it is the one its results rebuild to |
| Drill.RebuiltReport | scripts/fault_drill_contract.py:1091-1106 | A built report rebuilds to itself, and its counts add up to its total |
| Drill.BuildAndValidate | scripts/fault_drill_contract.py:1086-1130 | Every report that is built is accepted |
| DrillHarness.FindFailed | scripts/fault_drill_harness.py:312-316 | The comprehension finds exactly the categories with a failed check |
| DrillHarness.RunScenario | scripts/fault_drill_harness.py:244-359 | The try and finally of a drill compute its result, and leave the reservations as they were on every path that returns |
| DrillHarness.ReturnsExactly | scripts/fault_drill_contract.py:977-1083 | A result is returned exactly when scenario, duration and size are in range and a pass proves recovery and cleanup |
| DrillHarness.PassedMeans | scripts/fault_drill_contract.py:1056-1064 | A returned pass has exit 0, evidence bound to its scenario, no failed check, passed recovery and cleanup, and a verified harness cleanup |
| DrillHarness.FailedCleanupOverrides | scripts/fault_drill_harness.py:340-342 | A failed harness cleanup overrides every other status |
| DrillHarness.RefusedMeans | scripts/fault_drill_harness.py:258-262 | A refused drill has its own status, no evidence, and is always returned |
| DrillHarness.ReturnedIsReportable | scripts/fault_drill_contract.py:1093-1097 | Every result a drill returns can be reported |
| Budget.KeyExactly | scripts/ask_sol.py:472-473 | Two situations share a key exactly when task, head and digest agree, even when tasks hold colons |
| Budget.Tracker.CheckAndRecord | scripts/ask_sol.py:463-518 | One critical section: the decision and the new ledger; a corrupt ledger is left as it is |
| Budget.Tracker.Consult | scripts/ask_sol.py:637-731 | The ordered steps of a call: the first check that stops it is the one reported, the ledger changes exactly when the call is permitted, and the method is one caller alone in the interleaving model |
| Budget.Kept | scripts/ask_sol.py:477-514 | Every step keeps as many permits as the stored count has grown, within the limit and numbered without repetition |
| Budget.PermitsAreCounted | scripts/ask_sol.py:491-518 | Over every interleaving and from any ledger the permits granted for a key equal the growth of its stored count, which stops at the limit |
| Budget.PermitsPerSituation | scripts/ask_sol.py:472-518 | For each task, head and digest the permits are at most what the limit leaves of the stored count |
| Budget.StoppedLeavesLedger | scripts/ask_sol.py:637-706 | In every interleaving a call that a check stops ends stopped by the first such check and never enters its critical section |
| ReportWriter.Kept | scripts/efficiency_live_benchmark.py:1457-1483 | No step of any writer removes, replaces or changes the target once it exists |
| ReportWriter.WrittenOnce | scripts/efficiency_live_benchmark.py:1469-1475 | Over every interleaving the bytes of the target never change once it is linked |
| ReportWriter.WritersAgree | scripts/efficiency_live_benchmark.py:1457-1484 | A writer that returns finds its own bytes in the target, any two agree, and its temporary file is gone |
| ReportWriter.NothingLeft | scripts/efficiency_live_benchmark.py:1481-1483 | When all writers have returned no temporary file is left |
| ReportWriter.AloneSucceeds | scripts/efficiency_live_benchmark.py:1463-1484 | A writer alone, on a clear identity, publishes its report |
| CheckMatrix.CanonicalName | scripts/project_context.py:214-225 | Every required name is its own canonical name, so a name without one is no required name |
| CheckMatrix.SummarizeChecks | scripts/project_context.py:510-561 | The loop computes the outcomes, the names seen for each required check, and the missing and incomplete ones; the state is a function of these, is never "unavailable", and is success exactly when every check succeeded and every required one was observed |
| CheckMatrix.BuildMatrix | scripts/project_context.py:583-609 | The loop builds one row for each source check |
| CheckMatrix.IsMatrixSuccessful | scripts/project_context.py:638-672 | A matrix is successful exactly when it has one acceptable row for each source check |
| CheckMatrix.MatrixExactly | scripts/project_context.py:564-609 | The matrix of any checks is successful exactly when each source check has a success and no other outcome, or is the unobserved exact-head check on a push or a dispatch |
| CheckMatrix.OrderFree | scripts/project_context.py:518-561 | Checks that differ in order and repetition only have the same summary, state included, and the same matrix |
| AgentMemory.CapText | engine/src/agent_memory.rs:260-269 | The loop steps back to the last character boundary within the limit |
| AgentMemory.FitExactly | engine/src/agent_memory.rs:264-267 | What is kept fits, and one more character would not |
| AgentMemory.CapSize | engine/src/agent_memory.rs:260-269 | A capped text has at most twelve bytes over the limit and is a prefix cut between characters |
| AgentMemory.CapTwice | engine/src/agent_memory.rs:260-269 | Capping reaches a fixed point after two applications, for every limit |
| AgentMemory.LoadBounded | engine/src/agent_memory.rs:11-42 | A loaded digest holds only the own reference, at most sixteen times, and is bounded |
| AgentMemory.Consolidate | engine/src/agent_memory.rs:97-161 | What is written is a function of the agent, the action and the count: the loaded references or the own one, the winning summary of at most 1036 bytes, a count that is not negative; nothing only when there is neither |
| AgentMemory.RunTurns | engine/src/agent_memory.rs:97-165 | The loop over the turns computes the run of load, consolidate and patch: the last agent and every digest written |
| AgentMemory.RunKept | engine/src/agent_memory.rs:97-165 | Over any run, from any stored value: every digest written is bounded and refers to this agent only, the last one is stored, all carry the references of the first, and these are the own reference alone when it is not safe |
| AgentMemory.RunPersists | engine/src/agent_memory.rs:11-161 | While the own reference is safe every turn after the first that writes a digest writes one |
| AgentMemory.Reloaded | engine/src/agent_memory.rs:19-95 | Reading a consolidated digest back keeps its references exactly when the own reference is safe, and keeps the count; it finds nothing exactly when that reference is not safe and the summary sanitises to nothing |
| AgentMemory.ContextExactly | engine/src/agent_memory.rs:167-201 | The summary of a node context re-estimates to exactly its included tokens, within the budget, and is a prefix of the loaded one |

## Left out

- Archive: error texts are abbreviated; the digest of the archive file is not recomputed after extraction, and the destination holds no symbolic links beforehand.
- Archive.ExtractReleaseArchive: the mode of an extracted file is its executable bit, because the two modes of the script differ in nothing else.
- Workflow: jobs and steps are values, not objects that share references; the round trip is for steps that start with `- name:`, because of `FirstLineExactly`; `validate_release_contract_text` is not modelled.
- Inventory: TOML and JSON decoding of lockfiles, so the loaders start from decoded records; file existence and sizes.
- Inventory.LoadCargoInventory: error texts are not modelled, only that the file is refused.
- Inventory.LoadBunInventory: error texts are not modelled, only that the file is refused.
- Spdx: attestation bundles, signatures and the remaining fields of the release manifest.
- Scorecard: error texts; NaN and infinities; binary floating point, so costs and ratios are exact before rounding.
- Scorecard.ImportScorecard: all refusals have one error, because which of several faults is named first is not part of the result.
- ScorecardArtifact: the current time that replaces a missing `created_at`; an unhashable `schema_version` is an error here as there.
- RealRunner: `int(words * 1.35)` is exact here; the elapsed time of a call; the path through the Rust runner.
- Regression: the order in which reason codes are listed; reports and batches have their fixed fields only, so that the bounds on depth and on the number of fields always hold; the decoding and validation of a registry, whose result is a parameter; evidence that is no object with the three keys.
- DrillProtocol: a process that is killed while it holds the lock.
- Drill: error texts; the byte bounds and the search for forbidden text are predicates of the record; scenario fields that only bound sizes.
- DrillHarness.RunScenario: the owner command, the evidence file and the removal of the directory are values of the world; a failing setup is a step of the protocol, not of this method.
- Budget: a write that fails between truncating and rewriting the ledger; processes that bypass the lock.
- ReportWriter: symbolic links and directories at the target; a temporary name is used by one writer only, and its removal does not fail.
- CheckMatrix: the merging of pull-request checks into a summary, which re-labels them; upper-casing is that of ASCII letters.
- AgentMemory: redaction is a function of the text, so nothing is said about secrets; the size estimate of stored state.
- Provider calls, HTTP clients, smoke scripts, code generation, the dashboard and the legacy v1 verifiers.
