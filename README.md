# Sales-to-opportunity reconciliation, modelled in Dafny

This project models the core of a PHP sales-integration system. The system reconciles invoice-level sales records with a CRM opportunity ("lead") table.

- Each sale is keyed by the customer's GSTIN, the 15-character Indian GST Identification Number.
- Each sale goes through a six-level validation engine:
  - level 1: GSTIN format, then find or create the opportunity;
  - level 2: a DSR (sales representative) mismatch queues a DSM (manager) action and reassigns call plans;
  - level 3: product family, which gives a cross-sell, a retention note or a product split;
  - levels 4 and 5: sector and sub-sector;
  - level 6: up-sell, SKU volume, the stage table, and volume and potential.
- A volume-discrepancy classifier runs after level 6.
- Every change is audited, so a batch can be rolled back.
- Opportunities are backed up, and the backups expire after 120 days.
- Returns reduce the sold volume.
- Integration-managed leads are protected by permission guards.
- Records arrive three ways: a CSV upload handled by the older engine, a daily CSV batch handled by the enhanced engine in chunks of 50, and a JSON endpoint that writes a one-row CSV file.
- DSMs resolve the queued actions.

How the model is built:

- The database is one class, `Store.Database`, with one sequence field per table:
  - opportunities;
  - SKU volumes;
  - the audit log;
  - backups;
  - the action queue;
  - call plans;
  - volume discrepancies.
- Row ids are auto-increment ids: the row at index `i` has id `i + 1`.
- Operations that write tables are methods that name the fields they modify. The `ensures` of each method gives every table it may write as a function of the old tables and the inputs. The tables outside its `modifies` clause are unchanged by construction.
- Pure decisions are functions with contracts. Examples: the stage table, the discrepancy classes, the permission guards and the GSTIN pattern.
- Volumes and potentials are exact reals.
- Several things are parameters:
  - the clock (`now`, in seconds);
  - the previous year's sales history and the latest up-sell tier of a customer (`EngineCommon.Lookups`);
  - PHP's `floatval` of a volume text.
- Several behaviours are modelled as written, even where the system's own test scripts expect otherwise:
  - Only SPANCOP, Lost and Sleep move to Order (`EnhancedEngine.StageTable`).
  - A new customer is created with the sale's volume, and level 6 then adds the sale again (`EnhancedEngine.NewCustomerVolumeDoubles`).
  - The discrepancy tracker sees the already-updated volume (`EnhancedEngine.TrackerSeesUpdatedVolume`).
  - Two GSTINs that a test script lists as valid are rejected by the pattern (`Gstin.RejectedExamples`).

## Model

| member | source | states |
|---|---|---|
| Store.ColumnNamed | classes/AuditLogger.php:138 | a field name designates at most one column of the opportunity table, and the column found carries exactly that name; any other name designates none, so the dynamic `SET <field>` cannot address it |
| Store.ColumnNameRoundTrip | classes/AuditLogger.php:138 | every modelled column is found again under its own name |
| Store.Get | classes/AuditLogger.php:138-140 | a column's value is numeric exactly for volume_converted and annual_potential |
| Store.Set | classes/AuditLogger.php:138-142 | writing a value into a column succeeds exactly when the value's kind fits the column; on success that column reads back the value and every other column and every non-column field is unchanged |
| Store.FindByGstin | classes/EnhancedValidationEngine.php:110-113 | the lookup returns the lowest-id row with the GSTIN (and, when asked, status 'A'), every earlier row fails the test, and no row passes when it returns nothing |
| Store.FindByGstinAppend | classes/EnhancedValidationEngine.php:110-113 | appending a row does not move an existing first match |
| AuditLogger.EntryDate | classes/AuditLogger.php:203-216 | the old value's entry date is the lead's last update time when the lead exists, and absent otherwise |
| AuditLogger.LogChange | classes/AuditLogger.php:20-51 | one ACTIVE record (lead, field, old and new value, entry date, batch, actor) is appended and its id returned; a refused write is swallowed: nothing appended, no id |
| AuditLogger.CreateBackup | classes/AuditLogger.php:56-92 | a missing lead or a refused write gives no id and no row; otherwise one full snapshot of the lead is appended, expiring 120 days after now |
| AuditLogger.ChangesBelow | classes/AuditLogger.php:125-132 | the rollback selects exactly the records of the batch that are ACTIVE, each once, newest first |
| AuditLogger.Restore | classes/AuditLogger.php:136-142 | restoring a record writes its old value into its field of its lead and changes no other lead; a field that is not a column fails; an id matching no lead changes nothing |
| AuditLogger.RevertBatch | classes/AuditLogger.php:144-151 | every selected record becomes REVERTED with nothing else changed, and every other record (other batches, already REVERTED) is untouched |
| AuditLogger.RollbackBatch | classes/AuditLogger.php:120-173 | if every restoration succeeds, the leads are the result of applying them newest first (by descending record id), exactly the selected records are REVERTED and the count is their number; if any fails, no lead and no record changes and the result is a failure |
| AuditLogger.ApplyFromFinalValue | classes/AuditLogger.php:136-142 | after the restorations succeed, each field of each lead holds the old value of the last restoration applied to it, or its earlier value when none targets it |
| AuditLogger.EarliestChangeWins | classes/AuditLogger.php:125-142 | with newest first taken as descending record id, a field that the batch changed several times ends at the old value of its earliest change in the batch; for the source this holds when that field's changes in the batch carry distinct change times |
| AuditLogger.UnchangedFieldKept | classes/AuditLogger.php:136-142 | a field that the batch never changed keeps its value through the rollback |
| AuditLogger.NonColumnAborts | classes/AuditLogger.php:136-142 | one restoration of a field that is not a column fails the whole sequence, whatever comes before it |
| AuditLogger.NonColumnBlocksRollback | classes/AuditLogger.php:136-171 | a batch holding an ACTIVE record such as 'product_removed' or 'sales_return' cannot be rolled back, so the rollback changes nothing |
| AuditLogger.RollbackIdempotent | classes/AuditLogger.php:125-132 | after a rollback of a batch, a second rollback of it selects no record |
| AuditLogger.Kept | classes/AuditLogger.php:180 | a purge keeps exactly the backups whose expiry is not before now |
| AuditLogger.CleanupExpiredBackups | classes/AuditLogger.php:178-198 | the expired backups are deleted, the rest kept in order, and the count deleted is returned |
| AuditLogger.NothingExpiredKeepsAll | classes/AuditLogger.php:180-182 | a purge over backups none of which has expired keeps them all |
| AuditLogger.CleanupIdempotent | classes/AuditLogger.php:180-187 | a purge repeated at the same instant deletes nothing |
| Gstin.MatchesAllIff | classes/EnhancedValidationEngine.php:506 | matching the class sequence from start to end is matching it position by position at equal length |
| Gstin.PositionalIsAnchored | classes/EnhancedValidationEngine.php:506 | the position-by-position check accepts exactly what the anchored expression matches, including PCRE's `$` before one final newline |
| Gstin.CheckIsPregMatch | classes/EnhancedValidationEngine.php:505-507 | the GSTIN check accepts a string iff `preg_match` of the pattern does |
| Gstin.GstinLayout | classes/ValidationEngine.php:282-284 | a string is accepted iff it is 2 digits, 5 capitals, 4 digits, a capital, 1-9 or a capital, 'Z', a digit or capital, optionally followed by one newline |
| Gstin.LayoutMatches | classes/EnhancedValidationEngine.php:506 | for 15 characters, the group-by-group layout is the pattern position by position |
| Gstin.StandardExampleAccepted | debug_gstin_validation.php:34 | '29ABCDE0001F1Z5' is accepted |
| Gstin.SecondExampleAccepted | debug_gstin_validation.php:35 | '29XYZAB1234G2Z7' is accepted |
| Gstin.MaharashtraExampleAccepted | debug_gstin_validation.php:36 | '27AAAAA0000A1Z5' is accepted |
| Gstin.RejectedExamples | backend_test.php:93-97 | 'INVALID_GSTIN', '29AATEST', '' and '29PERF0001A1Z1' are rejected, and so are '29AATEST0001B1X' and '29AATEST1111A1Y', which the script lists as valid |
| Gstin.TrailingNewlineAccepted | classes/EnhancedValidationEngine.php:506 | a well-formed GSTIN followed by one newline is accepted, followed by two it is not |
| EngineCommon.InvalidGstinOutcome | classes/EnhancedValidationEngine.php:103-107 | a rejected GSTIN gives FAILED, no opportunity id, no action, no message, and the error 'Invalid GSTIN format: ' followed by the GSTIN |
| EngineCommon.NewLead | classes/EnhancedValidationEngine.php:509-546 | an inserted opportunity has the sale's customer, GSTIN, DSR, sector, sub-sector and family (first slot only), stage 'Order', the sale's volume, the given type and entry date, source 'Sales Integration', and is integration-managed and active |
| EngineCommon.InsertLead | classes/EnhancedValidationEngine.php:545-546 | the row is appended and its id (the new table length) returned |
| EngineCommon.Touched | classes/EnhancedValidationEngine.php:558-569 | after an overwrite the column holds the new value, every other column is unchanged, and the row is integration-managed with the batch and update time |
| EngineCommon.Logged | classes/EnhancedValidationEngine.php:572-574 | audit records are appended when the audit table accepts writes and dropped otherwise |
| EngineCommon.LoggedTwice | classes/EnhancedValidationEngine.php:572-574 | logging two groups of records in turn is logging them together |
| EngineCommon.LogSystemChange | classes/EnhancedValidationEngine.php:572-574 | an engine's change is logged with actor 'SYSTEM' and the lead's last update time as entry date |
| EngineCommon.UpdateOpportunityField | classes/EnhancedValidationEngine.php:549-575 | only row `id` changes, to the touched row, and one audit record carries the column's old and new value |
| EngineCommon.DsrMismatchAction | classes/EnhancedValidationEngine.php:154-163 | a DSR-mismatch action is level 2, type DSR_MISMATCH, priority MEDIUM, PENDING and unresolved |
| EngineCommon.CreateDsmAction | classes/EnhancedValidationEngine.php:577-597 | one action row is appended |
| EngineCommon.StageAfterSale | classes/EnhancedValidationEngine.php:274-289 | SPANCOP, Lost and Sleep become 'Order'; every other stage, Retention included, is kept |
| EngineCommon.SubSectorTarget | classes/EnhancedValidationEngine.php:734-743 | an empty sale sub-sector ('' or '0') clears the field; otherwise the sale's sub-sector is written |
| EngineCommon.RaisedPotential | classes/EnhancedValidationEngine.php:295-299 | the potential after a sale is the larger of the old potential and the new volume, and is one of the two |
| EngineCommon.Level4 | classes/EnhancedValidationEngine.php:704-720 | a different sector is overwritten by the sale's, logged and reported with both names; an equal one changes nothing |
| EngineCommon.Level5 | classes/EnhancedValidationEngine.php:725-747 | a different sub-sector is cleared (empty sale sub-sector) or overwritten, logged and reported; an equal one changes nothing |
| EngineCommon.SubSectorFollowsSale | classes/ValidationEngine.php:212-222 | after level 5 the sub-sector equals the sale's, or is '' when the sale's is empty, and sector, volume and stage are untouched |
| EngineCommon.SectorLevels | classes/EnhancedValidationEngine.php:60-66 | levels 4 and 5 leave the table length, stage, volume, potential, GSTIN and slots alone, and set sector and sub-sector from the sale |
| EngineCommon.SectorLead | classes/EnhancedValidationEngine.php:704-747 | after levels 4 and 5 the lead has the sale's sector and the sub-sector level 5 writes, every other field is unchanged, and the row is marked with the batch and time exactly when something changed |
| EngineCommon.AfterSale | classes/EnhancedValidationEngine.php:273-299 | after level 6 the stage follows the stage table, the volume is old plus sale, the potential is raised to the volume when exceeded (so never below it), the row is integration-managed, and no other field changes |
| EngineCommon.Level6Records | classes/EnhancedValidationEngine.php:273-299 | level 6 logs a stage record exactly when the stage moves to Order, a potential record exactly when the new volume exceeds the potential, and always the volume record |
| EngineCommon.Level6RecordsOfFields | classes/EnhancedValidationEngine.php:273-299 | level 6's audit records read only the stage, volume, potential and last update time of the lead |
| EngineCommon.VolumeStep | classes/EnhancedValidationEngine.php:291-299 | the volume becomes old plus sale, the potential is raised when exceeded, and the volume and potential records are logged |
| EngineCommon.VolumeStepRows | classes/EnhancedValidationEngine.php:291-299 | the volume write followed, when the new volume exceeds the potential, by the potential write gives the row the volume step promises, and each logs the old and new value of its column |
| EngineCommon.AfterSaleSteps | classes/EnhancedValidationEngine.php:273-299 | the stage write followed by the volume writes give the row `AfterSale` describes |
| EnhancedEngine.FilledSlots | classes/EnhancedValidationEngine.php:190 | the families level 3 compares against are exactly the non-empty slots ('' and '0' are dropped), at most three |
| EnhancedEngine.Decide | classes/EnhancedValidationEngine.php:190-228 | cross-sell iff the family is on no slot and was not sold last year; retention note iff on no slot but sold last year; split iff on a slot of a lead carrying more than one family; no action iff it is the lead's only family |
| EnhancedEngine.SlotsCounted | classes/EnhancedValidationEngine.php:190-194 | a family is carried exactly when it is among the filled slots, and the slot count is their number |
| EnhancedEngine.DecideBySlots | classes/EnhancedValidationEngine.php:190-228 | the decision restated on the filled slots: cross-sell or note for a family not among them, split for one among more than one, nothing for the only one |
| EnhancedEngine.Remaining | classes/EnhancedValidationEngine.php:654-663 | the families kept on a split lead are exactly its non-empty slots other than the sold family |
| EnhancedEngine.SplitRemainder | classes/EnhancedValidationEngine.php:665-692 | after a split the remaining families sit in slots 1 and 2 in their original order, slot 3 is cleared, the potential is max(0, potential - sale), the row is integration-managed, and nothing else changes |
| EnhancedEngine.SplitKeepsOtherFamilies | classes/EnhancedValidationEngine.php:654-668 | at most two families remain, every family other than the sold one stays on the lead, and the sold one is on no slot |
| EnhancedEngine.SplitPotentialFloor | classes/EnhancedValidationEngine.php:671 | the potential after a split is never negative and never above a non-negative earlier potential |
| EnhancedEngine.NoTierNoUpSell | classes/EnhancedValidationEngine.php:329-331 | a sale without a tier is taken as Mainstream and never makes an up-sell |
| EnhancedEngine.FindSku | classes/EnhancedValidationEngine.php:345-352 | the SKU lookup returns the first row of the lead for the SKU, and returns nothing only when there is none |
| EnhancedEngine.SkuVolumeUpdate | classes/EnhancedValidationEngine.php:356-365 | adding to one SKU row adds to the total of that row's lead and SKU and to no other total |
| EnhancedEngine.SkuVolumeAppend | classes/EnhancedValidationEngine.php:368-385 | inserting an SKU row adds its volume to its own lead and SKU total only |
| EnhancedEngine.GetDsrId | classes/EnhancedValidationEngine.php:752-759 | the DSR id is that of the first lead with the DSR name, or 1 when no lead has it |
| EnhancedEngine.SkuAfterSale | classes/EnhancedValidationEngine.php:343-387 | an existing (lead, SKU) row keeps the table length; otherwise exactly one row is appended with the sale volume, the family as pack, status 'A' and added by INTEGRATION_SYSTEM |
| EnhancedEngine.SkuAfterSaleTotals | classes/EnhancedValidationEngine.php:354-386 | the lead's total for the sold SKU grows by exactly the sale volume, and every other (lead, SKU) total is unchanged |
| EnhancedEngine.UpdateOpportunitySkuDetails | classes/EnhancedValidationEngine.php:343-387 | the SKU rows become `SkuAfterSale` with the looked-up DSR id, and the lead's SKU total grows by the sale |
| EnhancedEngine.Reassigned | classes/EnhancedValidationEngine.php:401-410 | exactly the customer's active, not completed call plans get the new DSR, the remark suffix, INTEGRATION_SYSTEM and the time; no other plan and no other column changes |
| EnhancedEngine.UpdateCallPlansForDsrChange | classes/EnhancedValidationEngine.php:392-417 | the call plans become those reassigned for the lead's GSTIN |
| EnhancedEngine.Percentage | classes/EnhancedValidationEngine.php:434 | the percentage is 0 when the stored volume is not positive |
| EnhancedEngine.Classify | classes/EnhancedValidationEngine.php:436-441 | OVER_SALE iff the variance is positive, UNDER_SALE iff negative, MATCH iff zero |
| EnhancedEngine.TrackVolumeDiscrepancy | classes/EnhancedValidationEngine.php:422-477 | a variance above 5 percent or above 100 in size is written as one tracking row and returned with its type, variance and percentage; any other writes nothing and returns nothing |
| EnhancedEngine.TrackerSeesUpdatedVolume | classes/EnhancedValidationEngine.php:69-81 | because the tracker runs after level 6, it sees minus the earlier volume: never an over-sale, and an under-sale whenever there was volume before |
| EnhancedEngine.NewCustomerAlwaysUnderSale | classes/EnhancedValidationEngine.php:431-444 | for a volume of twice the sale, the variance is minus the sale at minus 50 percent, significant and UNDER_SALE |
| EnhancedEngine.CreateNewOpportunity | classes/EnhancedValidationEngine.php:509-547 | one row is appended, typed by the record or 'New Customer', dated by the record's original date or now, and its id returned |
| EnhancedEngine.Level1 | classes/EnhancedValidationEngine.php:99-133 | a malformed GSTIN gives no id and no write; a known GSTIN gives the first opportunity with it, whatever its status, and no write; an unknown one appends exactly one new opportunity and gives its id |
| EnhancedEngine.Level2 | classes/EnhancedValidationEngine.php:138-171 | a mismatch is reported iff the DSR names differ; then the customer's open call plans go to the sale's DSR and one DSR_MISMATCH action is queued, otherwise neither changes |
| EnhancedEngine.RemainingProducts | classes/EnhancedValidationEngine.php:654-663 | the three conditional appends give exactly `Remaining`: the lead's other non-empty families, in slot order |
| EnhancedEngine.RemoveProductFromOpportunity | classes/EnhancedValidationEngine.php:643-699 | only the lead changes, to the split remainder, and the removed product and the new potential are logged |
| EnhancedEngine.Level3 | classes/EnhancedValidationEngine.php:176-231 | by `Decide`: a cross-sell appends one 'Cross-Sell' opportunity dated like the original; a retention note logs one record; a split appends a 'Product Split' opportunity and re-packs the original; otherwise nothing changes |
| EnhancedEngine.SplitOpportunityForProduct | classes/EnhancedValidationEngine.php:612-641 | a 'Product Split' opportunity dated like the original is appended, the original becomes the split remainder, and the removal and split records are logged |
| EnhancedEngine.Level6Inserted | classes/EnhancedValidationEngine.php:255-289 | level 6 inserts at most two opportunities |
| EnhancedEngine.Level6InsertedShape | classes/EnhancedValidationEngine.php:255-289 | an up-sell is inserted iff the tier moves from Mainstream to Premium, a 'New Product' iff a Retention lead's SKU was not sold last year; each is at 'Order' with the sale's volume and the lead's date |
| EnhancedEngine.Level6Messages | classes/EnhancedValidationEngine.php:266-301 | the last message is always the volume line (old, sale, new), and the first is the up-sell tiers exactly when an up-sell happens |
| EnhancedEngine.StageStep | classes/EnhancedValidationEngine.php:273-289 | SPANCOP, Lost and Sleep are written to 'Order' and logged; a Retention lead whose SKU was not sold last year gets one 'New Product' opportunity; nothing else changes |
| EnhancedEngine.StageAndVolume | classes/EnhancedValidationEngine.php:273-301 | the lead becomes `AfterSale`, a 'New Product' opportunity is appended in the Retention case, the level 6 records are logged, no SKU row changes, and the messages are the stage table's, then 'Annual potential updated' when the potential is exceeded, then the volume line |
| EnhancedEngine.UpSellStep | classes/EnhancedValidationEngine.php:255-267 | an up-sell opportunity is appended and reported exactly when the tier moves from Mainstream to Premium |
| EnhancedEngine.Level6 | classes/EnhancedValidationEngine.php:236-304 | the inserted opportunities are appended, the lead becomes `AfterSale`, the SKU rows are updated and the lead's SKU total grows by the sale, the level 6 records are logged and the messages are `Level6Messages` |
| EnhancedEngine.Level3Actions | classes/EnhancedValidationEngine.php:206-226 | a cross-sell reports CROSS_SELL_OPPORTUNITY_CREATED, a split OPPORTUNITY_SPLIT_FOR_PRODUCT, the other decisions nothing |
| EnhancedEngine.RecordActions | classes/EnhancedValidationEngine.php:45-58 | one record reports at most two action codes: level 2's, then level 3's |
| EnhancedEngine.TrackerResult | classes/EnhancedValidationEngine.php:431-476 | the tracker returns a summary iff the variance is significant, typed by its sign, with variance sale minus volume |
| EnhancedEngine.Level3Keeps | classes/EnhancedValidationEngine.php:665-692 | level 3 leaves volume, stage, sector, sub-sector, GSTIN, type and date alone and sets the potential to `PotentialAfterLevel3` |
| EnhancedEngine.Level3Inserted | classes/EnhancedValidationEngine.php:194-228 | level 3 inserts at most one opportunity: a 'Cross-Sell' or a 'Product Split' one |
| EnhancedEngine.Level3Outcome | classes/EnhancedValidationEngine.php:194-228 | each of the four decisions leaves the table and the log that `Level3Inserted`, `Level3Lead` and `Level3Records` describe |
| EnhancedEngine.CrossSellOutcome | classes/EnhancedValidationEngine.php:198-207 | a cross-sell appends its opportunity, keeps the lead and logs nothing |
| EnhancedEngine.KeptOutcome | classes/EnhancedValidationEngine.php:208-228 | a retention note or no action leaves the table alone, and no action also logs nothing |
| EnhancedEngine.LateLevels | classes/EnhancedValidationEngine.php:60-81 | levels 4 to 6 and the tracker append level 6's opportunities, turn row `id` into `AfterSale` of the row with the sale's sector and sub-sector, leave every other row alone, log the records of levels 4 to 6, write `SkuAfterSale`, append the tracker's rows for the updated volume and write no action or call plan |
| EnhancedEngine.SaleLevel | classes/EnhancedValidationEngine.php:68-81 | level 6 and then the tracker: the inserted rows appended, row `id` becomes `AfterSale`, the level 6 records logged, the SKU rows become `SkuAfterSale` and the lead's SKU total grows by the sale, and the tracker's row, if any, judges the volume after the sale |
| EnhancedEngine.LateLevelsCompose | classes/EnhancedValidationEngine.php:60-70 | the sector write followed by level 6 gives the table, the log and the DSR id that `LateLevels` promises |
| EnhancedEngine.SectorKeepsSale | classes/EnhancedValidationEngine.php:250-301 | levels 4 and 5 change nothing level 6's messages or the tracker read |
| EnhancedEngine.Levels3To6 | classes/EnhancedValidationEngine.php:54-81 | levels 3 to 6 and the tracker leave the table `RecordLeads`, the log `Logged(RecordAudit)`, the SKU rows `SkuAfterSale`, the tracker's rows appended, and actions and call plans untouched, and report the decision, the messages, the up-sell and the verdict on the updated volume |
| EnhancedEngine.Levels3To6Compose | classes/EnhancedValidationEngine.php:54-70 | level 3 followed by levels 4 to 6 gives the table `RecordLeads`, the log `RecordAudit` and the DSR id `RecordDsrId` |
| EnhancedEngine.Level3KeepsReports | classes/EnhancedValidationEngine.php:54-81 | the sector messages, level 6's messages and the tracker read nothing level 3 changes except the potential |
| EnhancedEngine.RecordLeadsCompose | classes/EnhancedValidationEngine.php:54-70 | level 3's rows and row rewrite, then level 6's, give `RecordLeads` |
| EnhancedEngine.RecordAuditCompose | classes/EnhancedValidationEngine.php:54-70 | level 3's records followed by those of levels 4 to 6 are `RecordAudit` |
| EnhancedEngine.RecordDsrIdCompose | classes/EnhancedValidationEngine.php:752-759 | the DSR id looked up at level 6, after level 3's rows and the up-sell, is `RecordDsrId` |
| EnhancedEngine.ReconciledLead | classes/EnhancedValidationEngine.php:54-70 | the lead after levels 2 to 6 is `Settled` and keeps its DSR, customer name, status and update time, carrying the batch and the time |
| EnhancedEngine.RecordInserted | classes/EnhancedValidationEngine.php:199-205 | one record inserts at most three opportunities, each at 'Order' with the sale's volume and GSTIN and dated like the lead |
| EnhancedEngine.RecordLeads | classes/EnhancedValidationEngine.php:44-81 | after one record the table is one row longer per inserted opportunity, holds them at its end in order, holds `ReconciledLead` at row `id` and every other row unchanged |
| EnhancedEngine.QueuedActions | classes/EnhancedValidationEngine.php:146-166 | one record queues a level 2 action exactly when the DSR names differ, naming the GSTIN and both DSRs, and nothing otherwise |
| EnhancedEngine.PlansAfter | classes/EnhancedValidationEngine.php:146-166 | the call plans keep their number, are unchanged when the DSRs agree, and only the customer's open plans can change |
| EnhancedEngine.TrackedRows | classes/EnhancedValidationEngine.php:422-477 | the tracker writes one row exactly when the variance is significant, carrying the lead id, the stored and the sold volume and the summary it returns |
| EnhancedEngine.Level1Leads | classes/EnhancedValidationEngine.php:109-130 | level 1 leaves the table as it is for a known GSTIN and appends one new opportunity otherwise |
| EnhancedEngine.Level1Id | classes/EnhancedValidationEngine.php:122-130 | level 1 settles on a row of the resulting table with the sale's GSTIN, the new last row for an unknown GSTIN |
| EnhancedEngine.Level6MessagesOfFields | classes/EnhancedValidationEngine.php:250-301 | level 6's messages depend only on the stage, volume and potential it reads |
| EnhancedEngine.SettledAfterLevels | classes/EnhancedValidationEngine.php:54-70 | the field changes of levels 3, 4-5 and 6 in turn leave the lead `Settled` |
| EnhancedEngine.ReportsAssembled | classes/EnhancedValidationEngine.php:22-94 | the result built from the levels' reports is the one `Reports` describes |
| EnhancedEngine.RunLevels | classes/EnhancedValidationEngine.php:44-85 | levels 2 to 6 and the tracker report the mismatch, the decision, the sector messages, the up-sell, the level 6 messages and the tracker's verdict on the updated volume, and leave the table `RecordLeads`, the log `Logged(RecordAudit)`, the SKU rows `SkuAfterSale`, the one queued action, the reassigned call plans and the tracker's rows appended |
| EnhancedEngine.Reconcile | classes/EnhancedValidationEngine.php:41-93 | the result of an accepted record reports exactly what the levels did, the lead ends `Settled` with its SKU total grown by the sale, and all six tables are given as functions of the old ones |
| EnhancedEngine.ValidateSalesRecord | classes/EnhancedValidationEngine.php:22-94 | a malformed GSTIN gives the FAILED result and changes no table; otherwise the record succeeds on the opportunity level 1 settles on, which ends `Settled`, and the opportunities, audit log, SKU rows, actions, call plans and discrepancies are those `RecordLeads`, `RecordAudit`, `SkuAfterSale`, `QueuedActions`, `PlansAfter` and `TrackedRows` give from the tables after level 1 |
| EnhancedEngine.NewCustomerVolumeDoubles | classes/EnhancedValidationEngine.php:540 | a new customer ends at twice the sale volume (created with it, then added at level 6), at stage 'Order', typed 'New Customer' unless given, dated by the record or now |
| EnhancedEngine.NewCustomerTrackedAsUnderSale | classes/EnhancedValidationEngine.php:69-81 | a new customer's positive sale is tracked as an UNDER_SALE of minus the sale at minus 50 percent |
| EnhancedEngine.NewCustomerNeedsNoAction | classes/EnhancedValidationEngine.php:148-228 | a new customer with a non-empty family triggers neither the level 2 nor the level 3 action |
| EnhancedEngine.Level1Existing | classes/EnhancedValidationEngine.php:127-130 | a known GSTIN leaves the table alone and settles on its first opportunity |
| EnhancedEngine.StageTable | classes/EnhancedValidationEngine.php:274 | SPANCOP, Lost and Sleep go to Order; Prospect, Suspect, Qualified, Order and Retention stay |
| ValidationEngine.CreateNewOpportunity | classes/ValidationEngine.php:286-320 | one row is appended, typed by the record or 'New Customer' and entered now, and its id returned |
| ValidationEngine.Level1 | classes/ValidationEngine.php:76-110 | a malformed GSTIN gives no id and no write; otherwise the first active opportunity with the GSTIN is used unchanged, or exactly one new opportunity is appended; the result is always active and carries the GSTIN |
| ValidationEngine.Level2 | classes/ValidationEngine.php:115-144 | a mismatch is reported iff the DSR names differ, and then exactly one DSR_MISMATCH action is queued; call plans are not in the frame |
| ValidationEngine.Level3 | classes/ValidationEngine.php:149-177 | a cross-sell happens iff the family is none of the three raw slots, and then exactly one 'Cross-Sell' opportunity is appended; otherwise nothing changes |
| ValidationEngine.Level6Inserted | classes/ValidationEngine.php:251-261 | at most one opportunity is inserted, exactly for a Retention lead whose SKU was not sold last year |
| ValidationEngine.Level6InsertedShape | classes/ValidationEngine.php:255-259 | the inserted opportunity is at 'Order', carries the sale's volume and is typed 'New Order' |
| ValidationEngine.Level6Messages | classes/ValidationEngine.php:246-274 | the last message is the volume line; 'Annual potential updated' iff the new volume exceeds the potential; 'Stage updated to Order' iff the stage is SPANCOP, Lost or Sleep |
| ValidationEngine.StageStep | classes/ValidationEngine.php:246-262 | SPANCOP, Lost and Sleep are written to 'Order' and logged; a Retention lead whose SKU was not sold last year gets one 'New Order' opportunity; nothing else changes |
| ValidationEngine.Level6 | classes/ValidationEngine.php:230-277 | the 'New Order' opportunity, if any, is appended, the lead becomes `AfterSale`, the level 6 records are logged and the messages are `Level6Messages` |
| ValidationEngine.Level1Leads | classes/ValidationEngine.php:86-107 | level 1 leaves the table as it is when an active row has the GSTIN, and appends one new opportunity otherwise |
| ValidationEngine.Level1Id | classes/ValidationEngine.php:99-107 | level 1 settles on an active row with the sale's GSTIN, the new last row when none existed |
| ValidationEngine.RecordActions | classes/ValidationEngine.php:41-50 | the record reports DSR_MISMATCH_ACTION_CREATED iff the DSRs differ and CROSS_SELL_OPPORTUNITY_CREATED iff the family is on no raw slot |
| ValidationEngine.EarlyLevels | classes/ValidationEngine.php:40-50 | levels 2 and 3 report the mismatch and the cross-sell, append only the cross-sell opportunity and leave the lead itself unchanged |
| ValidationEngine.SettledAfterLevels | classes/ValidationEngine.php:52-62 | level 6 on the lead as levels 2 to 5 left it leaves the lead `Settled` |
| ValidationEngine.LateLevels | classes/ValidationEngine.php:52-62 | levels 4 to 6 append level 6's insertions, turn row `id` into `ReconciledLead`, leave every other row alone and log `RecordAudit`, with the sector messages and `Level6Messages` |
| ValidationEngine.LateLevelsCompose | classes/ValidationEngine.php:52-62 | the sector write followed by level 6 gives the table and the log that `LateLevels` promises |
| ValidationEngine.RecordLeadsOfLevels | classes/ValidationEngine.php:40-62 | the cross-sell appended, then levels 4 to 6, give `RecordLeads` |
| ValidationEngine.ReconciledLead | classes/ValidationEngine.php:52-62 | the lead after levels 2 to 6 is `Settled` and keeps its DSR, customer name, status and update time, carrying the batch and the time |
| ValidationEngine.RecordLeads | classes/ValidationEngine.php:40-62 | after one record the table is one row longer per inserted opportunity, holds them at its end in order, holds `ReconciledLead` at row `id` and every other row unchanged |
| ValidationEngine.QueuedActions | classes/ValidationEngine.php:115-144 | one record queues a level 2 action exactly when the DSR names differ, naming the GSTIN and both DSRs, and nothing otherwise |
| ValidationEngine.Level6MessagesOfFields | classes/ValidationEngine.php:246-274 | level 6's messages depend only on the stage, volume and potential it reads |
| ValidationEngine.RunLevels | classes/ValidationEngine.php:40-62 | levels 2 to 6 report the mismatch, the cross-sell and the messages, leave the lead `Settled`, the table `RecordLeads` (exactly the cross-sell and 'New Order' opportunities appended, every other row unchanged), the log `Logged(RecordAudit)` and the one queued action |
| ValidationEngine.Reconcile | classes/ValidationEngine.php:37-70 | the result of an accepted record reports exactly what the levels did, the lead ends `Settled`, and the opportunities, the log and the actions are `RecordLeads`, `Logged(RecordAudit)` and the one queued action |
| ValidationEngine.ValidateSalesRecord | classes/ValidationEngine.php:22-71 | a malformed GSTIN gives the FAILED result and changes no table; otherwise the record succeeds on the opportunity level 1 settles on, which ends `Settled` with its product slots kept, and the opportunities, audit log and actions are those `RecordLeads`, `RecordAudit` and `QueuedActions` give from the table after level 1; no other table is written |
| ValidationEngine.NewCustomerVolumeDoubles | classes/ValidationEngine.php:314 | a new customer ends at twice the sale volume, at 'Order', typed 'New Customer' unless given, entered now |
| ValidationEngine.DeletedRowsIgnored | classes/ValidationEngine.php:91 | a customer whose every row is soft-deleted gets a new opportunity appended after them |
| ValidationEngine.Level3Differs | classes/ValidationEngine.php:161-174 | a missing family sold last year is cross-sold here but only noted by the enhanced engine; an empty family on a lead with an empty slot is cross-sold by the enhanced engine but not here |
| SalesReturn.FindOpportunityForReturn | classes/SalesReturnProcessor.php:61-77 | no lead is found iff no lead has the GSTIN, the family in a slot and stage Order or Qualified; a found lead is such a candidate with the largest converted volume among them |
| SalesReturn.StageAfterReturn | classes/SalesReturnProcessor.php:135-145 | nothing left gives 'Suspect', some volume left gives 'Order', and a negative volume keeps the stage |
| SalesReturn.PotentialAfterReturn | classes/SalesReturnProcessor.php:150-161 | the potential never decreases: a full return keeps it, a partial one makes it max(potential, remaining volume) |
| SalesReturn.ReturnRecords | classes/SalesReturnProcessor.php:189-233 | a return logs the volume first and the 'sales_return' entry from '0.00' last, plus the potential and the stage exactly when they change, all with actor RETURN_SYSTEM, the lead and the batch |
| SalesReturn.Returned | classes/SalesReturnProcessor.php:166-184 | the returned lead has the new volume, potential and stage, the batch and update time, and nothing else changes |
| SalesReturn.UpdateOpportunityAfterReturn | classes/SalesReturnProcessor.php:166-184 | only the lead changes, to `Returned` |
| SalesReturn.LogReturnChange | classes/SalesReturnProcessor.php:191-198 | one record with actor RETURN_SYSTEM is logged |
| SalesReturn.LogReturnChanges | classes/SalesReturnProcessor.php:189-233 | the records logged are exactly `ReturnRecords` |
| SalesReturn.ProcessReturn | classes/SalesReturnProcessor.php:82-130 | a return larger than the sold volume fails and changes nothing; otherwise the volume drops by the return, stage and potential follow the policy, stage_changed says whether the stage differs, and the changes are logged |
| SalesReturn.ProcessSalesReturn | classes/SalesReturnProcessor.php:23-56 | with no candidate the return fails with no backup and no change; otherwise the chosen lead is backed up first, an excess return fails without touching it, and an accepted one gives the result `ProcessReturn` gives (amount, new volume, whether the stage changed, the messages), turns only that lead into the returned one and logs the return's records |
| SalesReturn.ReturnPolicy | classes/SalesReturnProcessor.php:88-161 | an accepted return leaves a potential no lower than before, and stage 'Suspect' iff everything came back and 'Order' iff part of it did, Qualified included |
| SalesReturn.PartialReturnKeepsCapacity | classes/SalesReturnProcessor.php:158-159 | after a partial return the potential is at least the volume left |
| SalesReturn.ReturnBlocksRollback | classes/SalesReturnProcessor.php:225-232 | a batch holding a return's 'sales_return' record cannot be rolled back, so the rollback changes nothing |
| LeadManager.CanDeleteLead | classes/LeadManager.php:20-41 | deletion is refused, with the protection reason, exactly when the lead exists and is integration-managed |
| LeadManager.CanUpdateLeadStatus | classes/LeadManager.php:46-67 | a status change is refused exactly when the caller is not 'SYSTEM' and the target is 'Order', or 'Converted' on a managed lead; 'Order' is refused with the reserved-stage reason |
| LeadManager.CanUpdateField | classes/LeadManager.php:72-113 | on a managed lead a non-'SYSTEM' caller is refused exactly the eight system-only columns and warned exactly on the four overwritten ones; an unmanaged lead allows every change without warning |
| LeadManager.FieldListsDisjoint | classes/LeadManager.php:78-102 | no column is both system-only and warned about |
| LeadManager.SystemNeverDenied | classes/LeadManager.php:32-113 | the caller 'SYSTEM' is never refused a status or field change and gets no warning |
| LeadManager.DeleteLead | classes/LeadManager.php:118-138 | a managed lead is refused with the protection reason and nothing changes; otherwise the lead is soft-deleted (status 'D', update time now) in place and the row stays; an unknown id changes no row |
| LeadManager.UpdateLeadStatus | classes/LeadManager.php:143-169 | a refused change alters nothing and fails with the guard's own reason; an allowed one sets exactly that lead's stage and update time |
| LeadManager.ValidateOperation | classes/LeadManager.php:223-241 | each operation goes to its guard with 'Manual' and the empty status or field as defaults; any other operation is allowed |
| LeadManager.DefaultCallerCannotOrder | classes/LeadManager.php:224-232 | a request without `updated_by` cannot move any lead to 'Order' |
| LeadManager.LeadManagementSummary | classes/LeadManager.php:193-218 | the summary counts active, managed-active and active 'Order' leads; manual leads are active less managed and the protected count is the managed count |
| LeadManager.ManualIsUnmanagedCount | classes/LeadManager.php:207 | the manual count equals the number of active unmanaged leads, so it is never negative |
| LeadManager.DeleteUpdatesSummary | classes/LeadManager.php:118-138 | soft-deleting an active unmanaged lead lowers the active count by one and leaves the managed count alone |
| IntegrationProcessor.Trim | classes/IntegrationProcessor.php:168 | PHP's `trim` of a cell: no longer than the input, and neither end of a non-empty result is a trimmed character |
| IntegrationProcessor.TrimKeeps | classes/IntegrationProcessor.php:168 | a cell with nothing to trim at either end is read unchanged |
| IntegrationProcessor.TrimIdempotent | classes/IntegrationProcessor.php:168 | trimming a trimmed cell changes nothing |
| IntegrationProcessor.ConvertDateFormat | classes/IntegrationProcessor.php:269-274 | an 8-character date gets dashes at positions 4 and 7 (length 10); any other length is returned unchanged |
| IntegrationProcessor.ConvertDateRoundTrip | classes/IntegrationProcessor.php:269-274 | removing the dashes gives back every 8-character date, and converting twice is converting once |
| IntegrationProcessor.HeaderMap | classes/IntegrationProcessor.php:184-209 | a column is mapped exactly when its trimmed header is one of the ten recognised names, and it maps to that name's field |
| IntegrationProcessor.CreateHeaderMap | classes/IntegrationProcessor.php:184-209 | the loop over the header row builds exactly `HeaderMap` |
| IntegrationProcessor.RowRecordFields | classes/IntegrationProcessor.php:167-169 | a field is in a row's record exactly when some mapped column fills it |
| IntegrationProcessor.RowRecordValue | classes/IntegrationProcessor.php:167-169 | a field holds the trimmed cell of the last column mapped to it |
| IntegrationProcessor.MapRow | classes/IntegrationProcessor.php:166-169 | the loop over the header map builds the row's record |
| IntegrationProcessor.AllPresentMeans | classes/IntegrationProcessor.php:214-224 | the field-by-field check holds exactly when every required field is present and not empty in PHP's sense |
| IntegrationProcessor.ValidateRequiredFields | classes/IntegrationProcessor.php:214-224 | the check succeeds exactly when all five required fields are present and non-empty |
| IntegrationProcessor.ReadRow | classes/IntegrationProcessor.php:159-175 | a data row yields one record exactly when it has at least as many cells as the header and its record has every required field |
| IntegrationProcessor.Intake | classes/IntegrationProcessor.php:136-179 | the file yields at most one record per data row, and each record has every required field |
| IntegrationProcessor.IntakeStep | classes/IntegrationProcessor.php:159-175 | reading one more row appends exactly that row's record, if any |
| IntegrationProcessor.ReadDataRow | classes/IntegrationProcessor.php:162-174 | reading one row gives exactly `ReadRow` |
| IntegrationProcessor.ReadCsvFile | classes/IntegrationProcessor.php:136-179 | a file without a header row fails with 'Invalid CSV file - no headers found'; otherwise the records are `Intake` of its rows under its header map |
| IntegrationProcessor.ToSalesRecord | classes/IntegrationProcessor.php:96 | the engine sees the record's GSTIN and numeric volume, with no tier, type or entry date |
| IntegrationProcessor.ProcessSalesRecord | classes/IntegrationProcessor.php:88-114 | a record succeeds exactly when its GSTIN is well formed, counts as an update exactly when an active opportunity already had the GSTIN, adds at most two actions, and a failed one changes no opportunity |
| IntegrationProcessor.RejectedRows | classes/IntegrationProcessor.php:58-69 | at most one error per record, naming its 1-based row |
| IntegrationProcessor.RejectedRowsStep | classes/IntegrationProcessor.php:58-69 | one more record adds its row to the errors exactly when its GSTIN is malformed |
| IntegrationProcessor.EngineMsgs | classes/IntegrationProcessor.php:110 | the engine's messages are carried over one for one, in order |
| IntegrationProcessor.ProcessFileRecord | classes/IntegrationProcessor.php:58-69 | one record adds one to failed exactly when its GSTIN is malformed and one to processed otherwise, keeps every processed record new or updated with at most two actions, and adds its row to the errors exactly when its GSTIN is malformed |
| IntegrationProcessor.ProcessRecords | classes/IntegrationProcessor.php:58-74 | every record is processed or failed, failed is the number of rows with a malformed GSTIN and those rows are the errors, the counters stay consistent, and the messages end with the processed-of-total count |
| IntegrationProcessor.ProcessSalesFile | classes/IntegrationProcessor.php:26-83 | a csv or excel file without a header fails with that reason; a file with no records fails with one error and nothing counted; otherwise the file succeeds with failed equal to the number of malformed-GSTIN rows, those rows as errors, every other record processed, and the messages ending with the processed-of-total count |
| IntegrationProcessor.IntakeKeepsOnlyComplete | classes/IntegrationProcessor.php:171-174 | every record the engine is given has a non-empty GSTIN and volume |
| IntegrationProcessor.ShortRowSkipped | classes/IntegrationProcessor.php:162-164 | a data row shorter than the header is never read, whatever it holds |
| DailyBatch.MissingColumns | daily_batch_processor.php:84-90 | a column is reported missing exactly when it is one of the nine expected columns and the header lacks it |
| DailyBatch.Missing | daily_batch_processor.php:90 | the set difference keeps exactly the listed columns the header lacks, in order |
| DailyBatch.Combine | daily_batch_processor.php:104 | the record is keyed by exactly the header's names |
| DailyBatch.CombineValue | daily_batch_processor.php:104 | a name holds the cell under its last occurrence in the header |
| DailyBatch.ParseLine | daily_batch_processor.php:96-113 | a line yields a record only when its cell count equals the header's, and that record has a non-empty GSTIN and customer name |
| DailyBatch.ParsedRecords | daily_batch_processor.php:96-113 | at most one record per line, each naming its customer |
| DailyBatch.ParsedRecordsStep | daily_batch_processor.php:96-113 | parsing one more line appends exactly its record, if any |
| DailyBatch.ParseDataLine | daily_batch_processor.php:99-112 | parsing one line gives exactly `ParseLine` |
| DailyBatch.ParseCsvFile | daily_batch_processor.php:74-121 | a header missing columns fails naming them joined by ", "; otherwise the records are `ParsedRecords` of the lines; an empty file gives no records |
| DailyBatch.Chunks | daily_batch_processor.php:127-128 | every chunk is non-empty and holds at most the chunk size, and every chunk but the last holds exactly the chunk size |
| DailyBatch.ChunksFlatten | daily_batch_processor.php:128 | the chunks laid end to end are the records, in order |
| DailyBatch.FlattenSnoc | daily_batch_processor.php:147 | the records covered by the first chunks grow by one chunk at a time |
| DailyBatch.ToSalesRecord | daily_batch_processor.php:155 | the engine sees the record's GSTIN and numeric volume, and a tier or type exactly when the record has that column |
| DailyBatch.CountAccepted | daily_batch_processor.php:159-160 | at most one success per record |
| DailyBatch.FailedRecords | daily_batch_processor.php:188-193 | every record is either accepted or listed as failed |
| DailyBatch.CountAcceptedAppend | daily_batch_processor.php:147-195 | the successes and failures of two runs laid end to end add up |
| DailyBatch.RunEngine | daily_batch_processor.php:155 | the enhanced engine accepts a record exactly when its GSTIN is well formed, reports at most two actions, and otherwise gives the invalid-GSTIN message |
| DailyBatch.CountedStep | daily_batch_processor.php:157-194 | one more record adds one success or one failure with the engine's message |
| DailyBatch.ProcessBatchRecord | daily_batch_processor.php:155-194 | the counters, which were exact for the records so far, stay exact with this record added |
| DailyBatch.ProcessChunk | daily_batch_processor.php:154-195 | the counters stay exact over the chunk |
| DailyBatch.ProcessRecordsInBatches | daily_batch_processor.php:126-226 | every record is processed once; successes are exactly the records with a well-formed GSTIN, each counted as an update with at most two actions; the failures are listed in order with the engine's message; new, cross-sell and split counts stay 0 |
| DailyBatch.ProcessDailyBatch | daily_batch_processor.php:36-69 | a header missing columns fails and changes no table; an empty file counts nothing; otherwise the counters are exact for the parsed records |
| ProcessSalesApi.FirstMissing | api/process_sales.php:32-37 | no field is reported exactly when all required fields are present and non-empty; a reported field is required and absent or empty |
| ProcessSalesApi.FindMissingField | api/process_sales.php:32-37 | the scan stops at the first absent or empty required field, and finds none exactly when the request has them all |
| ProcessSalesApi.SerializedRow | api/process_sales.php:49-65 | the written row has one cell per column of the written header |
| ProcessSalesApi.ApiHeaderEntry | api/process_sales.php:44-45 | the reader recognises each written column and maps it to the field of the same position |
| ProcessSalesApi.ApiHeaderMap | api/process_sales.php:44-46 | the reader maps every written column, and only those, to its field |
| ProcessSalesApi.ReadBackPrefix | api/process_sales.php:64 | reading the first columns of the written row builds those fields, trimmed |
| ProcessSalesApi.ReadBack | api/process_sales.php:44-71 | reading back the written file's row gives every request field, trimmed, under its own name |
| ProcessSalesApi.SingleRowIntake | api/process_sales.php:71 | a file of one data row yields what that row yields |
| ProcessSalesApi.ApiIntake | api/process_sales.php:44-71 | the written file yields one record exactly when the trimmed required fields are all non-empty, and none otherwise |
| ProcessSalesApi.ProcessApiFile | api/process_sales.php:39-74 | processing the written file succeeds exactly when the record survives the reader's trimming and checks; then it holds one record, failed exactly when its trimmed registration_no is a malformed GSTIN and processed otherwise, the messages close with the processed count, and a failed record leaves only that closing message |
| ProcessSalesApi.FirstFive | api/process_sales.php:87 | the shown messages are a prefix of the intake's messages, all of them when there are at most five and exactly five otherwise |
| ProcessSalesApi.HandleRequest | api/process_sales.php:16-104 | another method is 405; a malformed or empty body is 500 'Invalid JSON data'; a list or an object missing a field is 500 naming the first missing field; a complete object is 200 exactly when its record survives trimming, with the intake's counters (one record, failed exactly when its GSTIN is malformed) and the intake's first five messages, and 400 otherwise with the intake's error list |
| ProcessSalesApi.ApiFieldsDistinct | api/process_sales.php:52-63 | the ten written fields are distinct |
| ProcessSalesApi.FieldsRecordValue | api/process_sales.php:64 | a field holds its own trimmed cell when no later field has the same name |
| ProcessSalesApi.ApiRecordField | api/process_sales.php:52-63 | each field of the read-back record is the request's value, or its default, trimmed |
| ProcessSalesApi.BlankVolumeDropped | api/process_sales.php:34 | a volume of spaces passes the endpoint's own check but the reader trims it away, so the record is dropped |
| ProcessSalesApi.ApiFieldKept | api/process_sales.php:52-63 | a written field that is non-empty after trimming is kept, non-empty |
| ProcessSalesApi.RequiredFieldsKept | api/process_sales.php:32 | a record keeping each of the five required fields has them all |
| ProcessSalesApi.TrimmedFieldsComplete | api/process_sales.php:32-65 | a request whose required fields are non-empty after trimming gives a complete record |
| ProcessSalesApi.TrimmedFieldsKept | api/process_sales.php:32-71 | such a request becomes exactly one record for the intake |
| ActionQueue.ResolutionFor | dsm/action_queue.php:34-51 | a DSR mismatch records 'Assign Sales DSR' with the sale's DSR or 'Keep Opportunity DSR' with the opportunity's exactly for those two resolutions; anything else records no choice and no DSR |
| ActionQueue.Completed | dsm/action_queue.php:53-61 | the resolved action is COMPLETED at `now` with that resolution, and nothing else about it changes |
| ActionQueue.AssignedDsr | dsm/action_queue.php:45-49 | every opportunity of the customer, whatever its status, gets the sale's DSR; other rows and other columns stay |
| ActionQueue.ResolveAction | dsm/action_queue.php:17-70 | an unknown id gives 'Action not found' as a danger message and changes nothing; otherwise the action is completed, the message is a success, and the opportunities change only for a DSR mismatch resolved by assigning the sales DSR |
| ActionQueue.HandlePost | dsm/action_queue.php:13-18 | anything but a POST with an action id changes nothing and shows no message; such a POST with an unknown id shows 'Action not found' and changes nothing, and with a known id completes that action and, for an assigned sales DSR, rewrites the DSR of every opportunity of the customer |
| ActionQueue.AssignIdempotent | dsm/action_queue.php:45-49 | assigning the same DSR twice is the same as once |
| ActionQueue.FindByGstinSameKeys | dsm/action_queue.php:46 | rewriting only the DSR column does not move the first opportunity found for a GSTIN |
| ActionQueue.AssignSettlesMismatch | dsm/action_queue.php:41-49 | after the assignment the opportunity a later sale of the customer settles on is the same row and carries the sales DSR |
| ActionQueue.LastResolutionWins | dsm/action_queue.php:53-61 | resolving an action twice keeps only the last resolution and time |
| ActionQueue.MismatchActionResolutions | dsm/action_queue.php:34-61 | a queued DSR-mismatch action goes from PENDING to COMPLETED, recording the sales DSR for an assignment, the opportunity DSR for a keep, and nothing otherwise |

## Left out

- SQL, PDO connections, transactions, file handles, temporary files, logs and HTTP headers are not modelled. Every class's own database connection is the one shared `Database`.
- Batch ids, `date()`, `NOW()`, `microtime()` and `rand()` are parameters, not computed.
- Message texts that embed numbers are modelled as a `Msg` datatype; number-to-text formatting is not modelled.
- PHP floats are modelled as exact reals; rounding in `round(..., 2)` percentages and float comparison are not modelled.
- PHP's loose comparison (`==` between numeric strings) is modelled as string equality.
- `strlen` counts bytes; the model counts characters, so multi-byte text is not distinguished.
- Exceptions thrown by the database (a failed query, a lost connection) are not modelled.
  - The engines' catch-all exception paths are not modelled.
  - The daily batch's per-chunk rollback, which marks a whole chunk as failed, is not modelled.
  - The action queue's PDO exceptions are not modelled.
- The opportunity row keeps only the columns the logic reads or writes. Other columns take their table defaults:
  - status 'A';
  - potential 0;
  - DSR id 0;
  - the second and third product slots '';
  - update time: the schema's default is not known, and the model takes the insert time `now`, so the audit records later written about a new row carry that time as their entry date.
- The opportunity's type is one field, `oppType`, for two columns. The older engine's insert writes it to `opportunity_type` (classes/ValidationEngine.php:290-312); the enhanced engine's insert writes it to `opp_type` (classes/EnhancedValidationEngine.php:513-538).
  - No modelled logic reads either column back. The enhanced engine selects `opportunity_type` at classes/EnhancedValidationEngine.php:183 and never uses it.
- Choosing a return candidate from several with the same largest volume takes the first by id. The database's unspecified order is not modelled.
- Store.FindByGstin, EnhancedEngine.FindSku, EnhancedEngine.GetDsrId: a `LIMIT 1` or a first fetch without `ORDER BY` is modelled as the row with the lowest id (primary-key order). The database's unspecified order is not modelled.
  - SQL `=` on text is modelled as exact string equality. The column collation is not known; MySQL's default collations ignore case and trailing spaces.
- AuditLogger.Changes, AuditLogger.RollbackBatch, AuditLogger.EarliestChangeWins: the rollback's `ORDER BY data_changed_on DESC` is modelled as descending record id.
  - `logChange` does not write `data_changed_on`, so it holds the insert time, and the records of one batch written within the same second tie. The database's order for such ties is unspecified.
  - EarliestChangeWins therefore describes the source only when a field's changes in the batch carry distinct times. Under the opposite tie order the field ends at the old value of the later change.
- The previous-year sales tables and the latest up-sell tier are read-only inputs (`EngineCommon.Lookups`). Their queries are not modelled.
- AuditLogger.getAuditHistory, SalesReturnProcessor.getReturnHistory and LeadManager.getIntegrationManagedLeads are read-only listings ordered by timestamps, and they are not modelled.
- The staging table, the statistics tables, the batch report and the listings and HTML of the action-queue page (dsm/action_queue.php:72-96) are not modelled.
- Encoding and decoding are not modelled: CSV (`fgetcsv`/`fputcsv`, including the 1000-character line limit of the daily batch), JSON and the JSON text stored in backups and action resolutions.
  - The endpoint's file is read back as the header row and data row it writes.
  - A request arrives decoded, with text values only. Numbers, booleans and nested values in a JSON body are not modelled.
  - A body that is a JSON scalar is not modelled.
  - An object with the key "0" being treated as a list is not modelled.
- The action queue's `action_id` is an integer. The conversion from the posted text is not modelled. A missing `resolution` is treated as an unrecognised one.
- The daily batch's `original_entered_date` column is not read.
- EnhancedEngine.CreateNewOpportunity: the enhanced engine's insert does not write `parent_opportunity_id` or `annual_potential`, so a split opportunity starts with potential 0. The data it passes for those is dropped, as in the source.
- IntegrationProcessor.ProcessSalesRecord: states only the success, existing-customer and action-count facts that the file counters need. The backup it writes first is AuditLogger.CreateBackup's, and ValidationEngine.ValidateSalesRecord states every table after the record.
- DailyBatch.RunEngine: states only what the counters need of the enhanced engine. EnhancedEngine.ValidateSalesRecord states every table after the record.
- Concurrency between requests and batches is not modelled.
