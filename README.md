# wix-tasks, modelled in Dafny

wix-tasks is a set of scheduled jobs and one-off scripts for a building-materials retailer. It connects its ERP (MSSQL), its Odoo instance, a PostgreSQL price database and its Wix store. An admin dashboard sits on top. This project models the decision logic of those jobs and proves properties of it. The remote calls, SQL, files and clocks become inputs or parameters.

The main part is the chat-lead engine. It exists twice: a Python script (`scripts/odoo_chat_leads_report.py`, `scripts/odoo_chat_analysis.py`) and a TypeScript task (`src/tasks/odoo-chat-leads.ts`, `src/tasks/odoo-chat-analysis.ts`). It covers:

- reading one live-chat session: HTML stripping, noise filtering and visitor detection (`ChatSignals`, `SessionColumns`);
- extracting intents, product categories and e-mail addresses;
- the first-match client-type cascade, the additive priority score, its five tiers and the suggested approach (`LeadScoring`);
- building, enriching, ranking and splitting the leads (`ChatLeads`);
- the corpus reports: month, weekday and hour buckets, per-session tag counts and unique addresses (`PyChatAnalysis`, `TsChatAnalysis`, `Calendar`);
- the CSV writer (`Csv`).

The other modules follow the other jobs, one module per source file or concern:

- ERP → Odoo inventory sync (`src/tasks/odoo-inventory-sync.ts`):
  - `Batches`: the `chunk` helper;
  - `InventorySync`: unit of measure, normalisation, the category tree and branches;
  - `CategorySync`: level-by-level category creation;
  - `InventoryDiff`: the create, update and archive diff and the grouped writes;
  - `StockSync`: stock-quant corrections;
  - `ImageSync`: image fingerprints and uploads.
- `PriceSync` (`src/tasks/odoo-price-sync.ts`): the price diff and its retry policy.
- `PriceInventorySync` (`src/tasks/price-inventory-sync.ts`): the Wix stock threshold, the watermark and the test limit.
- `ErpPostgresSync` (`src/tasks/erp-postgres-sync.ts`): COPY text encoding, zone and priority rules, change classification and the report e-mails.
- `MailingBulk` (`scripts/odoo_mailing_bulk.py`): e-mail clean-up, de-duplication and batched creation.
- `SettingsDb` (`src/services/settings-db.ts`) and `SetupDb` (`scripts/setup-db.ts`): the key-value settings table and its insert-or-ignore seeding.
- `Scheduler` (`src/scheduler.ts`): the task state machine, with its running guard and bounded history.
- `Logging` (`src/utils/logger.ts`): the level gate and the bounded log buffer.
- `AdminServer` (`src/admin/server.ts`): configuration flattening and redaction, the nested setter, session tokens, run guards, the cron description and HTML escaping.
- `WixCatalog`, `WixFullExport` and `ExportWixCatalog` (`scripts/wix_full_export.ts`, `scripts/export_wix_catalog.ts`): Wix catalogue pagination and CSV rows.

The helper modules hold behaviour the sources get from their languages:

- `Text`: string functions;
- `Seqs`: sequence helpers;
- `OrderedMap`: JavaScript `Map` insertion order;
- `Sorting`: stable sort by a key;
- `Tally`: counters;
- `Wrappers`: the Option and Result types.

Where state changes step by step in the source, the model is imperative:

- The classes are `SettingsDb.Store`, `Scheduler.TaskState`, `Scheduler.Registry`, `Logging.LogBuffer`, `Logging.Logger`, `PriceInventorySync.Task` and `AdminServer.Sessions`.
- Each loop is a `method` whose `ensures` ties its result to a specification function, with lemmas proving that function's properties.

Elsewhere the model consists of functions and lemmas.

Where a comment and the code disagree, the model follows the code:

- The Mexicali zone is the code's branch list, 101-106, 108-110, 112 and 113 (src/tasks/erp-postgres-sync.ts:426). The `wix.branch_prefix` description at src/services/settings-db.ts:70 suggests that prefix "1" alone selects Mexicali.
- The engagement term counts all of a session's messages, noise and operator turns included. The comment at scripts/odoo_chat_leads_report.py:218 says more messages mean more interest.

Where two versions of the same step differ, each is modelled as written:

- The leads script in Python keeps each e-mail's raw case and lowercases only the primary one (scripts/odoo_chat_leads_report.py:331 and 358). The TypeScript leads task lowercases every e-mail as it extracts it (src/tasks/odoo-chat-leads.ts:222). The Python chat analysis lowercases every captured address (scripts/odoo_chat_analysis.py:214).
- The `trackQuantity` tests differ: the full export checks `!== undefined` (scripts/wix_full_export.ts:56) and the catalogue export uses `in` (scripts/export_wix_catalog.ts:144). On decoded JSON they agree, since JSON has no `undefined` values, so one predicate models both.

## Model

| member | source | states |
|---|---|---|
| ChatSignals.MessagesOf | scripts/odoo_chat_leads_report.py:297-299 | the messages of one session are exactly those of the fetched messages whose `res_id` is that session |
| ChatSignals.GroupByResId | scripts/odoo_chat_leads_report.py:297-299 | `msgs_by_session`: every group is non-empty and holds the session's messages in fetch order (same grouping in src/tasks/odoo-chat-leads.ts:186-191) |
| ChatSignals.Chronological | scripts/odoo_chat_leads_report.py:311 | the messages sorted by `date` are a permutation of the session's messages, ordered by date; messages with the same date keep the order in which they were fetched |
| ChatSignals.SessionSeesOwnMessages | src/tasks/odoo-chat-leads.ts:202-203 | a session reads exactly its own messages, oldest first |
| ChatSignals.StripTags | src/tasks/odoo-chat-leads.ts:13-15 | removing `<...>` tags keeps only characters of the input and leaves no `<` followed later by `>` |
| ChatSignals.StripTagsKeepsText | src/tasks/odoo-chat-leads.ts:13-15 | text before the first `<` is kept unchanged, in front of what the rest strips to |
| ChatSignals.StripTagsDropsTag | src/tasks/odoo-chat-leads.ts:13-15 | a complete tag `<...>` at the front is removed and nothing else changes |
| ChatSignals.StripTagsBetween | src/tasks/odoo-chat-leads.ts:13-15 | text on both sides of one tag is kept, joined with nothing in between |
| ChatSignals.StripTagsPlainText | src/tasks/odoo-chat-leads.ts:14 | text with no `<` passes through the tag removal unchanged |
| ChatSignals.StripHtmlLeavesNoTag | src/tasks/odoo-chat-leads.ts:13-15 | after trimming, no complete tag survives in `stripHtml`'s result |
| ChatSignals.StripHtmlPlainText | src/tasks/odoo-chat-leads.ts:13-15 | `stripHtml` of text without `<` is the text trimmed |
| ChatSignals.CatalogsNest | src/tasks/odoo-chat-leads.ts:19-28 | the leads task's 8 intent tags are among the analysis task's 10 (src/tasks/odoo-chat-analysis.ts:19-30), which are among the Python script's 13 (scripts/odoo_chat_leads_report.py:134-148) |
| ChatSignals.ProductCatalogsAgree | scripts/odoo_chat_leads_report.py:150-163 | the Python and TypeScript product tables (src/tasks/odoo-chat-leads.ts:30-43) name the same twelve categories |
| ChatSignals.AddMatching | scripts/odoo_chat_leads_report.py:333-339 | the catalog loop adds each tag whose pattern matches, in catalog order, unless already present |
| ChatSignals.ExtractSignals | scripts/odoo_chat_leads_report.py:319-344 | the per-message loop (skip noise, classify visitor or operator, collect text, e-mails, intents, products, transcript lines) computes the session's signals (same loop in src/tasks/odoo-chat-leads.ts:211-235) |
| ChatSignals.AddMatchesMembership | scripts/odoo_chat_leads_report.py:333-335 | a tag is in the result of the catalog loop exactly when it was already there or it is in the catalog and its pattern matches |
| ChatSignals.AddMatchesDistinct | scripts/odoo_chat_leads_report.py:314-315 | the catalog loop keeps the set property: no tag appears twice |
| ChatSignals.MentionedInAppend | scripts/odoo_chat_leads_report.py:326-339 | a tag is mentioned in the visitor texts plus one more exactly when mentioned before or in the new text |
| ChatSignals.TagsAreMentions | scripts/odoo_chat_leads_report.py:326-339 | a session has an intent (product) exactly when the tag is in the catalog and some visitor text matches its pattern |
| ChatSignals.TagsDistinct | scripts/odoo_chat_leads_report.py:314-315 | each intent and each product is recorded at most once per session |
| ChatSignals.VisitorTextsAreSpeakingMessages | scripts/odoo_chat_leads_report.py:319-327 | the visitor texts are the stripped bodies of exactly the non-noise visitor messages, in order |
| ChatSignals.NoVisitorTextIffSilent | scripts/odoo_chat_leads_report.py:346-348 | a session yields no visitor text exactly when every message is noise or an operator's (both directions) |
| ChatSignals.SpokeIffSomeMessageSpeaks | scripts/odoo_chat_leads_report.py:311-348 | sorting the messages by date does not change whether the visitor spoke |
| ChatSignals.VisitorTextsAreNotNoise | scripts/odoo_chat_leads_report.py:321-322 | no visitor text is empty or a restart or "left" notice |
| ChatSignals.EmailsComeFromVisitorTexts | scripts/odoo_chat_leads_report.py:330-331 | the session's addresses are those found in its visitor texts, in the order written |
| ChatSignals.LoweredEmailsAreLowerCase | src/tasks/odoo-chat-leads.ts:221-222 | with the TypeScript lower-casing every session address is lower case |
| SessionColumns.SessionMessages | scripts/odoo_chat_analysis.py:159 | a session's sorted message list is a permutation of its own messages in the fetch |
| SessionColumns.MessageCount | scripts/odoo_chat_analysis.py:210 | `num_messages` is the number of the session's own messages, however they are ordered |
| SessionColumns.SessionColumnsAt | scripts/odoo_chat_analysis.py:192-196 | the i-th entry of the per-session intent, product and address columns is what session i's messages yield |
| SessionColumns.ReadSession | scripts/odoo_chat_analysis.py:159-190 | reading one session (sort its group, run the message loop) gives its message count and its signals |
| SessionColumns.CountEach | scripts/odoo_chat_analysis.py:192-195 | `counter[tag] += 1` for each tag of the session adds one per tag to the tally |
| SessionColumns.TalliesCountSessions | scripts/odoo_chat_analysis.py:192-195 | the intent and product counters count, for each tag, the sessions carrying it (never more than the number of sessions), since a session holds a tag once |
| LeadScoring.ClassifyIsFirstMatch | scripts/odoo_chat_leads_report.py:165-183 | `classify_client_type` is the first rule that fires in the ordered table of seven rules, with 'Prospecto General' as the default (same cascade in src/tasks/odoo-chat-leads.ts:75-87) |
| LeadScoring.FirstMatch | scripts/odoo_chat_leads_report.py:165-183 | the reference reading of a rule table: the result is the default or the type of a firing rule, and it is the type of the first firing rule whenever one fires |
| LeadScoring.ContractorOutranksBulk | scripts/odoo_chat_leads_report.py:169-174 | a contractor intent or contractor wording gives 'Contratista/Constructor' even when the bulk-quote rules would also fire |
| LeadScoring.ContractorIff | scripts/odoo_chat_leads_report.py:169-170 | the type is 'Contratista/Constructor' exactly when rule 1 fires |
| LeadScoring.BulkQuoteSplit | scripts/odoo_chat_leads_report.py:171-174 | with a bulk-quote intent and rule 1 silent, two or more distinct products give 'Mayorista/Distribuidor', fewer give 'Comprador de Volumen' |
| LeadScoring.ProspectIffNoRule | scripts/odoo_chat_leads_report.py:169-183 | 'Prospecto General' is returned exactly when none of the seven rules fires |
| LeadScoring.LabelsDistinct | scripts/odoo_chat_leads_report.py:165-183 | distinct client types carry distinct labels, so the label string identifies the rule that fired |
| LeadScoring.RecencyPoints | scripts/odoo_chat_leads_report.py:189-198 | the recency term lies in 0..40 |
| LeadScoring.ProductPoints | scripts/odoo_chat_leads_report.py:215-216 | the product term is at most 15 and at most 5 per product, and exactly 15 from three products on |
| LeadScoring.EngagementPoints | scripts/odoo_chat_leads_report.py:218-222 | the engagement term lies in 0..10 |
| LeadScoring.IntentPoints | scripts/odoo_chat_leads_report.py:205-213 | the purchase-intent terms add up to 0..55 |
| LeadScoring.Penalty | scripts/odoo_chat_leads_report.py:224-228 | the two penalties add up to 0..25 |
| LeadScoring.Tier | scripts/odoo_chat_leads_report.py:230-239 | the tier lies in 1..5 |
| LeadScoring.CalculatePriority | scripts/odoo_chat_leads_report.py:185-239 | the priority number lies in 1..5 and its caption is the one for that tier (same in src/tasks/odoo-chat-leads.ts:89-112) |
| LeadScoring.TierCountsMissedThresholds | scripts/odoo_chat_leads_report.py:230-239 | reference definition: the tier is one plus the number of thresholds 70, 50, 35, 20 the score falls short of |
| LeadScoring.TierBoundaries | scripts/odoo_chat_leads_report.py:230-237 | each threshold is inclusive: 70 gives tier 1 and 69 tier 2, and likewise at 50, 35 and 20 |
| LeadScoring.TierMonotone | scripts/odoo_chat_leads_report.py:230-239 | a higher score never gives a worse tier |
| LeadScoring.IntentWeight | scripts/odoo_chat_leads_report.py:206-213 | an intent is worth points exactly when it is one of bulk quote, contractor, product search and price question |
| LeadScoring.IntentMonotone | scripts/odoo_chat_leads_report.py:206-239 | adding a weighted intent the lead did not have raises the score by at least its weight and never gives a worse priority |
| LeadScoring.RecencyMonotone | src/tasks/odoo-chat-leads.ts:91-94 | on a fixed input a smaller days-ago never lowers the score nor worsens the tier |
| LeadScoring.EmailBonus | scripts/odoo_chat_leads_report.py:201-203 | having an e-mail address adds exactly 15 points |
| LeadScoring.ProductCap | scripts/odoo_chat_leads_report.py:215-216 | any two product sets of three or more products give the same score |
| LeadScoring.ScoreBounds | scripts/odoo_chat_leads_report.py:187-228 | the unclamped score lies in -15..135, because the two penalties cannot apply together |
| LeadScoring.SiteProblemPenalty | scripts/odoo_chat_leads_report.py:227 | the site-problem penalty applies exactly when the intent set is {'problema_sitio'} |
| LeadScoring.Suggestions | scripts/odoo_chat_leads_report.py:241-273 | the suggestion list is never empty and holds no empty suggestion |
| LeadScoring.SuggestApproach | scripts/odoo_chat_leads_report.py:241-275 | the suggested approach is never the empty string (same in src/tasks/odoo-chat-leads.ts:114-146) |
| LeadScoring.FallbackIffNothingTriggered | scripts/odoo_chat_leads_report.py:269-273 | no rule fires exactly when none of the triggering intents is present and the type is neither contractor nor distributor; only then is the fallback used, naming the products when there are any |
| LeadScoring.PriceAndProblemNotes | scripts/odoo_chat_leads_report.py:260-267 | a price intent always brings the price-list note and a site problem the apology note |
| ChatLeads.SortedTags | scripts/odoo_chat_leads_report.py:370-371 | `sorted(session_intents)`: a permutation of the tags in code-unit order |
| ChatLeads.LeadIffVisitorSpoke | scripts/odoo_chat_leads_report.py:346-348 | a session yields a lead exactly when one of its messages is the visitor's and not noise (src/tasks/odoo-chat-leads.ts:237) |
| ChatLeads.EngagementCountsEveryMessage | scripts/odoo_chat_leads_report.py:353-355 | the message count handed to the priority score and stored as `num_mensajes` counts every message of the session, noise and operator turns included |
| ChatLeads.PrimaryEmailIsFirstFound | scripts/odoo_chat_leads_report.py:358-360 | the lead's address is the first address found in visitor-message order, lower-cased and stripped (TypeScript: already lower-cased, src/tasks/odoo-chat-leads.ts:222-245), and is always lower case |
| ChatLeads.IntentColumn | scripts/odoo_chat_leads_report.py:370 | no intent gives 'sin_clasificar'; otherwise the column is the sorted intents joined by ", " |
| ChatLeads.LeadsOfSessions | scripts/odoo_chat_leads_report.py:306-392 | every lead comes from one of the sessions and every session with visitor text contributes its lead |
| ChatLeads.LeadEmailsAreEmails | scripts/odoo_chat_leads_report.py:359-360 | `all_lead_emails` holds exactly the non-empty primary addresses of the leads |
| ChatLeads.LeadEmailsSnoc | scripts/odoo_chat_leads_report.py:359-360 | adding a lead adds its address to the set, when it has one |
| ChatLeads.SessionLead | scripts/odoo_chat_leads_report.py:306-362 | the body of the session loop builds the session's lead from its grouped messages |
| ChatLeads.KeepLead | scripts/odoo_chat_leads_report.py:359-362 | `leads.append` and `all_lead_emails.add` keep the address set equal to the leads' addresses |
| ChatLeads.ExtractLeads | scripts/odoo_chat_leads_report.py:306-392 | the session loop returns the leads of all sessions, in session order, and the set of their addresses (same loop in src/tasks/odoo-chat-leads.ts:198-265) |
| ChatLeads.ContactOf | scripts/odoo_chat_leads_report.py:399-409 | the copied contact is an existing client exactly when Odoo reports a sale order or an invoiced amount |
| ChatLeads.EnrichedOnlyContact | scripts/odoo_chat_leads_report.py:398-409 | enrichment changes only the contact columns, and only for a lead whose address Odoo knows |
| ChatLeads.EnrichLeads | scripts/odoo_chat_leads_report.py:397-409 | the enrichment loop replaces every lead by its enriched form, in place |
| ChatLeads.SortLeads | scripts/odoo_chat_leads_report.py:413 | the in-place sort leaves a permutation of the leads sorted by (tier, days), in which leads with equal keys keep their original order: the stable sort of src/tasks/odoo-chat-leads.ts:303 |
| ChatLeads.RankedOrder | scripts/odoo_chat_leads_report.py:413 | ranking is a permutation in which tiers never decrease, within a tier older chats come later, and leads with equal keys keep their order |
| Sorting.SortByStable | scripts/odoo_chat_leads_report.py:413 | the sort keeps, for every key, the elements with that key in their original order, as Python's `list.sort` does |
| ChatLeads.ListsPartition | src/tasks/odoo-chat-leads.ts:305-306 | the follow-up list holds exactly the leads with an address, the missed list exactly the tier 1 to 3 leads without one; with and without an address together are all leads (scripts/odoo_chat_leads_report.py:416-457) |
| ChatLeads.CountByPriorityCounts | src/tasks/odoo-chat-leads.ts:392-396 | `countByPriority` counts every lead under its own label, so the counts sum to the number of leads |
| ChatLeads.LeadsReport | src/tasks/odoo-chat-leads.ts:198-306 | the report pipeline: extract, enrich, rank and split, giving the two lists and the address set |
| ChatLeads.RankLeads | scripts/odoo_chat_leads_report.py:397-413 | enriching and sorting in place gives a permutation of the enriched leads sorted by (tier, days), with equal keys in their original order |
| PyChatAnalysis.AnalyzeChats | scripts/odoo_chat_analysis.py:90-227 | `analyze_chats` returns the analysis of the sessions: totals, the three time tables, the tag counters, the lower-cased address set and one conversation row per session |
| PyChatAnalysis.SessionLoop | scripts/odoo_chat_analysis.py:151-214 | the session loop leaves each counter equal to the count of its key over all sessions, the captured addresses in session order, and the conversation rows |
| PyChatAnalysis.TimeStep | scripts/odoo_chat_analysis.py:153-157 | `sessions_by_month`, `sessions_by_weekday` and `sessions_by_hour` each count one more session, under its `%Y-%m` month, Monday-first weekday name and UTC hour |
| PyChatAnalysis.SignalStep | scripts/odoo_chat_analysis.py:159-214 | reading one session adds its tags once each to the counters, appends its addresses and appends its conversation row |
| PyChatAnalysis.WeekdayNamesDistinct | scripts/odoo_chat_analysis.py:106 | the seven weekday names are distinct, so the weekday table has no merged rows |
| PyChatAnalysis.TablesCountEverySession | scripts/odoo_chat_analysis.py:153-157 | every session is counted in each time table, whether or not its visitor wrote: each table sums to `total_sessions` |
| PyChatAnalysis.WeekdayTableZeroFilled | scripts/odoo_chat_analysis.py:221 | the weekday table lists the seven names Monday first, each with its number of sessions, zero when none |
| PyChatAnalysis.OncePerSession | scripts/odoo_chat_analysis.py:192-195 | an intent (product) is counted once per session that mentions it, never more than there are sessions |
| PyChatAnalysis.EmailsCapturedAreLowered | scripts/odoo_chat_analysis.py:216-217 | the captured addresses are exactly the lower-cased forms of the addresses found in visitor text, each listed once |
| PyChatAnalysis.OneConversationPerSession | scripts/odoo_chat_analysis.py:198-209 | one conversation row per session in session order, with its id, its message count, and 'sin_clasificar' or 'ninguno' when it has no intent or product |
| PyChatAnalysis.TijuanaColumnIsPermutation | scripts/odoo_chat_analysis.py:327-329 | the Tijuana column `(hour - 8) % 24` of the 24-row hour table lists every hour of the day exactly once |
| PyChatAnalysis.HourTableShowsEverySession | scripts/odoo_chat_analysis.py:326-332 | the UTC hours fall in 0..23, so the 24-row table accounts for every session |
| TsChatAnalysis.AddEach | src/tasks/odoo-chat-analysis.ts:226-229 | `emailsSet.add(e)` for each found address appends the addresses not yet present, in order |
| TsChatAnalysis.AnalyzeChats | src/tasks/odoo-chat-analysis.ts:183-271 | `analyze` returns the analysis of the sessions: totals, the three time tables, the tag counters, the address set in first-seen order and one conversation row per session |
| TsChatAnalysis.SessionLoop | src/tasks/odoo-chat-analysis.ts:199-259 | the session loop leaves each counter equal to the count of its key over all sessions, the address set and the conversation rows |
| TsChatAnalysis.TimeStep | src/tasks/odoo-chat-analysis.ts:200-204 | the month, weekday and hour tables each count one more session, under its UTC `YYYY-MM`, `WEEKDAYS[getUTCDay()]` and UTC hour |
| TsChatAnalysis.SignalStep | src/tasks/odoo-chat-analysis.ts:206-258 | reading one session adds its tags once each to the counters, its new addresses to the set and its row to the conversations |
| TsChatAnalysis.WeekdayNamesAgree | src/tasks/odoo-chat-analysis.ts:62 | the Sunday-first `WEEKDAYS[getUTCDay()]` names the same day as Python's Monday-first `weekday_names[weekday()]` (scripts/odoo_chat_analysis.py:106-155) |
| TsChatAnalysis.TablesCountEverySession | src/tasks/odoo-chat-analysis.ts:200-204 | each time table sums to the number of sessions, and only weekday names some session fell on appear, with a positive count |
| TsChatAnalysis.OncePerSession | src/tasks/odoo-chat-analysis.ts:243-244 | an intent (product) is counted once per session that mentions it, never more than there are sessions |
| TsChatAnalysis.EmailsCapturedOnce | src/tasks/odoo-chat-analysis.ts:225-267 | the captured addresses are exactly the addresses found, each once, all lower case |
| TsChatAnalysis.FoundEmailsAreLower | src/tasks/odoo-chat-analysis.ts:227-228 | every address found in a session is lower case |
| TsChatAnalysis.OneConversationPerSession | src/tasks/odoo-chat-analysis.ts:248-258 | one conversation row per session in session order, with its id and message count; the placeholder shows exactly when the session has no intent (product) |
| TsChatAnalysis.TagsAreCatalogKeys | src/tasks/odoo-chat-analysis.ts:233-238 | every recorded intent (product) is a key of the catalog |
| TsChatAnalysis.ConversationPlaceholders | src/tasks/odoo-chat-analysis.ts:255-256 | with catalog tags, the joined list or its fallback 'sin_clasificar' ('ninguno') is the placeholder exactly when the session has no intent (product) |
| TsChatAnalysis.JoinOrPlaceholder | src/tasks/odoo-chat-analysis.ts:255-256 | joining catalog keys gives the fallback only for the empty list, since no key is empty or the fallback |
| Batches.ChunksProperties | src/tasks/odoo-inventory-sync.ts:89-93 | `chunk`'s pieces concatenate back to the input; none is empty or longer than the size, and all but the last hold exactly the size |
| Batches.ChunkCount | src/tasks/odoo-inventory-sync.ts:89-93 | `chunk` makes ceil(length / size) pieces |
| Batches.Chunk | src/tasks/odoo-inventory-sync.ts:89-93 | the slicing loop of `chunk` produces the pieces front first |
| InventorySync.ResolveUomId | src/tasks/odoo-inventory-sync.ts:96-116 | the Odoo unit is always one of the nine mapped unit ids, and an unknown name falls back to Units (1) |
| InventorySync.UomIdsKnown | src/tasks/odoo-inventory-sync.ts:96-112 | every entry of the unit table is one of the nine Odoo unit ids |
| InventorySync.ResolveUomCanonical | src/tasks/odoo-inventory-sync.ts:114-116 | the unit lookup ignores letter case and surrounding blanks |
| InventorySync.CanonicalKey | src/tasks/odoo-inventory-sync.ts:115 | upper-casing and trimming a second time changes nothing |
| InventorySync.OrDefault | src/tasks/odoo-inventory-sync.ts:383-385 | a blank NULL-able text column falls back to its default, so the result is non-empty whenever the default is |
| InventorySync.Barcode | src/tasks/odoo-inventory-sync.ts:397-399 | the barcode is the SKU or the trimmed internal code; it differs from the SKU exactly when the internal code is set and differs from it; a non-empty SKU gives a non-empty barcode |
| InventorySync.RowsForSnoc | src/tasks/odoo-inventory-sync.ts:365-369 | one more stock row extends the rows of its own article only |
| InventorySync.IndexBranches | src/tasks/odoo-inventory-sync.ts:401-411 | the per-branch loop builds the article's branch table |
| InventorySync.NormalizeRow | src/tasks/odoo-inventory-sync.ts:375-431 | one article row with a SKU normalises to its article, reading its stock rows out of the index |
| InventorySync.AddCategories | src/tasks/odoo-inventory-sync.ts:387-395 | the three `if (!has) set` steps insert the department, category and subcategory nodes not yet in the tree |
| InventorySync.IndexStep | src/tasks/odoo-inventory-sync.ts:365-369 | appending a row to the index under its trimmed article id keeps the index equal to each article's rows in order |
| InventorySync.IndexStock | src/tasks/odoo-inventory-sync.ts:364-372 | the first loop of `normalizeData` indexes the stock rows by article id and builds the branch-code table |
| InventorySync.TreeStep | src/tasks/odoo-inventory-sync.ts:374-395 | one more article grows the tree by its three `if (!has) set` steps |
| InventorySync.NormalizeData | src/tasks/odoo-inventory-sync.ts:351-434 | `normalizeData` returns the article map, the category tree and the branch-code table of its rows |
| InventorySync.ArticleKey | src/tasks/odoo-inventory-sync.ts:375-376 | an article row is kept, under its trimmed id, exactly when that id is not blank |
| InventorySync.ArticleMapKeys | src/tasks/odoo-inventory-sync.ts:375-431 | the article map holds exactly the non-blank trimmed SKUs of the rows |
| InventorySync.ArticleMapLastRowWins | src/tasks/odoo-inventory-sync.ts:416-430 | each SKU maps to an article with that SKU, normalised from the last row carrying it |
| InventorySync.BranchKey | src/tasks/odoo-inventory-sync.ts:404-405 | a stock row enters its article's branch table exactly when its trimmed branch code is not blank |
| InventorySync.StockByBranchKeys | src/tasks/odoo-inventory-sync.ts:402-411 | an article's branch table holds exactly the non-blank trimmed codes of its rows |
| InventorySync.StockByBranchLastRowWins | src/tasks/odoo-inventory-sync.ts:402-411 | each branch code holds the quantity and name of the last row for it |
| InventorySync.BranchCodesKeys | src/tasks/odoo-inventory-sync.ts:366-372 | the branch-code table holds exactly the non-blank codes of rows that name an article (both directions) |
| InventorySync.BranchCodeKey | src/tasks/odoo-inventory-sync.ts:367-371 | one row names a branch code exactly when its article id and code are not blank |
| InventorySync.PrefixedKey | src/tasks/odoo-inventory-sync.ts:379-381 | a tagged key starts with its tag and with no tag of another initial |
| InventorySync.PutNewKeepsShape | src/tasks/odoo-inventory-sync.ts:387-395 | adding one node whose parent is present keeps the tree well formed |
| InventorySync.ProposedShapes | src/tasks/odoo-inventory-sync.ts:379-395 | a department node has no parent; a category node's parent is its department; a subcategory node's parent is its category |
| InventorySync.KeyPrefixes | src/tasks/odoo-inventory-sync.ts:379-381 | department, category and subcategory keys start with `D:`, `C:` and `S:` |
| InventorySync.AddArticleKeepsShape | src/tasks/odoo-inventory-sync.ts:387-395 | an article's three insertions keep the tree well formed |
| InventorySync.CategoryTreeWellFormed | src/tasks/odoo-inventory-sync.ts:374-395 | the tree built from the articles is well formed: every node sits under its own key at its depth, and every parent is in the tree |
| InventorySync.ThreeSteps | src/tasks/odoo-inventory-sync.ts:387-395 | the three insertions are the department, then the category, then the subcategory |
| InventorySync.AddArticleEffect | src/tasks/odoo-inventory-sync.ts:387-395 | one article's steps add the keys it names that are absent, with its nodes, and leave present keys alone |
| InventorySync.OffersProposed | src/tasks/odoo-inventory-sync.ts:379-395 | an article's own steps set exactly the keys it names, to its nodes |
| InventorySync.CategoryTreeKeys | src/tasks/odoo-inventory-sync.ts:374-395 | the tree holds exactly the keys some article with a SKU names |
| InventorySync.CategoryTreeFirstSeen | src/tasks/odoo-inventory-sync.ts:387-395 | a key holds the node proposed by the first article naming it |
| InventorySync.CategoryTreeCovers | src/tasks/odoo-inventory-sync.ts:374-395 | every article with a SKU has its department, category and subcategory in the tree |
| InventoryDiff.OdooByCodeKeys | src/tasks/odoo-inventory-sync.ts:580-584 | `odooByCode` holds exactly the non-blank trimmed internal references of the Odoo products |
| InventoryDiff.Abs | src/tasks/odoo-inventory-sync.ts:602 | `Math.abs`: non-negative, and the value or its negation |
| InventoryDiff.ChangesIffOutOfSync | src/tasks/odoo-inventory-sync.ts:597-625 | the change set is empty exactly when the product agrees with its article on name, both prices, category, barcode and is active; an archived product is always reactivated |
| InventoryDiff.Apply | src/tasks/odoo-inventory-sync.ts:735 | writing a change set never alters a product's id or internal reference |
| InventoryDiff.ChangesReachSync | src/tasks/odoo-inventory-sync.ts:597-625 | writing the computed changes brings the product in sync, so the next run finds nothing left to change for it |
| InventoryDiff.InSyncByFields | src/tasks/odoo-inventory-sync.ts:599-622 | a product agreeing field by field (prices within a cent) is in sync |
| InventoryDiff.NumbersSettle | src/tasks/odoo-inventory-sync.ts:602-613 | after the write both prices are within a cent of the article's and the category is the target one when the target is known |
| InventoryDiff.TextsSettle | src/tasks/odoo-inventory-sync.ts:599-618 | after the write the trimmed name and barcode equal the article's |
| InventoryDiff.TextSettles | src/tasks/odoo-inventory-sync.ts:599-601 | a text overwritten whenever its trimmed form differs ends trimmed-equal to the ERP text |
| InventoryDiff.TrimmedTrim | src/tasks/odoo-inventory-sync.ts:398 | a trimmed text has no surrounding blanks |
| InventoryDiff.NormalizedTrimmed | src/tasks/odoo-inventory-sync.ts:398-415 | normalised articles carry trimmed names and barcodes, so the name and barcode checks can settle |
| InventoryDiff.ArticleMapKeyedBySku | src/tasks/odoo-inventory-sync.ts:416-417 | every article map `normalizeData` builds files each article under its own SKU |
| InventoryDiff.CreateExactly | src/tasks/odoo-inventory-sync.ts:590-595 | an article is created exactly when Odoo has no product with its SKU |
| InventoryDiff.UpdateExactly | src/tasks/odoo-inventory-sync.ts:590-628 | a product is updated exactly when it matches an article it lags behind, and the update carries that article and its changes |
| InventoryDiff.CreateOrUpdate | src/tasks/odoo-inventory-sync.ts:590-628 | no article is both created and updated |
| InventoryDiff.Reactivates | src/tasks/odoo-inventory-sync.ts:620-623 | an archived product whose SKU is still an ERP article is reactivated |
| InventoryDiff.ArchiveExactly | src/tasks/odoo-inventory-sync.ts:631-636 | a product is archived exactly when it is active and its reference is no longer an ERP article |
| InventoryDiff.ComputeDiff | src/tasks/odoo-inventory-sync.ts:571-639 | `computeDiff` returns the articles to create, the updates and the ids to archive |
| InventoryDiff.IndexProducts | src/tasks/odoo-inventory-sync.ts:580-584 | the indexing loop builds `odooByCode`, a repeated reference keeping its last product |
| InventoryDiff.MatchArticles | src/tasks/odoo-inventory-sync.ts:590-628 | the article loop collects the creates and the non-empty updates, in article-map order |
| InventoryDiff.MatchArticle | src/tasks/odoo-inventory-sync.ts:591-627 | one article is a create when Odoo lacks it, otherwise an update when its change set is non-empty |
| InventoryDiff.CollectArchives | src/tasks/odoo-inventory-sync.ts:631-636 | the index loop collects the ids to archive, in index order |
| InventoryDiff.CreateCateg | src/tasks/odoo-inventory-sync.ts:662-667 | a new product's category is the first known of subcategory, category, department and root, else 1 |
| InventoryDiff.CreatesUseSubcategory | src/tasks/odoo-inventory-sync.ts:662-667 | after the category sync every article of the run is created under its own subcategory: the fallbacks are never needed |
| InventoryDiff.CreatedAtMost | src/tasks/odoo-inventory-sync.ts:684-700 | the created count adds the ids each accepted batch answers; it is at most the number of products sent when Odoo answers at most one id per value, and exactly that number when every batch is accepted with one id per value |
| InventoryDiff.CreateBatchesCover | src/tasks/odoo-inventory-sync.ts:657-659 | every article to create is sent exactly once, in order, at most 50 per batch |
| InventoryDiff.ApplyCreates | src/tasks/odoo-inventory-sync.ts:644-706 | `applyCreates` sends nothing in a dry run or with nothing to create, else batches of 50; an accepted batch adds the length of its id list (one for a single id), a refused batch falls back to one-by-one creates; the count never exceeds the articles when Odoo answers at most one id per value |
| InventoryDiff.AddToGroup | src/tasks/odoo-inventory-sync.ts:724-729 | adding an update to its change-set group keeps the group map well formed |
| InventoryDiff.Group | src/tasks/odoo-inventory-sync.ts:724-729 | the grouped updates form a well-formed ordered map |
| InventoryDiff.GroupKeys | src/tasks/odoo-inventory-sync.ts:724-729 | a group exists for exactly the change sets some update carries |
| InventoryDiff.InUseSnoc | src/tasks/odoo-inventory-sync.ts:725-729 | a change set is in use in the updates plus one more exactly when in use before or carried by the new update |
| InventoryDiff.GroupIds | src/tasks/odoo-inventory-sync.ts:725-729 | a group holds exactly the ids of the updates carrying its change set, in update order |
| InventoryDiff.CollectNone | src/tasks/odoo-inventory-sync.ts:728 | with no update selected, no id is collected |
| InventoryDiff.GroupOrder | src/tasks/odoo-inventory-sync.ts:732 | the groups are iterated in the order their change sets first occur |
| InventoryDiff.GroupUpdates | src/tasks/odoo-inventory-sync.ts:724-729 | the grouping loop builds the change-set groups |
| InventoryDiff.GroupKeysPresent | src/tasks/odoo-inventory-sync.ts:732 | every iterated group key has a group |
| InventoryDiff.WritesMembership | src/tasks/odoo-inventory-sync.ts:732-741 | a write is issued exactly when it is one of the writes of some group |
| InventoryDiff.InSomeGroupSnoc | src/tasks/odoo-inventory-sync.ts:732-741 | a write belongs to the groups plus one more exactly when to the earlier groups or the new one |
| InventoryDiff.GroupWriteShape | src/tasks/odoo-inventory-sync.ts:733-735 | a write of a group carries its changes and 1 to 200 of its ids |
| InventoryDiff.GroupWriteCovers | src/tasks/odoo-inventory-sync.ts:733 | every id of a group is in one of its writes |
| InventoryDiff.UpdatesSound | src/tasks/odoo-inventory-sync.ts:724-741 | every write holds 1 to 200 ids, each of an update carrying exactly the changes written |
| InventoryDiff.UpdatesComplete | src/tasks/odoo-inventory-sync.ts:724-741 | every update reaches Odoo in some write with its own changes |
| InventoryDiff.ApplyUpdates | src/tasks/odoo-inventory-sync.ts:712-744 | `applyUpdates` issues the grouped writes (none in a dry run or with nothing to update) and counts the ids of accepted writes |
| InventoryDiff.WriteGroups | src/tasks/odoo-inventory-sync.ts:732-741 | the group loop issues each group's writes, groups in first-seen order, and counts accepted ids |
| InventoryDiff.WriteGroup | src/tasks/odoo-inventory-sync.ts:733-740 | one group's ids are written 200 at a time with its changes |
| InventoryDiff.ArchivedAtMost | src/tasks/odoo-inventory-sync.ts:760-766 | no more products are counted than were sent, and all of them when every write is accepted |
| InventoryDiff.ApplyArchives | src/tasks/odoo-inventory-sync.ts:750-768 | `applyArchives` sends every id once, in order, 200 at a time (none in a dry run or with nothing to archive) |
| CategorySync.DepthOf | src/tasks/odoo-inventory-sync.ts:462-467 | a node goes to pass 0, 1 or 2, and to pass 0 exactly when it has no parent |
| CategorySync.ParentOneUp | src/tasks/odoo-inventory-sync.ts:462-467 | in a well-formed tree a node's parent is in the tree and is written exactly one pass before the node |
| CategorySync.Partition | src/tasks/odoo-inventory-sync.ts:462-467 | the `byDepth` loop splits the tree's nodes by depth, each list in tree order |
| CategorySync.FindRoot | src/tasks/odoo-inventory-sync.ts:447 | `existing.find(c => c.name === 'Proconsa')` finds nothing exactly when no category has that name, and otherwise the first such category |
| CategorySync.BuildLookup | src/tasks/odoo-inventory-sync.ts:455-459 | the lookup loop builds the (parent id, name) index of the existing categories |
| CategorySync.ExistingLookupKeys | src/tasks/odoo-inventory-sync.ts:455-459 | the index holds exactly the (parent id or 0, name) pairs of the existing categories |
| CategorySync.ExistingLookupLastWins | src/tasks/odoo-inventory-sync.ts:455-459 | each pair maps to the id of the last category carrying it |
| CategorySync.IdForOk | src/tasks/odoo-inventory-sync.ts:472-483 | a node's id is the existing category with its parent id and name, or the one created for it under that parent |
| CategorySync.MatchExisting | src/tasks/odoo-inventory-sync.ts:472-484 | the first loop of a pass maps each node whose category exists and queues the others with their parent's id; within an independent pass the queue has distinct keys |
| CategorySync.MatchStep | src/tasks/odoo-inventory-sync.ts:473-483 | one node of the first loop keeps that loop's invariant |
| CategorySync.FrameStep | src/tasks/odoo-inventory-sync.ts:473-483 | one node of the first loop touches only its own key |
| CategorySync.QueueStep | src/tasks/odoo-inventory-sync.ts:482 | queuing a node keeps the queue's keys distinct and every earlier node where it was left |
| CategorySync.SettledParent | src/tasks/odoo-inventory-sync.ts:473-475 | within an independent pass, a node's parent id reads as it did when the pass began |
| CategorySync.CreateMissing | src/tasks/odoo-inventory-sync.ts:486-496 | the second loop gives every queued node the id created for it and records it in the lookup |
| CategorySync.ResolveDepth | src/tasks/odoo-inventory-sync.ts:470-497 | one pass maps exactly its nodes' keys, leaves the others alone, and gives each node of an independent pass its found-or-created id |
| CategorySync.ResolvedNode | src/tasks/odoo-inventory-sync.ts:480-494 | a node the first loop mapped keeps its id through the second loop; a queued one gets the id created for it |
| CategorySync.NodesAtMembership | src/tasks/odoo-inventory-sync.ts:462-467 | a node is in `byDepth[d]` exactly when it is in the tree and of depth `d` |
| CategorySync.KeyPass | src/tasks/odoo-inventory-sync.ts:469-497 | each key of a well-formed tree is written in its node's pass and in no other |
| CategorySync.PassIndependent | src/tasks/odoo-inventory-sync.ts:469-497 | in a well-formed tree every pass has distinct keys and no node whose parent is written in the same pass |
| CategorySync.PassKeeps | src/tasks/odoo-inventory-sync.ts:469-497 | a pass leaves alone the keys it does not write |
| CategorySync.PassWrites | src/tasks/odoo-inventory-sync.ts:469-497 | a pass writes its own nodes with their found-or-created ids |
| CategorySync.ParentWritten | src/tasks/odoo-inventory-sync.ts:473-475 | a node's parent is in the id map from the pass after its own, so the `?? rootId` fallback is never taken |
| CategorySync.PassesIds | src/tasks/odoo-inventory-sync.ts:469-497 | after the three passes every node is mapped to a category with its parent's final id and its name |
| CategorySync.DepartmentIds | src/tasks/odoo-inventory-sync.ts:469-497 | a department is written by the first pass and kept by the others |
| CategorySync.CategoryIds | src/tasks/odoo-inventory-sync.ts:469-497 | a category is written by the second pass, under a department the first pass wrote |
| CategorySync.SubcategoryIds | src/tasks/odoo-inventory-sync.ts:469-497 | a subcategory is written by the third pass, under a category the second pass wrote |
| CategorySync.SyncKeys | src/tasks/odoo-inventory-sync.ts:452-499 | the three passes, started from the root alone, map exactly the root and every node's key, and keep the root's id |
| CategorySync.SyncWellFormed | src/tasks/odoo-inventory-sync.ts:469-497 | for a well-formed tree every node is mapped to a category with its parent's final id and its name, found or created |
| CategorySync.SyncFacts | src/tasks/odoo-inventory-sync.ts:440-499 | the three passes establish what `syncCategories` promises |
| CategorySync.WritePass | src/tasks/odoo-inventory-sync.ts:469-497 | the pass over `byDepth[d]` maps exactly those nodes' keys to their found-or-created ids and leaves every other key alone |
| CategorySync.SyncCategories | src/tasks/odoo-inventory-sync.ts:440-499 | `syncCategories` returns an id map holding the root and every node's key, each node under a category with its parent's final id and its name, found or created |
| CategorySync.NodesAtCover | src/tasks/odoo-inventory-sync.ts:462-467 | the three passes together hold every node of the tree |
| CategorySync.TreeKeys | src/tasks/odoo-inventory-sync.ts:452-462 | a well-formed tree's nodes carry exactly its keys, none of them 'ROOT' |
| StockSync.QuantIndexKeys | src/tasks/odoo-inventory-sync.ts:831-835 | `quantIndex` holds exactly the (product, location) pairs, both non-zero, of the fetched quants |
| StockSync.BranchChange | src/tasks/odoo-inventory-sync.ts:849-865 | one branch corrects an existing quant only when its quantity is off by more than 0.001 and drops it from the index, or asks for a new quant only for positive stock; the changes stay sound and no quant is corrected twice |
| StockSync.ArticleChanges | src/tasks/odoo-inventory-sync.ts:844-871 | the branches of one article, skipping those without a mapped location, keep the changes sound |
| StockSync.StockChanges | src/tasks/odoo-inventory-sync.ts:774-881 | no changes without mapped locations or variants; every change names a known variant at a mapped location, corrects an off quant or creates a positive one; no quant is corrected twice |
| StockSync.CreatePlusUpdate | src/tasks/odoo-inventory-sync.ts:893-894 | the new-quant and correction filters split the changes between them |
| StockSync.UpdateBatchDoubleCounts | src/tasks/odoo-inventory-sync.ts:974-983 | one quant whose write succeeds and whose apply fails is counted once as updated and once as an error |
| StockSync.UpdateBatchTotal | src/tasks/odoo-inventory-sync.ts:949-990 | in the corrected count every change of a batch is counted exactly once |
| StockSync.UpdateBatchAgrees | src/tasks/odoo-inventory-sync.ts:974-983 | when the apply does not fail both counts agree |
| StockSync.CreateCountsTotal | src/tasks/odoo-inventory-sync.ts:904-939 | every change sent in a create batch is counted once, as created or as an error |
| StockSync.UpdateCountsTotal | src/tasks/odoo-inventory-sync.ts:945-990 | every change sent in a correction batch is counted once |
| StockSync.ApplyStockChanges | src/tasks/odoo-inventory-sync.ts:893-993 | new quants go out 200 per create and corrections 100 per batch; created, updated and errors are the batch counts of the corrected update (see Findings) and add up to the number of changes |
| StockSync.CreateQuants | src/tasks/odoo-inventory-sync.ts:904-939 | the create loop: a batch whose create or apply fails counts whole as errors, a "cannot marshal None" reply counts as success |
| StockSync.CreateCountsSnoc | src/tasks/odoo-inventory-sync.ts:908-933 | one more create batch adds its size to created or to errors |
| StockSync.CorrectQuants | src/tasks/odoo-inventory-sync.ts:945-990 | the correction loop gives the corrected batch counts |
| StockSync.UpdateCountsSnoc | src/tasks/odoo-inventory-sync.ts:949-990 | one more correction batch adds its own counts |
| ImageSync.NoBarInNumber | src/tasks/odoo-inventory-sync.ts:1107 | the decimal text of an image size holds no bar character |
| ImageSync.FingerprintInjective | src/tasks/odoo-inventory-sync.ts:1106-1107 | two images with the same size-bar-date fingerprint have the same size and date, so the fingerprint changes whenever either does |
| ImageSync.NeedUploadExactly | src/tasks/odoo-inventory-sync.ts:1142-1150 | a SKU is selected for upload exactly when its article is active, its product is in Odoo and the stored fingerprint differs from the ERP one; none is selected twice |
| ImageSync.SelectUploads | src/tasks/odoo-inventory-sync.ts:1142-1150 | the selection loop gives the wanted SKUs in ERP image order |
| ImageSync.SanitizeId | src/tasks/odoo-inventory-sync.ts:1034 | the sanitised id holds only ASCII letters and digits |
| ImageSync.SanitizeKeepsAlnum | src/tasks/odoo-inventory-sync.ts:1034 | an id already made of letters and digits is left as it is |
| ImageSync.QuotedChars | src/tasks/odoo-inventory-sync.ts:1034 | a quoted sanitised id holds only letters, digits and quotes, and no comma |
| ImageSync.JoinListChars | src/tasks/odoo-inventory-sync.ts:1034 | joining safe parts by commas gives safe text |
| ImageSync.InListSafe | src/tasks/odoo-inventory-sync.ts:1034-1045 | the IN-list holds only letters, digits, quotes and commas, and splits back into exactly one quoted literal per id, so no id can break out of its literal |
| ImageSync.UploadsAtMost | src/tasks/odoo-inventory-sync.ts:1172-1217 | no more images are counted as uploaded than were selected |
| ImageSync.UploadImages | src/tasks/odoo-inventory-sync.ts:1159-1219 | nothing is uploaded in a dry run; otherwise the uploads are counted per blob batch of 10, and every selected SKU counts once, as uploaded or as failed |
| ImageSync.UploadBatch | src/tasks/odoo-inventory-sync.ts:1190-1213 | within a batch a SKU counts as uploaded exactly when it has a blob and a product and its write succeeds |
| PriceSync.TransientIgnoresCase | src/tasks/odoo-price-sync.ts:16-17 | the transient test lower-cases the message first, so upper- and lower-cased copies of a message are classified alike |
| PriceSync.ContainsInside | src/tasks/odoo-price-sync.ts:18-28 | `includes` finds a fragment wherever it sits in the message |
| PriceSync.MarkerMakesTransient | src/tasks/odoo-price-sync.ts:18-28 | a message whose lower-cased text contains any of the nine markers (the XML-RPC title tag, hang-up, reset, refused, timed out, timeout, 502, 503, 504) is transient |
| PriceSync.PriceIndex | src/tasks/odoo-price-sync.ts:76-85 | the SKU index has no repeated key |
| PriceSync.PriceIndexKeys | src/tasks/odoo-price-sync.ts:78-80 | a SKU is indexed exactly when some row's trimmed id equals it and it is not blank |
| PriceSync.PriceIndexLastRow | src/tasks/odoo-price-sync.ts:81-84 | each SKU holds the sale price and cost of the last row naming it, a missing price read as 0 |
| PriceSync.IndexPrices | src/tasks/odoo-price-sync.ts:76-85 | the index loop yields the SKU index |
| PriceSync.ApplyPrices | src/tasks/odoo-price-sync.ts:141 | a write changes only the price fields, never the id or the reference |
| PriceSync.PriceChangesSync | src/tasks/odoo-price-sync.ts:107-114 | nothing is written exactly when both prices are within a cent of the ERP's; each written price is the ERP's, and after the write both are within a cent |
| PriceSync.UpdateOfMeans | src/tasks/odoo-price-sync.ts:101-116 | a product yields an update exactly when its trimmed reference is known to the ERP and out of sync, and the update carries its id and changes |
| PriceSync.PriceDiffExactly | src/tasks/odoo-price-sync.ts:101-117 | an update is listed exactly when some product is out of sync against the ERP and the update is that product's |
| PriceSync.DiffOne | src/tasks/odoo-price-sync.ts:102-116 | one pass of the diff loop appends that product's update, if any |
| PriceSync.ComputePriceDiff | src/tasks/odoo-price-sync.ts:99-117 | the diff loop yields the updates in product order |
| PriceSync.AtLeastOne | src/tasks/odoo-price-sync.ts:48-49 | the worker count and retry budget are the setting, but never below 1 |
| PriceSync.RetryMeans | src/tasks/odoo-price-sync.ts:139-153 | the last attempt is within the budget, every earlier attempt failed transiently, the write succeeds exactly when the last attempt does, and a failure is final only when the budget is spent or the error is not transient |
| PriceSync.Backoff | src/tasks/odoo-price-sync.ts:146 | the pause after failed attempt n is 250 times n milliseconds |
| PriceSync.WriteWithRetry | src/tasks/odoo-price-sync.ts:139-153 | the attempt loop ends as the retry rule says, after at least one and at most the budget of attempts, with one growing pause between consecutive attempts |
| PriceSync.ApplyPriceUpdates | src/tasks/odoo-price-sync.ts:128-155 | every queued update is written once; `updated` counts those whose retries end in success and `updated + errors` is the number of updates |
| PriceSync.SyncPrices | src/tasks/odoo-price-sync.ts:51-155 | the run writes exactly the diff of the Odoo products against the ERP index and counts its successes and failures |
| PriceInventorySync.WixProductMap | src/tasks/price-inventory-sync.ts:73-79 | the SKU map of the Wix products has no repeated key |
| PriceInventorySync.WixProductMapKeys | src/tasks/price-inventory-sync.ts:75-79 | a SKU is mapped exactly when some Wix product has that non-empty SKU |
| PriceInventorySync.SliceEnd | src/tasks/price-inventory-sync.ts:129 | a slice end never passes the length of the rows |
| PriceInventorySync.RowsToProcess | src/tasks/price-inventory-sync.ts:126-131 | the test limit keeps a prefix of the changed rows; with no limit or a limit of 0 every row, with a positive limit the first `limit` rows |
| PriceInventorySync.EffectiveStockRule | src/tasks/price-inventory-sync.ts:139-141 | a total below the threshold publishes 0, any other total its floor, and a non-negative threshold never publishes a negative stock |
| PriceInventorySync.StockMap | src/tasks/price-inventory-sync.ts:136-148 | the stock map has no repeated key |
| PriceInventorySync.StockMapKeys | src/tasks/price-inventory-sync.ts:138-144 | a SKU is in the stock map exactly when some processed row names it |
| PriceInventorySync.BuildStockMap | src/tasks/price-inventory-sync.ts:136-148 | the loop over the processed rows yields the stock map |
| PriceInventorySync.DryRunCounts | src/tasks/price-inventory-sync.ts:157-168 | the dry run counts as blocked the SKUs whose effective stock is 0 and as updated all the others |
| PriceInventorySync.UpdateItemsExactly | src/tasks/price-inventory-sync.ts:178-192 | an update is sent exactly for each stocked SKU whose Wix product has an inventory item, with quantity tracking on, one default variant holding the effective stock, and in stock exactly when that stock is positive |
| PriceInventorySync.BuildUpdateItems | src/tasks/price-inventory-sync.ts:170-192 | the live loop yields those updates; updates plus skipped SKUs are all the SKUs, and blocked counts the updates that publish 0 |
| PriceInventorySync.Task.constructor | src/tasks/price-inventory-sync.ts:30-31 | a new task has no test limit and no forced live mode |
| PriceInventorySync.Task.Report | src/tasks/price-inventory-sync.ts:157-202 | a dry run reports its two counts over all SKUs; a live run hands the update items to the inventory push and fails exactly when the push fails |
| PriceInventorySync.Task.Execute | src/tasks/price-inventory-sync.ts:49-217 | no Wix products or no SKUs ends the run early; dry-run mode needs the configuration and no forced live mode; live runs push the update items of the watermark query's rows; the watermark moves to the first changed row's timestamp exactly when a run with changes completes outside test mode |
| PriceInventorySync.Task.RunWithLimit | src/tasks/price-inventory-sync.ts:38-47 | a limited run is live, never moves the watermark unless it fails, and leaves the test mode off |
| ErpPostgresSync.ChainedConcat | src/tasks/erp-postgres-sync.ts:94-97 | the four global replacements distribute over concatenation |
| ErpPostgresSync.ChainedChar | src/tasks/erp-postgres-sync.ts:94-97 | on one character the four replacements give its COPY escape |
| ErpPostgresSync.ChainedIsEscape | src/tasks/erp-postgres-sync.ts:94-97 | backslash first and then newline, CR and tab: together the passes escape every character on its own, so no pass rewrites another's output |
| ErpPostgresSync.EscapeNoControl | src/tasks/erp-postgres-sync.ts:94-97 | an escaped text holds no newline, CR or tab |
| ErpPostgresSync.UnescapeStep | src/tasks/erp-postgres-sync.ts:94-97 | COPY's text format reads an escaped character back as that character |
| ErpPostgresSync.UnescapeEscape | src/tasks/erp-postgres-sync.ts:94-97 | COPY's text format reads an escaped text back as the original text |
| ErpPostgresSync.EscapeNotNull | src/tasks/erp-postgres-sync.ts:87-97 | escaped text is never the NULL marker, so a value cannot be mistaken for NULL |
| ErpPostgresSync.UnescapePlain | src/tasks/erp-postgres-sync.ts:91 | text without a backslash, such as an ISO timestamp, reads back unchanged |
| ErpPostgresSync.FormatValue | src/tasks/erp-postgres-sync.ts:86-98 | NULL and undefined become the NULL marker, a date its ISO text, and any other value control-free text that reads back as its string form and is never the NULL marker |
| ErpPostgresSync.FieldDecodes | src/tasks/erp-postgres-sync.ts:222 | a formatted field holds no tab or newline and reads back as the stored value |
| ErpPostgresSync.LineRoundTrip | src/tasks/erp-postgres-sync.ts:222 | a COPY line ends with its only newline, splits on tabs into one field per cell, and reads back cell by cell |
| ErpPostgresSync.Cells | src/tasks/erp-postgres-sync.ts:18-51 | a row gives one cell per COPY column, in column order, a missing column as NULL |
| ErpPostgresSync.CopyLineRoundTrip | src/tasks/erp-postgres-sync.ts:221-223 | each staging line has one field per column and every field reads back as the row's value for that column |
| ErpPostgresSync.BuildCopyStream | src/tasks/erp-postgres-sync.ts:220-225 | the stream holds one COPY line per extracted row, in order |
| ErpPostgresSync.CodigoLine | src/tasks/erp-postgres-sync.ts:305 | the `articulo_codigo` line is the two-cell COPY line of SKU and code |
| ErpPostgresSync.CodigoLineRoundTrip | src/tasks/erp-postgres-sync.ts:304-306 | an SKU and code read back unchanged from their COPY line |
| ErpPostgresSync.ExtractedStoresHaveZones | src/tasks/erp-postgres-sync.ts:126-130 | every store the extract selects gets a branch number; stores 1 to 11 fall in Mexicali and 16 to 18 in Hermosillo, so the "Otra" zone never occurs |
| ErpPostgresSync.PriorityBands | src/tasks/erp-postgres-sync.ts:430-435 | the priority bands are 30 and up, 15 to 30, 10 to 15 and below 10, and a larger variation never ranks lower in the ORDER BY |
| ErpPostgresSync.RoundTenth | src/tasks/erp-postgres-sync.ts:361 | ROUND to one decimal moves a value by at most 0.05 and keeps its sign |
| ErpPostgresSync.KindOf | src/tasks/erp-postgres-sync.ts:365-441 | a pair counted as significant has priority alta, media or baja |
| ErpPostgresSync.KindThresholds | src/tasks/erp-postgres-sync.ts:395-441 | a change below 0.05 percent is a micro change and one of 10.05 percent or more either way is significant |
| ErpPostgresSync.ByLevelSnoc | src/tasks/erp-postgres-sync.ts:480-486 | the priority lists of one more row are one push more |
| ErpPostgresSync.ZoneSnoc | src/tasks/erp-postgres-sync.ts:488-496 | one more row changes only the list of its own zone |
| ErpPostgresSync.ZoneLevelsSnoc | src/tasks/erp-postgres-sync.ts:488-496 | a zone's priority lists of one more row are one push more when the row is of that zone |
| ErpPostgresSync.ClassifiedAppend | src/tasks/erp-postgres-sync.ts:479-497 | classifying one more row is one iteration of the loop |
| ErpPostgresSync.ClassifiedSnoc | src/tasks/erp-postgres-sync.ts:479-497 | the loop state after row i is the classification of the first i + 1 rows |
| ErpPostgresSync.Classify | src/tasks/erp-postgres-sync.ts:479-497 | the classification loop yields the global and per-zone priority lists of the rows |
| ErpPostgresSync.LevelsPartition | src/tasks/erp-postgres-sync.ts:480-486 | every alta, media or baja row lands in exactly one list, so the three lengths add up to the number of such rows |
| ErpPostgresSync.ZoneListMembership | src/tasks/erp-postgres-sync.ts:488-496 | a row is in a zone's list of a priority exactly when it has that zone and priority, and it is then in the global list too |
| ErpPostgresSync.Tag | src/tasks/erp-postgres-sync.ts:526-536 | the subject names the highest non-empty priority with its count, and only when all three lists are empty the count of minor changes |
| ErpPostgresSync.PriceReport | src/tasks/erp-postgres-sync.ts:507-564 | a report is sent exactly when some change was counted and there are recipients, to those recipients with the tag's subject, attaching the CSV exactly when some priority list is non-empty |
| ErpPostgresSync.AttachmentMatchesSubject | src/tasks/erp-postgres-sync.ts:526-548 | the CSV is attached exactly when the subject names a priority, and a minor-changes subject never counts 0 |
| ErpPostgresSync.ErrorEmails | src/tasks/erp-postgres-sync.ts:789-804 | an error mail is sent exactly when there are recipients, with subject "ERROR - " and the title |
| ErpPostgresSync.Loaded | src/tasks/erp-postgres-sync.ts:220-225 | the loaded table holds one COPY line per extracted row |
| ErpPostgresSync.Execute | src/tasks/erp-postgres-sync.ts:185-279 | an empty extract changes nothing and mails nobody; the tables change only by the swap of a committed load, which keeps the old live table as the previous one; the sync date moves only after a swap; at most one mail goes out, only to the recipients; a failed extract, load or sync date sends the ETL error mail |
| ErpPostgresSync.LiveTableReadsBack | src/tasks/erp-postgres-sync.ts:207-243 | after a committed load every line of the live table reads back as the extracted row it came from |
| MailingBulk.Before | scripts/odoo_mailing_bulk.py:64-66 | `split(c)[0]` is the prefix before the first `c`, the whole text when there is none |
| MailingBulk.SuffixAvoids | scripts/odoo_mailing_bulk.py:64-66 | a character absent from a text is absent from every suffix of it |
| MailingBulk.LStripColonSpace | scripts/odoo_mailing_bulk.py:68 | `lstrip(': ')` leaves a suffix that starts with neither ':' nor a space |
| MailingBulk.TrimKeeps | scripts/odoo_mailing_bulk.py:64 | `strip` adds no character |
| MailingBulk.Piece | scripts/odoo_mailing_bulk.py:64-66 | one split-then-strip step removes its separator and introduces no newline or comma |
| MailingBulk.PieceOfTrimmed | scripts/odoo_mailing_bulk.py:64-66 | a trimmed text without the separator passes a step unchanged |
| MailingBulk.FirstAddress | scripts/odoo_mailing_bulk.py:64-66 | after the three splits no newline, comma or semicolon remains |
| MailingBulk.Cleaned | scripts/odoo_mailing_bulk.py:64-68 | the cleaned text has no separator |
| MailingBulk.CleanEmail | scripts/odoo_mailing_bulk.py:59-71 | no e-mail or an empty one gives none; a kept e-mail contains '@', no separator and no leading ':' or space |
| MailingBulk.CleanAddress | scripts/odoo_mailing_bulk.py:59-71 | a well-formed address is kept unchanged |
| MailingBulk.CleanedAddress | scripts/odoo_mailing_bulk.py:64-68 | the clean-up leaves a well-formed address alone |
| MailingBulk.FirstAddressOfAddress | scripts/odoo_mailing_bulk.py:64-66 | the splits leave a well-formed address alone |
| MailingBulk.BeforeComma | scripts/odoo_mailing_bulk.py:65 | the split on ',' of "a,b" keeps a comma-free `a` |
| MailingBulk.FirstAddressOfList | scripts/odoo_mailing_bulk.py:64-66 | of a comma-separated field the splits keep the first address |
| MailingBulk.CleanFirstOfList | scripts/odoo_mailing_bulk.py:59-71 | of a comma-separated field the clean-up keeps the first address |
| MailingBulk.Normalize | scripts/odoo_mailing_bulk.py:55 | a normalised e-mail is lower-case |
| MailingBulk.ExistingEmails | scripts/odoo_mailing_bulk.py:47-57 | the existing set holds lower-case e-mails, including the normalised e-mail of every list contact that has one |
| MailingBulk.AdmittedSnoc | scripts/odoo_mailing_bulk.py:82-97 | the plan after partner i is the plan before it with partner i admitted or skipped |
| MailingBulk.LowerEmailsSnoc | scripts/odoo_mailing_bulk.py:97 | one more contact adds its lowered e-mail to the seen e-mails |
| MailingBulk.AdmitCases | scripts/odoo_mailing_bulk.py:83-97 | a partner is skipped when it has no usable e-mail or its lowered e-mail was seen, and otherwise appended with its name and e-mail; either way its lowered e-mail ends up seen |
| MailingBulk.AdmittedCount | scripts/odoo_mailing_bulk.py:82-97 | every partner is either admitted or skipped |
| MailingBulk.AdmittedSeen | scripts/odoo_mailing_bulk.py:88-97 | the seen set is the list's e-mails plus the admitted ones |
| MailingBulk.AdmittedFresh | scripts/odoo_mailing_bulk.py:88-97 | no admitted e-mail was on the list, and no two admitted e-mails are equal ignoring case |
| MailingBulk.AdmittedFrom | scripts/odoo_mailing_bulk.py:92-96 | every admitted contact has the name of some partner whose e-mail cleans to the contact's address |
| MailingBulk.AdmittedComplete | scripts/odoo_mailing_bulk.py:82-97 | a partner whose address survives the clean-up and was not on the list is never lost: its lowered address is among the admitted ones |
| MailingBulk.SucceededPlusFailed | scripts/odoo_mailing_bulk.py:99-125 | every batched contact counts as created or as an error |
| MailingBulk.SucceededSnoc | scripts/odoo_mailing_bulk.py:100-111 | one more batch adds its size to the created count when its create call succeeds and to the errors otherwise |
| MailingBulk.ChunksOfFull | scripts/odoo_mailing_bulk.py:99-115 | full batches followed by a short last one are the chunks of their concatenation |
| MailingBulk.AdmitShift | scripts/odoo_mailing_bulk.py:88-97 | admitting a partner does not depend on the contacts already flushed |
| MailingBulk.AdmitOne | scripts/odoo_mailing_bulk.py:83-97 | the two `continue` tests and the append do what the admission rule says |
| MailingBulk.Flush | scripts/odoo_mailing_bulk.py:100-112 | one create call counts the whole batch as created or as errors |
| MailingBulk.FlushFullBatches | scripts/odoo_mailing_bulk.py:82-112 | the loop flushes every batch of 50 as soon as it fills; what was flushed plus the pending batch is the admitted plan |
| MailingBulk.AdmitAndFlush | scripts/odoo_mailing_bulk.py:83-112 | one iteration keeps the loop invariant: flushed plus pending is the plan of the partners so far, and all flushed batches are full |
| MailingBulk.CreateMailingContacts | scripts/odoo_mailing_bulk.py:73-127 | the admitted contacts go out in chunks of at most 50; created and errors count the contacts of the succeeding and failing batches, and created plus skipped plus errors is the number of partners |
| SettingsDb.KeysOfSnoc | src/services/settings-db.ts:122 | one more offered row adds its key to the offered keys |
| SettingsDb.SeededSnoc | src/services/settings-db.ts:122-125 | seeding one more row is one more insert-or-ignore |
| SettingsDb.SeededKeys | src/services/settings-db.ts:115-127 | seeding adds exactly the offered keys |
| SettingsDb.SeededKeeps | src/services/settings-db.ts:115-118 | a key already in the table keeps its row: seeding never overwrites |
| SettingsDb.SeededConcat | src/services/settings-db.ts:120-127 | seeding two lists in a row is seeding their concatenation |
| SettingsDb.SeededFirst | src/services/settings-db.ts:115-118 | a new key gets the value, category and description of the first row offered for it, stamped with the seeding time |
| SettingsDb.SeededPresent | src/services/settings-db.ts:115-127 | offering only keys the table has changes nothing |
| SettingsDb.SeedIdempotent | src/services/settings-db.ts:114-129 | after seeding every offered key is present, and seeding again, at any time, changes nothing |
| SettingsDb.NewKeyCounts | src/services/settings-db.ts:124 | a key neither offered before nor stored adds one to the new-key count |
| SettingsDb.OldKeyCounts | src/services/settings-db.ts:124 | a key already offered or stored adds nothing to the new-key count |
| SettingsDb.NewKeyStep | src/services/settings-db.ts:123-124 | an offered row counts as seeded exactly when its key is new to the table |
| SettingsDb.SeedOne | src/services/settings-db.ts:123-124 | one `insert.run` keeps the seeding invariant: the table so far and the count of new keys |
| SettingsDb.SeedRows | src/services/settings-db.ts:120-127 | the seeding loop yields the seeded table; `seeded` counts the keys the table lacked, and the rest were ignored |
| SettingsDb.IntOfRoundTrip | src/services/settings-db.ts:147-151 | an integer stored as decimal text reads back as itself |
| SettingsDb.BoolOfRoundTrip | src/services/settings-db.ts:154-157 | a boolean stored as `String(b)` reads back as itself |
| SettingsDb.ListOfClean | src/services/settings-db.ts:160-162 | list entries are non-empty, trimmed and free of commas |
| SettingsDb.TrimSubsequence | src/services/settings-db.ts:161 | trimming adds no character |
| SettingsDb.FilterAll | src/services/settings-db.ts:161 | filtering keeps a list whose every entry passes |
| SettingsDb.ListOfEmpty | src/services/settings-db.ts:160-162 | an empty value is an empty list |
| SettingsDb.MapTrimTrimmed | src/services/settings-db.ts:161 | trimming trimmed entries changes nothing |
| SettingsDb.ListOfRoundTrip | src/services/settings-db.ts:160-162 | non-empty trimmed comma-free entries written comma-joined read back as the same list |
| SettingsDb.Upsert | src/services/settings-db.ts:165-171 | the key holds the new value and time, no other row changes, and an existing row keeps its category and description |
| SettingsDb.Store.constructor | src/services/settings-db.ts:104-112 | opening a database shows the rows it holds |
| SettingsDb.Store.Seed | src/services/settings-db.ts:114-129 | the seeding transaction leaves the seeded table; `inserted` counts the new keys and `inserted + skipped` the offered rows |
| SettingsDb.Store.Get | src/services/settings-db.ts:141-144 | the stored value whenever the row exists, even an empty one; the fallback otherwise |
| SettingsDb.Store.GetInt | src/services/settings-db.ts:147-151 | a missing key gives the fallback, a parseable value its number, and a stored value that does not parse gives the fallback |
| SettingsDb.Store.GetBool | src/services/settings-db.ts:154-157 | a missing key gives the fallback; a stored value is true exactly when it is 'true' or '1' |
| SettingsDb.Store.GetList | src/services/settings-db.ts:160-162 | a missing key gives no entries; a stored value gives its comma-separated pieces trimmed with the empty ones dropped (`ListOf`, so `ListOfRoundTrip` applies), each non-empty, trimmed and comma-free |
| SettingsDb.Store.TaskEmails | src/services/settings-db.ts:221-225 | the task's own list when it has an entry, else the marketing list |
| SettingsDb.Store.Set | src/services/settings-db.ts:165-171 | after the upsert the key reads as the new value and every other key reads as before |
| SettingsDb.Store.Update | src/services/settings-db.ts:174-188 | category and description are written only when both are given and non-empty, otherwise it is `setSetting`; no other key appears or disappears |
| SettingsDb.Store.Delete | src/services/settings-db.ts:205-208 | true exactly when the key existed; the key is gone and nothing else changes |
| SettingsDb.Store.Categories | src/services/settings-db.ts:199-202 | the categories in use, each once, in ascending text order |
| SetupDb.Setup | scripts/setup-db.ts:116-164 | a dry run lists the values and leaves the table alone; otherwise every production value is offered with INSERT OR IGNORE, `inserted` counts the keys the table lacked and `inserted + skipped` the values offered |
| SetupDb.SetupTwice | scripts/setup-db.ts:5-18 | a second run inserts nothing and leaves the table as the first left it, and every value stored before either run survives both |
| Scheduler.RunOf | src/scheduler.ts:79-100 | a run entry keeps the start, finish and duration; its status is success exactly when the task resolved, and a rejected run carries its message as the error |
| Scheduler.Capped | src/scheduler.ts:112 | truncation keeps the longest prefix of at most 50 runs |
| Scheduler.PushShifts | src/scheduler.ts:109-113 | a push puts the new run first, moves every kept run one place down, and keeps at most 50 |
| Scheduler.EnabledKey | src/scheduler.ts:13 | the key is the task name wrapped in `task.` and `.enabled` |
| Scheduler.EnabledKeyInjective | src/scheduler.ts:13-20 | different tasks never share an enabled key |
| Scheduler.LoadTaskEnabled | src/scheduler.ts:12-16 | with nothing stored a task is enabled; otherwise it is enabled exactly when the stored text is 'true' |
| Scheduler.SaveTaskEnabled | src/scheduler.ts:19-22 | the flag is written as 'true' or 'false' under category 'tasks', reads back as written, and leaves every other task's flag as it was |
| Scheduler.TaskState.constructor | src/scheduler.ts:136-156 | a registered task starts with the persisted flag, not running, no runs, the computed next run and its job not started |
| Scheduler.TaskState.PushHistory | src/scheduler.ts:109-113 | the run becomes `lastRun` and the head of the history, which stays within 50; nothing else changes |
| Scheduler.TaskState.Begin | src/scheduler.ts:64-68 | a running task refuses with "already running" and stays running; otherwise it is marked running; nothing else changes |
| Scheduler.TaskState.Finish | src/scheduler.ts:72-106 | once the execution settles exactly one entry is pushed, the running flag is cleared, and the next run is recomputed for an enabled task and cleared for a disabled one |
| Scheduler.TaskState.Execute | src/scheduler.ts:62-107 | `executeTask`: refused while running with nothing changed; otherwise one new history entry, not running after, and no next run for a disabled task |
| Scheduler.TaskState.Reschedule | src/scheduler.ts:213-221 | the corrected rescheduling: the new expression, a job started exactly when the task is enabled, and no next run for a disabled task |
| Scheduler.TaskState.RescheduleAsWritten | src/scheduler.ts:213-221 | the rescheduling as written: the new job is started whatever the enabled flag says |
| Scheduler.TaskState.SetEnabled | src/scheduler.ts:231-237 | the flag and the job follow the request; the next run is recomputed when enabling and cleared when disabling |
| Scheduler.DisabledTaskStartedAsWritten | src/scheduler.ts:215-221 | a disabled task whose cron is updated as written ends with its job started, breaking the task invariant |
| Scheduler.Registry.constructor | src/scheduler.ts:58 | the registry starts empty |
| Scheduler.Registry.Register | src/scheduler.ts:129-160 | a duplicate name is skipped with nothing changed; a new name gets a fresh state with the persisted flag, no runs and its job not started, and no other task changes |
| Scheduler.Registry.Trigger | src/scheduler.ts:199-203 | an unknown name is refused; otherwise the task is executed as `executeTask` says |
| Scheduler.Registry.UpdateCron | src/scheduler.ts:206-224 | an invalid expression, then an unknown name, is refused before any state change; otherwise the task gets the new expression and keeps its flag, and (corrected, see Findings) its job runs only when enabled |
| Scheduler.Registry.SetTaskEnabled | src/scheduler.ts:227-243 | an unknown name is refused and nothing is stored; otherwise the flag, the job and the next run follow the request and the flag is persisted so that it reads back, with other tasks' flags untouched |
| Logging.Rank | src/utils/logger.ts:3-8 | debug, info, warn and error rank 0 to 3, each level its own rank |
| Logging.ParseLevel | src/utils/logger.ts:47-49 | 'debug', 'warn' and 'error' select their level, and an absent or unknown name falls back to info |
| Logging.Filtered | src/utils/logger.ts:29-37 | the filters keep only buffer entries at or above the level whose context contains the filter text, ignoring case |
| Logging.FilteredComplete | src/utils/logger.ts:29-37 | every buffer entry that passes both filters is kept |
| Logging.FilteredCons | src/utils/logger.ts:32-36 | filtering keeps buffer order: a matching front entry stays in front |
| Logging.Slice | src/utils/logger.ts:39 | `slice(0, end)` keeps a prefix of `end` entries, a negative end counting back from the end |
| Logging.Recent | src/utils/logger.ts:24-40 | the answer is a prefix of the matching entries, at most the limit (200 by default), and all of them when they fit |
| Logging.RecentComplete | src/utils/logger.ts:38-39 | without a limit every matching entry of a buffer of at most 200 is returned |
| Logging.Pushed | src/utils/logger.ts:65-66 | a push puts the entry first and keeps the buffer within 2000, dropping the oldest |
| Logging.LatestFirst | src/utils/logger.ts:29-65 | the most recently logged matching entry is the first one a query with room returns |
| Logging.LogBuffer.constructor | src/utils/logger.ts:21 | the buffer starts empty |
| Logging.LogBuffer.Unshift | src/utils/logger.ts:65-66 | the buffer becomes the pushed buffer |
| Logging.Logger.constructor | src/utils/logger.ts:47-49 | the logger's threshold is the rank of its parsed level |
| Logging.Logger.Write | src/utils/logger.ts:55-66 | an entry below the threshold leaves the buffer alone; any other entry is pushed in front with its timestamp, level, context, message and data |
| AdminServer.ContainsSelf | src/admin/server.ts:34 | every text contains itself, so a listed name that is a marker is caught by `includes` |
| AdminServer.SensitiveCharacterized | src/admin/server.ts:27-35 | a key is sensitive exactly when its lower-cased form is 'pass' or 'api_key' or contains password, secret, token or apikey; the listed 'apiKey' never matches a lower-cased key |
| AdminServer.SensitiveIgnoresCase | src/admin/server.ts:32-35 | sensitivity does not depend on letter case |
| AdminServer.FullKey | src/admin/server.ts:56 | under a prefix the key is the prefix, a dot and the property name; with none it is the name |
| AdminServer.Leaf | src/admin/server.ts:60-66 | a leaf entry is redacted exactly when its own name is sensitive, shows `String(value)` otherwise, and is editable only when its full key is listed and it is not sensitive |
| AdminServer.StartsWithLonger | src/admin/server.ts:56 | a key that starts with a longer prefix starts with the shorter one |
| AdminServer.Flatten | src/admin/server.ts:53-70 | one entry per non-object value at any depth (see FlattenListsDeep and FlattenOnlyLeaves); sensitive entries are redacted, and editable holds exactly for listed, non-sensitive keys |
| AdminServer.FlattenPrefixed | src/admin/server.ts:56-58 | under a prefix every emitted key is the prefix and a dot, then more: objects are entered, never listed |
| AdminServer.FlattenLists | src/admin/server.ts:59-66 | every value that is not an object is listed under its dotted key |
| AdminServer.FlattenEnters | src/admin/server.ts:57-58 | everything flattened from a nested object is also in the flattening of its parent, under the parent's dotted key |
| AdminServer.FlattenListsDeep | src/admin/server.ts:53-69 | a value that is not an object, reached at any depth through nested objects, is listed under its full dotted key |
| AdminServer.FlattenOnlyLeaves | src/admin/server.ts:53-69 | every listed entry is the value at some path of nested keys: nothing else is listed |
| AdminServer.SetNested | src/admin/server.ts:72-86 | `setNestedValue` changes only the first key of the path; it leaves the config alone when an intermediate is missing, and otherwise the path reads back the coerced value |
| AdminServer.Sessions.Authorized | src/admin/server.ts:111-122 | public paths pass; any other path is refused without a token or with one that is not active |
| AdminServer.Describe | src/admin/server.ts:730-741 | a five-field expression gets a non-empty description, or the expression itself when no pattern matches |
| AdminServer.LookupFinds | src/admin/server.ts:75 | a property is found exactly when some field carries its name |
| AdminServer.Put | src/admin/server.ts:82-84 | the assigned property reads the new value, every other property reads as before, an existing one changes in place and a new one is added last |
| AdminServer.PutSame | src/admin/server.ts:82-84 | assigning a property its own value changes nothing |
| AdminServer.NumberOf | src/admin/server.ts:82 | `Number(text)` gives a number or NaN, and 0 for blank text |
| AdminServer.Coerce | src/admin/server.ts:81-84 | the new value takes the type of the one it replaces: a number is parsed, a boolean is true only for 'true', and anything else becomes text |
| AdminServer.SetPath | src/admin/server.ts:72-85 | a missing or non-object intermediate leaves the configuration unchanged, and no top-level property other than the path's first changes |
| AdminServer.SetThenGet | src/admin/server.ts:72-85 | when the intermediates exist, the path reads back the value coerced to the type it replaced |
| AdminServer.GenerateToken | src/admin/server.ts:92-97 | a token is 48 characters drawn from the 62 letters and digits |
| AdminServer.AdminUser | src/admin/server.ts:23 | the admin user is the environment value when set and non-empty, 'admin' otherwise |
| AdminServer.Sessions.constructor | src/admin/server.ts:90 | no session is active at start |
| AdminServer.Sessions.Login | src/admin/server.ts:126-137 | the right user and password add a new token and answer 200, and that token then passes the middleware; anything else answers 401 and adds none |
| AdminServer.Sessions.Logout | src/admin/server.ts:140-144 | the presented token is removed, the others stay, and it no longer passes the middleware on any protected path |
| AdminServer.RunEndpoint | src/admin/server.ts:159-165 | 404 for an unknown task, 409 while it runs, and otherwise 200 with the run begun and no history entry yet |
| AdminServer.FirstSpace | src/admin/server.ts:728 | the first whitespace position, the text before it holding none |
| AdminServer.RunEnd | src/admin/server.ts:728 | a whitespace run ends at a non-space or the end of the text |
| AdminServer.SplitWs | src/admin/server.ts:728 | `split(/\s+/)` gives at least one piece and no piece holds whitespace |
| AdminServer.FirstSpaceOfJoin | src/admin/server.ts:728 | a word followed by whitespace has its first space after the word |
| AdminServer.FirstSpaceOfWord | src/admin/server.ts:728 | a word without whitespace has none |
| AdminServer.SplitWsJoin | src/admin/server.ts:728 | words joined by single spaces split back into those words |
| AdminServer.SplitWsCons | src/admin/server.ts:728 | a word and one space split off as the first piece |
| AdminServer.JoinHead | src/admin/server.ts:728 | a join starts with the first character of its first word |
| AdminServer.CronToHuman | src/admin/server.ts:727-729 | an expression that does not have five fields comes back unchanged |
| AdminServer.CronFields | src/admin/server.ts:728 | five space-separated words are the five fields |
| AdminServer.EveryMinute | src/admin/server.ts:731 | a star minute and hour read 'Cada minuto', whatever the other fields say |
| AdminServer.EveryNMinutes | src/admin/server.ts:732 | a minute field of star, slash and N reads as every N minutes |
| AdminServer.DigitsHaveNoSpace | src/admin/server.ts:739 | digits hold no whitespace |
| AdminServer.DescribeDaily | src/admin/server.ts:739 | numeric minute and hour with three stars describe a daily time |
| AdminServer.DailyAt | src/admin/server.ts:727-741 | 'M H * * *' with numeric fields reads 'Diario a las' and the zero-padded time |
| AdminServer.MarkupPassesAbsent | src/admin/server.ts:1036 | text with no markup character passes the last three replacements unchanged |
| AdminServer.EscConcat | src/admin/server.ts:1036 | the global replacements distribute over concatenation |
| AdminServer.EscAmp | src/admin/server.ts:1036 | '&' becomes '&amp;' and the later passes leave it alone |
| AdminServer.EscMarkup | src/admin/server.ts:1036 | '<', '>' and '"' become their entities |
| AdminServer.EscPlain | src/admin/server.ts:1036 | any other character is kept |
| AdminServer.EscOneChar | src/admin/server.ts:1036 | no pass touches the entities an earlier pass wrote, so one character gets exactly its entity |
| AdminServer.EscIsPerChar | src/admin/server.ts:1036 | with '&' first, the chained replacements escape every character on its own |
| AdminServer.UnescapeAmp | src/admin/server.ts:1036 | a browser reads '&amp;' back as '&' |
| AdminServer.UnescapeLt | src/admin/server.ts:1036 | a browser reads '&lt;' back as '<' |
| AdminServer.UnescapeGt | src/admin/server.ts:1036 | a browser reads '&gt;' back as '>' |
| AdminServer.UnescapeQuot | src/admin/server.ts:1036 | a browser reads '&quot;' back as '"' |
| AdminServer.UnescapeStep | src/admin/server.ts:1036 | an escaped character reads back as itself |
| AdminServer.EscRoundTrip | src/admin/server.ts:1036 | escaped text shows in the page as the original text |
| AdminServer.EscapeHtmlSafe | src/admin/server.ts:1036 | the per-character escape leaves no '<', '>' or '"' |
| AdminServer.EscSafe | src/admin/server.ts:1036 | no markup character survives `esc` |
| Calendar.MondayFirstWeekday | scripts/odoo_chat_analysis.py:156 | `datetime.weekday()` is a weekday number from 0 to 6 |
| Calendar.SundayFirstWeekday | src/tasks/odoo-chat-analysis.ts:203 | `getUTCDay()` is a weekday number from 0 to 6 |
| Calendar.WeekdayConventions | src/tasks/odoo-chat-analysis.ts:203 | the Sunday-first number is the Monday-first one moved by one place, modulo 7 |
| Calendar.ShiftMod7 | src/tasks/odoo-chat-analysis.ts:203 | adding one commutes with the reduction modulo 7 |
| Calendar.EpochWasThursday | scripts/odoo_chat_analysis.py:156 | 1970-01-01 is day 0 and a Thursday |
| Calendar.NewYear2024WasMonday | scripts/odoo_chat_analysis.py:156 | 2024-01-01 is a Monday, weekday 0 in Python's convention |
| Calendar.LeapDay2000WasTuesday | src/tasks/odoo-chat-analysis.ts:203 | 2000-02-29 is a Tuesday, day 2 in JavaScript's convention |
| Calendar.AgeDays | scripts/odoo_chat_leads_report.py:309 | the age is the whole number of days elapsed, rounded down, as `timedelta.days` and `Math.floor` of the milliseconds give it |
| Calendar.AgeDaysMonotone | src/tasks/odoo-chat-leads.ts:200 | a later clock never makes a chat younger |
| Calendar.NatToStringLength | scripts/odoo_chat_analysis.py:155 | a number of at least 10 to the k has more than k digits |
| Calendar.MonthKeysAgree | src/tasks/odoo-chat-analysis.ts:201 | for four-digit years the Python and TypeScript reports bucket a session under the same month key |
| Calendar.TijuanaHour | scripts/odoo_chat_analysis.py:329 | `(hour - 8) % 24` is an hour of the day, 8 hours behind the UTC hour |
| Csv.Escape | src/tasks/odoo-chat-leads.ts:399-404 | a field with a comma, a double quote or a newline is wrapped in double quotes; any other field is written as it is |
| Csv.UndoubleReplace | src/tasks/odoo-chat-leads.ts:402 | undoubling the doubled quotes gives the original text |
| Csv.EscapeRoundTrip | src/tasks/odoo-chat-leads.ts:399-404 | escaping loses nothing: a reader that strips the quotes and undoubles the inner ones gets the original field back |
| Csv.EscapeChangesIffQuoted | src/tasks/odoo-chat-leads.ts:401-403 | a field is altered exactly when it has to be quoted |
| Csv.ReplaceGrows | src/tasks/odoo-chat-leads.ts:402 | doubling the quotes of a text that has one makes it longer |
| Csv.ReplaceKeepsLength | src/tasks/odoo-chat-leads.ts:402 | doubling the quotes never shortens a text |
| Csv.PlainLineSplits | src/tasks/odoo-chat-leads.ts:405-406 | a line of fields that need no quoting splits on commas back into those fields |
| Csv.PlainDocumentLines | src/tasks/odoo-chat-leads.ts:405-407 | a document of unquoted fields has one line for the header and one per row |
| WixCatalog.OrText | scripts/wix_full_export.ts:45 | `a or fallback` on text: a non-empty value wins, anything falsy gives the fallback |
| WixCatalog.OrNum | scripts/wix_full_export.ts:49 | `a or fallback` on a number: a non-zero value wins, anything falsy gives the fallback |
| WixCatalog.FirstVariant | scripts/wix_full_export.ts:41-42 | `variants?.[0]` exists exactly when the product has a non-empty variant list, and is its first element |
| WixCatalog.SkuOf | scripts/wix_full_export.ts:41-44 | the sku is the first variant's sku, else the product's, else the empty text |
| WixCatalog.PriceOf | scripts/wix_full_export.ts:46 | the price is the product's, else the first variant's, else 0 |
| WixCatalog.DiscountedOf | scripts/wix_full_export.ts:47 | the discounted price is the product's, else the first variant's, else the price |
| WixCatalog.CurrencyOf | scripts/wix_full_export.ts:48 | the currency is the product's, else the first variant's, else 'MXN', and never empty |
| WixCatalog.InventoryStatusOf | scripts/wix_full_export.ts:51 | the inventory status is the product's, else 'N/A' |
| WixCatalog.TrackInventoryOf | scripts/wix_full_export.ts:53-58 | the product's own flag wins whenever it is defined, null giving 'No'; otherwise the stock object's `trackQuantity`; 'N/A' exactly when neither is defined |
| WixCatalog.SkuCellRoundTrip | scripts/wix_full_export.ts:44-65 | the quoted sku cell reads back as the chosen sku: doubling the quotes loses nothing |
| WixCatalog.NameCellRoundTrip | scripts/wix_full_export.ts:45-65 | the quoted name cell reads back as the product's name, or the empty text |
| WixCatalog.QuotedRoundTrip | scripts/wix_full_export.ts:44-45 | a text with its quotes doubled and wrapped in quotes reads back as the text |
| WixCatalog.BuildRows | scripts/wix_full_export.ts:37-66 | the header comes first and then one line per product, in order |
| WixCatalog.RowSingleLine | scripts/wix_full_export.ts:65 | a product whose texts and number texts hold no newline gives a line with none |
| WixCatalog.ContentLines | scripts/wix_full_export.ts:68 | the newline-joined rows split back into the rows when no product line holds a newline |
| WixCatalog.HeaderSingleLine | scripts/wix_full_export.ts:38 | the header holds no newline |
| WixFullExport.GenerateCsv | scripts/wix_full_export.ts:36-68 | products + 1 rows, the header first, then each product's line in order, joined by newlines; when no line holds a newline the text splits back into those rows |
| ExportWixCatalog.Batches | scripts/export_wix_catalog.ts:97-111 | the pages answered for the requested offsets, in request order |
| ExportWixCatalog.FetchAll | scripts/export_wix_catalog.ts:97-120 | the first page is always requested, the offsets are 0, 100, 200 and so on, every page but the last was exactly full, the last was not, and the products are the pages concatenated in order |
| ExportWixCatalog.Page | scripts/export_wix_catalog.ts:97-107 | a server paging a fixed catalogue answers at most 100 products from the offset, and none past the end |
| ExportWixCatalog.PagesCoverCatalog | scripts/export_wix_catalog.ts:97-120 | against a fixed catalogue the loop collects the whole catalogue, in order, each product once |
| ExportWixCatalog.PagesPrefix | scripts/export_wix_catalog.ts:100-113 | the first j pages are the catalogue up to offset 100 times j |
| ExportWixCatalog.Export | scripts/export_wix_catalog.ts:93-157 | every page is fetched as the loop says, then the header and one line per fetched product, joined by newlines |

## Left out

- ChatSignals.Chronological: the TypeScript `localeCompare` order is modelled as character-code order. The two agree on Odoo's fixed-format "YYYY-MM-DD HH:MM:SS" dates, where the separators sit at the same positions and digits collate numerically; dates in any other format are not covered.
- Network and database clients: Odoo XML-RPC and JSON-RPC, MSSQL, PostgreSQL, SQLite, the Wix and stores HTTPS APIs and SMTP are outside the model. Each call becomes a function parameter (a reply or a success predicate) or is dropped. The SQL statements themselves are not modelled.
- Regular expressions: the intent, product and e-mail catalogs, the contractor and business wording, and the other regular expressions are uninterpreted predicates passed in as parameters. The model does not capture their vocabulary.
- Python's `HTMLParser`-based `strip_html` is a parameter, `htmlData`. Only the TypeScript `stripHtml` is modelled concretely.
- Time: the clock, the parsing of date strings and time zones are inputs. A session's age in days and a parsed UTC date-time are given. The Tijuana hour table is the fixed UTC-8 shift the script applies.
- Floating point: prices, stock and scores are `real`. Rounding to two decimals and `toFixed` are modelled as the comparisons the source makes. NaN and infinities are not modelled.
- JavaScript's number-to-text conversion inside template literals is a parameter, `show`.
- Concurrency: the `Promise.all` fan-out, the cron library's timers and its next-run computation, and the order in which overlapping runs interleave are left out. The next run is an input.
- The console lines, progress logs, report and Markdown formatting, `writeFileSync` and the HTML of the dashboard and the e-mails are left out. The admin server's other endpoints, static pages and express wiring are left out as well.
- Randomness: the session token picked at login is a parameter.
- Entry points, command-line flags and environment configuration are inputs.
- Python set iteration order is modelled as insertion order.
- Null elements inside arrays returned by the APIs are not modelled.
- `getAllSettings` and `closeSettingsDb` are not modelled. They are a plain read of every row and the closing of the database handle.
- `startAll`, `stopAll`, `listTasks`, `getTaskStates` and `getTaskState` are not modelled. They are registry lookups and job start/stop at boot.
- The logger's copy of each entry into the SQLite log table (`insertLog`) is left out.
- The catalogue export's rejection of an unreadable reply and its `setTimeout` pause are left out.
- ExportWixCatalog.FetchAll: the loop ends only because the catalogue is finite. The model states this through a ghost bound, `size`, past which every page is empty.
- The category lookup key, the template string `${pid}|${name}`, is modelled as a pair.
- InventoryDiff.ApplyArchives: counts the ids of the writes accepted. The source logs `toArchive.length` whatever the replies say.
- StockSync.StockChanges: states that every change it produces is sound and that each quant gets at most one correction. It does not state that every needed correction is found.
- StockSync.ApplyStockChanges: the create count assumes the create call answers one id per value sent. The apply reply is a function of the batch.
- PriceInventorySync.RowsToProcess: a negative test limit is covered only through `SliceEnd`. The push of updates to Wix is a function of the batch.
- CategorySync.CreateMissing: gives each queued node the id `create(name, parentId)`, one call per node. The source sends one batch `create` and takes `idArr[i]` of its reply, so the model does not capture a reply that is a single number (every node after the first then gets `undefined`) or shorter than the batch. Two queued siblings with the same name therefore get the same id in the model.
- CategorySync.SyncCategories: inherits the per-node `create` of CategorySync.CreateMissing.
- AdminServer.NumberOf: models `Number(value)` on optionally signed decimal integers only. A leading '+', fractions, exponents, hexadecimal and "Infinity" give NaN in the model, though `Number` reads them. `JNum` holds integers only. `setNestedValue` is defined in src/admin/server.ts but never called there.
- AdminServer.SetPath: treats an array on the path as a value that is not an object, so it stops there. `setNestedValue` enters arrays, because `typeof` gives 'object' for them (for example `marketingEmails` in src/config.ts). AdminServer.SetNested inherits this.
- Text.IsSpace, Text.Trim, Text.ToLower, Text.ToUpper: whitespace is the ASCII set plus U+00A0, so U+1680, U+2000 to U+200A, U+2028, U+2029, U+202F, U+205F and U+3000 are not trimmed, nor Python's U+001C to U+001F and U+0085 or JavaScript's U+FEFF. Case mapping covers ASCII and Latin-1 letters only. MailingBulk.Normalize, MailingBulk.ExistingEmails, PriceSync.PriceIndexKeys, InventorySync.ArticleKey, InventoryDiff.OdooByCode, InventoryDiff.InSync, AdminServer.IsSensitive, PriceSync.IsTransient and the logger's text filter inherit this.
- InventoryDiff.CreatedAtMost: the bound by the number of products sent holds only when Odoo answers at most one id per value; the source logs whatever length the reply has.
- AdminServer.Esc: has no contract of its own. Its properties are stated by AdminServer.EscIsPerChar and the lemmas next to it.

## Findings

| source | as written | input that shows it | evidently intended | confidence | as-written member | corrected member |
|---|---|---|---|---|---|---|
| src/tasks/odoo-inventory-sync.ts:974-983 | When the batch `action_apply_inventory` fails (other than "cannot marshal None"), every successful write is added to `stockErrors`. `stockUpdated += successIds.length` still runs after the catch, so each such quant is counted as updated and again as an error. | one correction whose `write` succeeds and whose apply throws: updated 1 and errors 1 for a single quant | a failed apply counts the batch as errors only, so each change is counted once | not executed; the counts are only logged | StockSync.UpdateBatchDoubleCounts (on StockSync.UpdateBatchAsWritten) | StockSync.UpdateBatch, with StockSync.UpdateBatchTotal and StockSync.UpdateCountsTotal |
| src/scheduler.ts:213-221 | `updateCron` always creates the new job with `scheduled: true`. A disabled task therefore starts running on the new schedule while its state still says disabled and `nextRun` is null. | `updateCron` on a task loaded with `enabled` false | the new job is started only when the task is enabled, as `setTaskEnabled` and `startAll` do | not executed | Scheduler.DisabledTaskStartedAsWritten (on Scheduler.TaskState.RescheduleAsWritten) | Scheduler.TaskState.Reschedule |
