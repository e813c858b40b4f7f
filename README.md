# Seed tracker inventory ledger, in Dafny

This project models the core of the seed tracker's `seeds` Django app. It covers:

- the three tables: seed batches, outgoing transactions and batch photos;
- the validation the forms and the model run on them;
- the batch list's "recommended to process" flag, filter, search and sort;
- the two CSV exports;
- the view handlers that change the tables: batch create, update and delete, the multi-photo upload, and the outgoing transaction that takes weight off a batch.

Weights and quantities are `DecimalField(decimal_places=2)` columns. The model holds them as integers in hundredths of a gram (`Common.Cents`). Dates are integer day numbers. The current day (`timezone.localdate()`) is a parameter, and so is the configured recommendation window.

Modules:

- `Common`: `Option`, `Result`, cents and dates, field errors, and code-point string order, which is how the batch number breaks ties on the sell-by date.
- `Decimal`: the `f"{x:.2f}"` formatting of a weight, and a parser that inverts it.
- `Query`: the two QuerySet operations the views compose. `Filter` keeps rows in order; `SortBy` is a sorted permutation under a total preorder of the ordering keys.
- `Models` (models.py): the records, the four transaction types, `recommended_to_process`, `OutgoingTransaction.clean` as written and as intended, batch-number uniqueness and both `Meta.ordering`s.
- `Forms` (forms.py), in three parts:
  - `OutgoingTransactionForm`, a class whose `Clean` accumulates errors through `AddError`, and the errors `is_valid()` collects;
  - `SeedBatchForm`'s validation;
  - `MultipleFileField.clean` and `clean_images`, a loop that raises at the first oversized file.
- `Views` (the side of views.py that returns values):
  - the list pipeline annotate → filter → search → sort;
  - the export rows and their ordering;
  - the locked check-then-decrement of `outgoing_create`;
  - `Replay`, a serialised sequence of outgoing requests against one batch;
  - the two defects of views.py, as written and corrected.
- `Store`: class `SeedStore` holds the tables (`map` from id to batch, `seq` of transactions, `seq` of photos, autoincrement counters) and the handlers that change them. Its `Valid()` invariant says:
  - rows are keyed by id;
  - ids are never reused;
  - the unique index on `batch_number` points at each row;
  - both foreign keys resolve;
  - each batch's weight is a ghost `baseline` less exactly the quantities recorded against it. Creating a row sets the baseline to the entered weight. Updating it sets the baseline to the entered weight plus what is already recorded, so the weight is the one last entered less what was recorded since.

Where the code's behaviour is surprising, this is what the model does:

- `SeedBatchForm` sets no lower bound on `weight_grams`, so create and update accept a negative weight (`Forms.NegativeWeightAccepted`). The delete, upload and outgoing handlers preserve non-negativity of every weight. Create and update preserve it only for a non-negative entered weight (their `weight >= 0 ==> AllNonNegative()` ensures). `Forms.GuardedBatchFormErrors` is the form with that lower bound: it accepts only non-negative weights and agrees with `SeedBatchForm` on every other input (`Forms.GuardedFormAgrees`), so with it every handler keeps every weight non-negative.
- `OutgoingTransactionForm.clean` returns `cleaned_data` itself. Django's `add_error` removes the field from that dictionary, so after an error the returned data no longer has the quantity. It is not returned unchanged.
- `OutgoingTransaction.clean` reads `self.batch` whenever the quantity is positive. When the submitted batch is missing or not one of the choices, the instance has no batch and that read raises `RelatedObjectDoesNotExist`, which nothing catches. The code as written is modelled in `Models.TransactionCleanAsWritten` and the members built on it. The handlers use the evident intent of the guard, in which a missing batch skips the weight check (see Findings).

## Model

| member | source | states |
|---|---|---|
| Models.RecommendWindowDays | screening_test/seedtracker/seeds/models.py:9 | the window is the configured value when there is one, and 30 days otherwise; the list and the batch export both use it |
| Models.DefaultWindowThirtyDays | screening_test/seedtracker/seeds/models.py:9-31 | with no configured window, a batch whose sell-by date is 30 days away is flagged and one 31 days away is not |
| Models.FitsDecimalField | screening_test/seedtracker/seeds/models.py:15 | a value fits `max_digits=12, decimal_places=2` (the weight here, the quantity at line 59) iff its integer part has at most ten digits |
| Models.UniqueBatchNumbersIndexed | screening_test/seedtracker/seeds/models.py:14 | no two rows share a batch number exactly when there is a lookup from batch number to the row holding it, which is what the unique index provides |
| Models.RecommendedToProcess | screening_test/seedtracker/seeds/models.py:25-31 | only a batch with a sell-by date is flagged, and with a non-negative window a batch already at or past its sell-by date always is |
| Models.RecommendedBoundary | screening_test/seedtracker/seeds/models.py:25-31 | a sell-by date exactly at today + window is flagged, one day later is not, and a missing date never is |
| Models.RecommendedMonotone | screening_test/seedtracker/seeds/models.py:28-31 | whenever a sell-by date is flagged, every earlier date is flagged too |
| Models.ParseType | screening_test/seedtracker/seeds/models.py:44-53 | a submitted type value names a choice exactly when it is that choice's stored value |
| Models.TypeRoundTrip | screening_test/seedtracker/seeds/models.py:44-53 | reading back the stored value of any of the four choices gives that choice |
| Models.ExactlyFourTypes | screening_test/seedtracker/seeds/models.py:44-58 | a type value is accepted iff it is charity, printer_error, machine_error or disposal |
| Models.TransactionClean | screening_test/seedtracker/seeds/models.py:66-84 | with the defect at line 75 corrected, no error iff the quantity is present, positive and (with a batch) at most its weight. A missing or non-positive quantity gets the "positive amount" error; a positive quantity above the weight gets the "would make inventory negative" error; both are on quantity_grams |
| Models.TransactionCleanAsWritten | screening_test/seedtracker/seeds/models.py:66-84 | as written, clean raises `RelatedObjectDoesNotExist` iff the quantity is present and positive and the instance has no batch; in every other case it gives exactly the intended `TransactionClean` result |
| Models.MissingBatchRaises | screening_test/seedtracker/seeds/models.py:74-78 | for any positive quantity and no batch, the code raises where the intended clean finds no error |
| Models.TransactionCleanBoundary | screening_test/seedtracker/seeds/models.py:74-84 | taking exactly the whole weight is accepted; one hundredth of a gram more is rejected |
| Models.BatchOrderTotal | screening_test/seedtracker/seeds/models.py:20 | ordering by sell-by date and then batch number compares every pair and is transitive |
| Models.BatchOrderTies | screening_test/seedtracker/seeds/models.py:20 | two batches tie under that ordering only when they share sell-by date and batch number |
| Models.TxDefaultOrderTotal | screening_test/seedtracker/seeds/models.py:64 | ordering by date and then id, both descending, is a total preorder |
| Query.Filter | screening_test/seedtracker/seeds/views.py:36-43 | filter() keeps exactly the accepted rows, each as often as it was stored, and no others |
| Query.FilterKeepsOrder | screening_test/seedtracker/seeds/views.py:36-43 | filtering a sorted QuerySet leaves it sorted under the same ordering |
| Query.SortBy | screening_test/seedtracker/seeds/views.py:46-48 | order_by() returns a permutation of the rows, sorted by the ordering |
| Query.SortedUnique | screening_test/seedtracker/seeds/views.py:167 | when no two distinct rows tie, there is exactly one sorted permutation of the rows |
| Query.SortIndependentOfStorage | screening_test/seedtracker/seeds/views.py:167 | when no rows tie, the sorted result does not depend on the order the rows are stored in |
| Query.MapSeqPermutation | screening_test/seedtracker/seeds/views.py:167-171 | building one output row per input row of a permutation gives a permutation of the output rows |
| Forms.FormCleanErrors | screening_test/seedtracker/seeds/forms.py:17-25 | every error is on quantity_grams and carries one of the two messages of forms.py:21-24, and nothing else is added. "Must be positive" appears iff the quantity is present and at most zero; "exceeds current batch weight" appears iff there is a batch and the quantity is non-zero and above its weight; the list holds exactly one error per failed check. A zero quantity is falsy and skips the second check |
| Forms.FormAndModelCleanAgree | screening_test/seedtracker/seeds/forms.py:17-25 | for a selected batch, the form's clean accepts exactly the quantities the model's clean accepts: 0 < q <= weight |
| Forms.FormCleanBoundary | screening_test/seedtracker/seeds/forms.py:23-24 | the whole weight is accepted; one hundredth more draws only the exceeds error |
| Forms.WithoutField | screening_test/seedtracker/seeds/forms.py:22 | removing the quantity_grams entry, as add_error does, clears the cleaned quantity and nothing else |
| Forms.OutgoingTransactionForm.AddError | screening_test/seedtracker/seeds/forms.py:22 | the error is appended to the form's errors and its field removed from cleaned_data |
| Forms.OutgoingTransactionForm.Clean | screening_test/seedtracker/seeds/forms.py:17-25 | the form's errors grow by exactly the errors of the two checks, in order. cleaned_data is unchanged when there are none and loses the quantity otherwise, and what is returned is cleaned_data itself |
| Forms.OutgoingFormErrors | screening_test/seedtracker/seeds/forms.py:12-25 | with the defect at models.py:75 corrected, is_valid() (field validation, the form's clean, then the model's clean) finds no error iff the request names a listed batch, one of the four types, and a quantity within the digit limit, positive and at most the batch's weight |
| Forms.OutgoingValidationAsWritten | screening_test/seedtracker/seeds/forms.py:12-25 | as written, is_valid() raises `RelatedObjectDoesNotExist` iff the batch is missing or not a choice and the quantity fits the field and is positive; otherwise it collects exactly the intended errors |
| Forms.MissingBatchFindingWitness | screening_test/seedtracker/seeds/models.py:74-78 | a POST with no batch, type charity and 1.00 g raises as written, while the intended form answers with "This field is required." on the batch alone |
| Forms.NegativeWeightAccepted | screening_test/seedtracker/seeds/forms.py:6-9 | a batch form with valid names, a free number, a date and any negative weight that fits the field has no errors |
| Forms.BatchFormErrors | screening_test/seedtracker/seeds/forms.py:6-9 | SeedBatchForm finds no error iff both names are present and within 200 and 100 characters, no other row has the batch number, the weight is present, readable as a number and fits 12 digits, and the sell-by date is present and readable. A blank weight or date draws "This field is required.", an unreadable weight "Enter a number.", an unreadable date "Enter a valid date.", and a duplicate number of acceptable length the uniqueness error |
| Forms.GuardedBatchFormErrors | screening_test/seedtracker/seeds/forms.py:6-9 | the batch form with a lower bound of 0 on weight_grams finds no error iff the stock checks pass and the entered weight is non-negative; a negative entered weight always draws the minimum-value error |
| Forms.GuardedFormAgrees | screening_test/seedtracker/seeds/forms.py:6-9 | the guarded form gives the same errors as SeedBatchForm on every non-negative weight, lets no negative weight through, and on an otherwise valid negative weight reports only the minimum-value error |
| Forms.CleanImages | screening_test/seedtracker/seeds/forms.py:53-61 | the list is accepted iff it is non-empty and every file is at most 10·1024·1024 bytes, so a file of exactly that size passes. An accepted list comes back as given; an empty list gets the "select at least one image" error; otherwise the error names the first oversized file |
| Forms.CleanEach | screening_test/seedtracker/seeds/forms.py:40-41 | the comprehension succeeds iff the single-file clean accepts every element. On success the result has the same length, with each element cleaned in place; otherwise the error is that of the first rejected element |
| Forms.MultipleFileClean | screening_test/seedtracker/seeds/forms.py:38-42 | a list is cleaned element by element into a list of the same length and order; a single file is cleaned on its own |
| Forms.EmptyListPassesField | screening_test/seedtracker/seeds/forms.py:38-42 | an empty list passes the field, leaving its rejection to clean_images |
| Views.Annotate | screening_test/seedtracker/seeds/views.py:25-33 | one row per batch, in order, each with a recommended flag equal to the model's recommended_to_process |
| Views.AnnotationMatchesProperty | screening_test/seedtracker/seeds/views.py:25-33 | the Case/When annotation and the model's property agree on every date, present or missing |
| Views.FilterRecommended | screening_test/seedtracker/seeds/views.py:36-38 | "yes" keeps exactly the flagged rows and "no" exactly the unflagged ones, each with its multiplicity; any other value keeps the list as it is |
| Views.MatchesSearchOccurrence | screening_test/seedtracker/seeds/views.py:43 | a row matches iff the lower-cased q occurs at some position of its lower-cased seed name or of its lower-cased batch number |
| Views.ContainsOccurrence | screening_test/seedtracker/seeds/views.py:43 | the substring test used for icontains holds iff the needle occurs at some position of the text |
| Views.Search | screening_test/seedtracker/seeds/views.py:41-43 | with the defect corrected, a non-empty q keeps exactly the rows whose lower-cased name or number contains the lower-cased q; no q, or an empty one, keeps all rows |
| Views.SearchAsWritten | screening_test/seedtracker/seeds/views.py:41-43 | as written, a non-empty q raises NameError for `models`; no q, or an empty one, leaves the list unchanged |
| Views.SearchFindingWitness | screening_test/seedtracker/seeds/views.py:43 | for ?q=tom and a "Tomato" batch, the code as written raises while the intended search lists the batch |
| Views.RecommendedFirstTotal | screening_test/seedtracker/seeds/views.py:48 | ordering by -recommended and then sell_by_date is a total preorder |
| Views.SortParam | screening_test/seedtracker/seeds/views.py:46-48 | the list is always a permutation of its input. With sort=recommended every flagged row precedes every unflagged one, and within a group sell-by dates ascend; any other value keeps the order |
| Views.SeedBatchList | screening_test/seedtracker/seeds/views.py:20-57 | with the defect at line 43 corrected, the list pipeline under the configured window; with no recommended filter and no search it lists every batch of the table exactly as often as it is stored |
| Views.ListFlagsMatchProperty | screening_test/seedtracker/seeds/views.py:20-57 | whatever the query parameters, every listed row's flag is the model's recommended_to_process for its batch |
| Views.ListRecommendedFilter | screening_test/seedtracker/seeds/views.py:27-38 | without a search, ?recommended=yes lists each flagged batch of the table exactly as often as it is stored and nothing else, and ?recommended=no does the same for the unflagged ones |
| Views.ListDefaultOrder | screening_test/seedtracker/seeds/views.py:20-48 | without sort=recommended the list stays in Meta.ordering (sell-by date, then batch number), whatever is filtered or searched |
| Views.BatchRowOf | screening_test/seedtracker/seeds/views.py:168-171 | the CSV row carries the batch's id, number, name, sell-by date and creation time; its weight text reads back as exactly the stored weight; the flag is "Yes" iff the batch is recommended and "No" otherwise |
| Views.ExportBatchRows | screening_test/seedtracker/seeds/views.py:157-172 | one row per batch: a permutation of the batches' rows, ordered by sell-by date and then batch number |
| Views.ExportBatchRowsDeterministic | screening_test/seedtracker/seeds/views.py:167 | given unique batch numbers, the export is the same whatever order the database returns the rows in |
| Views.TxExportOrderTotal | screening_test/seedtracker/seeds/views.py:183 | ordering by -date and then id is a total preorder |
| Views.TxOrdersCompared | screening_test/seedtracker/seeds/views.py:183 | for distinct ids, the export's order and Meta.ordering agree across days and are opposite within one day |
| Views.TxOrdersDifferWitness | screening_test/seedtracker/seeds/views.py:183 | two transactions of the same day are exported in ascending id order but listed by default in descending id order |
| Views.TxRowOf | screening_test/seedtracker/seeds/views.py:184-188 | the CSV row carries the transaction's id, batch id, notes and date and its batch's number and name; its type text reads back as its type; its quantity text reads back as exactly its quantity |
| Views.ExportOutgoingRows | screening_test/seedtracker/seeds/views.py:174-189 | one row per transaction: a permutation of the transactions' rows, ordered by date descending and then id ascending |
| Views.LockedUpdate | screening_test/seedtracker/seeds/views.py:136-145 | the locked step finds no row iff there is none, and refuses iff the quantity is above the current weight. When it commits, the new weight plus the quantity is the old weight, and the new weight is non-negative |
| Views.LockedUpdateAsWritten | screening_test/seedtracker/seeds/views.py:136-145 | as written, every step that would commit raises NameError for `F`; the others behave as intended |
| Views.AsWrittenNeverCommits | screening_test/seedtracker/seeds/views.py:145 | as written, no request ever completes with a commit |
| Views.DecrementFindingWitness | screening_test/seedtracker/seeds/views.py:145 | taking 30.00 g from 100.00 g: intended, the weight becomes 70.00 g; as written, the request raises |
| Views.Replay | screening_test/seedtracker/seeds/views.py:136-145 | requests are served one at a time, each passed on to the locked step when positive. After any sequence of positive outgoing requests, a batch's weight is its initial weight less the sum of the recorded quantities, which are all positive and no more numerous than the requests |
| Views.ReplayStep | screening_test/seedtracker/seeds/views.py:136-145 | the next request is recorded, and takes exactly its quantity off, iff it is positive and within the weight its predecessors left; any other request leaves the weight and the record unchanged, so only the locked re-check refuses an excess |
| Views.ReplayNeverNegative | screening_test/seedtracker/seeds/views.py:139-145 | a weight that starts non-negative stays non-negative whatever the requests |
| Views.ReplayScenario | screening_test/seedtracker/seeds/views.py:139-145 | 100.00 g, then requests for 30.00, 75.00 and 70.00 g: the second is refused and the weight ends at 0.00 g |
| Views.ReplayRace | screening_test/seedtracker/seeds/views.py:136-145 | two requests that each fit but together exceed the weight: the first one served succeeds and the other is refused |
| Store.AppliedUnreferenced | screening_test/seedtracker/seeds/models.py:55-57 | a batch that the PROTECT check lets go (`Referenced`: some transaction still points at it) has nothing recorded against it, so deleting it loses no ledger entry |
| Store.UrlBatchMissing | screening_test/seedtracker/seeds/views.py:128-129 | the URL lookup answers 404 exactly for a non-zero pk that names no batch; no pk, a pk of 0 and a pk of an existing batch never do |
| Store.OutgoingAnswerAsWritten | screening_test/seedtracker/seeds/views.py:126-132 | as written, a missing URL batch is a 404, and a server error (`RelatedObjectDoesNotExist`) arises exactly when the batch is missing or not a choice and the quantity is positive and fits. The view goes on to the locked step iff the request is valid; every other invalid request re-renders the form with exactly the intended errors |
| Store.MissingBatchServerError | screening_test/seedtracker/seeds/views.py:130-132 | a POST with no batch, type charity and 1.00 g is answered with a server error as written |
| Store.InvalidTypeRerendersForm | screening_test/seedtracker/seeds/views.py:130-132 | with batch 1 listed, type "bogus" and 1.00 g, the view as written re-renders the form with the type's invalid-choice error alone, not a server error |
| Store.PhotosWithout | screening_test/seedtracker/seeds/models.py:35 | the cascade removes exactly that batch's photos, keeps every other photo with its multiplicity, and keeps ids increasing |
| Store.PhotosFor | screening_test/seedtracker/seeds/views.py:115-116 | one photo row per file, in file order, all for the batch, numbered consecutively |
| Store.UploadFormErrors | screening_test/seedtracker/seeds/forms.py:45-61 | the upload form finds no error iff the batch is listed, every file passes the single-file clean, the list is non-empty and every file is within 10 MiB. On rejection the batch field's errors are included, every other error is on images, and an empty list draws exactly the "select at least one image" error |
| Store.TablesAfterCreate | screening_test/seedtracker/seeds/views.py:70-76 | inserting a row under the counter's id with a free batch number keeps every table invariant |
| Store.TablesAfterUpdate | screening_test/seedtracker/seeds/views.py:83-90 | replacing a row's fields under its id, with a number no other row has, keeps every table invariant, with the ghost baseline rebased to the entered weight plus the quantities already recorded against the row, so that the weight is again the baseline less those quantities |
| Store.TablesAfterDelete | screening_test/seedtracker/seeds/views.py:97-100 | removing an unreferenced batch together with its photos keeps every table invariant |
| Store.TablesAfterOutgoing | screening_test/seedtracker/seeds/views.py:143-145 | appending a transaction numbered by the counter and taking its quantity off its batch keeps every invariant, including conservation |
| Store.TablesAfterPhoto | screening_test/seedtracker/seeds/views.py:116 | appending a photo numbered by the counter for an existing batch keeps every table invariant |
| Store.SeedStore.ValidNumbersUnique | screening_test/seedtracker/seeds/models.py:14 | in a valid store no two batches share a batch number |
| Store.SeedStore.constructor | screening_test/seedtracker/seeds/models.py:12-61 | an empty database is valid and its ids start at 1 |
| Store.SeedStore.CreateBatch | screening_test/seedtracker/seeds/views.py:68-79 | an invalid form changes nothing and answers with its errors. A valid one inserts exactly one row, under the next id, with the entered fields, redirects to it, and leaves everything else alone. Unless a negative weight was entered, every weight stays non-negative |
| Store.SeedStore.InsertBatch | screening_test/seedtracker/seeds/views.py:74 | the insert adds that row under a fresh id and advances the counter, keeping the store valid |
| Store.SeedStore.UpdateBatch | screening_test/seedtracker/seeds/views.py:81-93 | a missing row is a 404 and an invalid form changes nothing. A valid one replaces the row's four editable fields (id and creation time kept), redirects to it, and touches no other row. Unless a negative weight was entered, every weight stays non-negative |
| Store.SeedStore.ReplaceBatch | screening_test/seedtracker/seeds/views.py:88 | the update replaces that row alone and moves its ghost baseline by exactly the change of weight, which leaves it at the entered weight plus the quantities already recorded against the row; the store stays valid |
| Store.SeedStore.RemoveBatch | screening_test/seedtracker/seeds/views.py:100 | deleting an unreferenced row removes it and its photos and nothing else |
| Store.SeedStore.DeleteBatch | screening_test/seedtracker/seeds/views.py:95-103 | a missing row is a 404. A batch with transactions raises ProtectedError and nothing changes. Otherwise the row and exactly its photos go, everything else stays, and non-negative weights stay non-negative |
| Store.SeedStore.AddPhotos | screening_test/seedtracker/seeds/views.py:113-116 | the loop appends exactly one photo row per file, for the batch and in file order, and changes nothing else |
| Store.SeedStore.UploadPhotos | screening_test/seedtracker/seeds/views.py:107-121 | a rejected form changes nothing and answers with errors of the shape the form promises. An accepted one adds n photo rows for n files, all for the chosen batch, and redirects to it |
| Store.SeedStore.RecordOutgoing | screening_test/seedtracker/seeds/views.py:143-145 | form.save() and the decrement: exactly one transaction appended and its quantity taken off its batch alone |
| Store.SeedStore.ApplyOutgoing | screening_test/seedtracker/seeds/views.py:136-150 | it commits iff the locked step commits. A vanished row raises DoesNotExist and a quantity above the locked weight draws the form error; both change nothing. Otherwise exactly one transaction is recorded and only that batch's weight drops by exactly the quantity. Non-negative weights stay non-negative and conservation holds |
| Store.SeedStore.OutgoingCreate | screening_test/seedtracker/seeds/views.py:124-153 | with the defects at models.py:75 and views.py:145 corrected: a URL pk naming no batch is a 404, while a pk of 0 skips the lookup. An invalid form answers with is_valid()'s errors and changes nothing. A valid one records the transaction and takes its quantity off the batch |
| Decimal.FormatCentsRoundTrip | screening_test/seedtracker/seeds/views.py:169-187 | the two-decimal text of a weight or quantity reads back as exactly that value |
| Decimal.FormatCentsInjective | screening_test/seedtracker/seeds/views.py:169-187 | distinct values never print the same |
| Decimal.FormatCents | screening_test/seedtracker/seeds/views.py:169-187 | the text always ends in a point and two digits, and has a minus sign exactly for negative values |

## Left out

- The `select_for_update` row lock and `transaction.atomic`. Each handler is one sequential atomic method. Concurrent requests appear only as a serialised order of requests (`Views.Replay`), which is what the lock guarantees.
- HTTP handling, redirects, `messages`, template rendering and the GET branches of the views. These are web-framework glue, and answers are reduced to the `Store.Response` datatype.
- `seedbatch_detail` and `print_seed_tag_pdf`. They have no state change and no logic beyond a lookup, and the PDF is drawn by reportlab, a foreign library.
- The `csv.writer` byte output and `Content-Disposition` headers. The rows are modelled as records of their cell values, and dates and timestamps stay as numbers rather than ISO text.
- Authentication and the role checks of `permissions.py`, `setup_roles.py`, the admin and the URL routing. They are authorization, configuration and routing.
- Image storage and renaming by `ImageField`. A photo row keeps the uploaded file's name.
- The single-file clean of Django's `FileField` is a function parameter (`single`), since it is framework code.
- Whitespace stripping by `CharField`, Unicode case folding and PostgreSQL's `ILIKE`. The search uses SQLite's ASCII `LIKE` folding.
- Django's stock validation messages (required, invalid choice, too long, too many digits, duplicate) and the order of field errors are written as constants and an assumed order. Only the messages this app defines come from its own source.
- Store.SeedStore.OutgoingCreate: the ORM's `DoesNotExist` on a row deleted between validation and the lock cannot happen in a sequential model. It is covered by `ApplyOutgoing`'s contract only.
- Views.SortParam and Views.ExportOutgoingRows: the order among rows that tie under the ordering is left open, because the database decides it.
- Forms.OutgoingFormErrors: a quantity_grams that is not readable as a number is modelled like a blank one. It draws "This field is required." where Django says "Enter a number."; both reject the request and change nothing.
- Common.StrLt: batch numbers are compared by code point, which is SQLite's default `BINARY` collation. The collations of other databases are not modelled.

## Findings

| source | as written | input that shows it | evidently intended | confidence | as-written member | corrected member |
|---|---|---|---|---|---|---|
| screening_test/seedtracker/seeds/views.py:145 | `F("weight_grams") - qty` is used, but `F` is imported only in models.py, not in views.py. Every accepted outgoing request raises NameError inside the atomic block and rolls back, including the transaction just saved | a batch of 100.00 g and a request for 30.00 g | the transaction is recorded and the weight becomes 70.00 g | not executed | Views.LockedUpdateAsWritten (Views.DecrementFindingWitness, Views.AsWrittenNeverCommits) | Views.LockedUpdate (used by Store.SeedStore.ApplyOutgoing) |
| screening_test/seedtracker/seeds/views.py:43 | `models.Q(...)` is used, but `models` is not imported in views.py, so any non-empty `?q=` raises NameError | `?q=tom` with a batch named "Tomato" | the list keeps the batches whose name or number contains the text, ignoring case | not executed | Views.SearchAsWritten (Views.SearchFindingWitness) | Views.Search (used by Views.SeedBatchList) |
| screening_test/seedtracker/seeds/models.py:74-78 | `self.batch` is read whenever the quantity is positive. When the submitted batch is missing or not a choice, the form leaves the instance without a batch, so the read raises `RelatedObjectDoesNotExist`. Neither `is_valid()` nor `outgoing_create` catches it, and the answer is a server error | a POST with no batch, type charity and 1.00 g | the form comes back with "This field is required." on the batch | not executed | Models.TransactionCleanAsWritten (Forms.OutgoingValidationAsWritten, Store.OutgoingAnswerAsWritten, Forms.MissingBatchFindingWitness, Store.MissingBatchServerError) | Models.TransactionClean (used by Forms.OutgoingFormErrors and Store.SeedStore.OutgoingCreate) |
