/**
 * The seeds app's data model (seeds/models.py): the three tables' records, the
 * recommendation property, the outgoing transaction's model-level clean(), the
 * uniqueness of batch numbers and the two default orderings.
 */
module Models {
  import opened Common
  import opened Query

  type BatchId = nat

  /** settings.RECOMMEND_WINDOW_DAYS when configured, else 30. */
  const DefaultRecommendWindowDays: int := 30

  function RecommendWindowDays(configured: Option<int>): (w: int)
    ensures configured.None? ==> w == 30
    ensures configured.Some? ==> w == configured.value
  {
    match configured
    case Some(days) => days
    case None => DefaultRecommendWindowDays
  }

  /** Without a configured window, a batch is flagged up to 30 days ahead of its sell-by date, and not 31. */
  lemma DefaultWindowThirtyDays(today: Date)
    ensures RecommendedToProcess(Some(today + 30), today, RecommendWindowDays(None))
    ensures !RecommendedToProcess(Some(today + 31), today, RecommendWindowDays(None))
  {
  }

  /** DecimalField(max_digits=12, decimal_places=2): at most ten digits before the point. */
  predicate FitsDecimalField(c: Cents)
    ensures FitsDecimalField(c) <==> (if c < 0 then -c else c) / 100 <= 9_999_999_999
  {
    -1_000_000_000_000 < c < 1_000_000_000_000
  }

  const SeedNameMaxLength: nat := 200
  const BatchNumberMaxLength: nat := 100

  /** A SeedBatch row; created_at is an opaque timestamp. */
  datatype SeedBatch = SeedBatch(
    id: BatchId,
    seedName: string,
    batchNumber: string,
    weight: Cents,
    sellBy: Date,
    createdAt: int)

  /** The four choices of OutgoingTransaction.type. */
  datatype TxType = Charity | PrinterError | MachineError | Disposal

  /** An OutgoingTransaction row; batch is a PROTECT foreign key, date is the creation day. */
  datatype OutgoingTransaction = OutgoingTransaction(
    id: nat,
    batch: BatchId,
    kind: TxType,
    quantity: Cents,
    notes: string,
    date: Date)

  /** A BatchPhoto row; batch is a CASCADE foreign key, image is the uploaded file's name. */
  datatype BatchPhoto = BatchPhoto(id: nat, batch: BatchId, image: string, uploadedAt: int)

  /** The value stored in the type column. */
  function TypeValue(t: TxType): string
  {
    match t
    case Charity => "charity"
    case PrinterError => "printer_error"
    case MachineError => "machine_error"
    case Disposal => "disposal"
  }

  /** Reads a submitted type value: only the four stored values name a choice. */
  function ParseType(s: string): (r: Option<TxType>)
    ensures r.Some? ==> TypeValue(r.value) == s
    ensures r.None? ==> forall t: TxType :: TypeValue(t) != s
  {
    if s == "charity" then Some(Charity)
    else if s == "printer_error" then Some(PrinterError)
    else if s == "machine_error" then Some(MachineError)
    else if s == "disposal" then Some(Disposal)
    else None
  }

  lemma TypeRoundTrip(t: TxType)
    ensures ParseType(TypeValue(t)) == Some(t)
  {
  }

  /** A transaction's type is exactly one of four stored values. */
  lemma ExactlyFourTypes(s: string)
    ensures ParseType(s).Some? <==> s in {"charity", "printer_error", "machine_error", "disposal"}
  {
  }

  /**
   * SeedBatch.recommended_to_process with today and the window passed in: a batch
   * is flagged when it has a sell-by date no later than today + window days.
   */
  predicate RecommendedToProcess(sellBy: Option<Date>, today: Date, window: int)
    ensures RecommendedToProcess(sellBy, today, window) ==> sellBy.Some?
    ensures sellBy.Some? && sellBy.value <= today && window >= 0 ==> RecommendedToProcess(sellBy, today, window)
  {
    sellBy.Some? && sellBy.value <= today + window
  }

  /** The cutoff is inclusive: a batch due exactly at the window's end is flagged, one day later is not. */
  lemma RecommendedBoundary(today: Date, window: int)
    ensures RecommendedToProcess(Some(today + window), today, window)
    ensures !RecommendedToProcess(Some(today + window + 1), today, window)
    ensures !RecommendedToProcess(None, today, window)
  {
  }

  /** An earlier sell-by date is flagged whenever a later one is. */
  lemma RecommendedMonotone(earlier: Date, later: Date, today: Date, window: int)
    requires earlier <= later
    ensures RecommendedToProcess(Some(later), today, window) ==> RecommendedToProcess(Some(earlier), today, window)
  {
  }

  const PositiveAmountMessage := "Quantity must be a positive amount in grams."
  const WouldGoNegativeMessage := "Quantity exceeds current batch weight. This would make inventory negative."

  /**
   * OutgoingTransaction.clean as intended: the first ValidationError raised, or None.
   * A missing batch skips the weight check, as the guard `self.batch and ...` means to.
   */
  function TransactionClean(quantity: Option<Cents>, batch: Option<SeedBatch>): (r: Option<FieldError>)
    ensures r.None? <==> quantity.Some? && quantity.value > 0 && (batch.Some? ==> quantity.value <= batch.value.weight)
    ensures r.Some? ==> r.value.field == "quantity_grams"
    ensures (quantity.None? || quantity.value <= 0) ==> r == Some(FieldError("quantity_grams", PositiveAmountMessage))
    ensures quantity.Some? && quantity.value > 0 && batch.Some? && quantity.value > batch.value.weight
      ==> r == Some(FieldError("quantity_grams", WouldGoNegativeMessage))
  {
    if quantity.None? || quantity.value <= 0 then
      Some(FieldError("quantity_grams", PositiveAmountMessage))
    else if batch.Some? && quantity.value > batch.value.weight then
      Some(FieldError("quantity_grams", WouldGoNegativeMessage))
    else
      None
  }

  /** The exception Django raises when a required foreign key that was never set is read. */
  const RelatedObjectDoesNotExistName := "RelatedObjectDoesNotExist"

  /**
   * OutgoingTransaction.clean as written: once the quantity is positive it reads
   * self.batch, and on an instance whose batch was never set (the form's batch
   * failed validation) that read raises instead of skipping the weight check.
   * Err carries the name of the exception that escapes.
   */
  function TransactionCleanAsWritten(quantity: Option<Cents>, batch: Option<SeedBatch>): (r: Result<Option<FieldError>, string>)
    ensures r.Err? <==> quantity.Some? && quantity.value > 0 && batch.None?
    ensures r.Err? ==> r.error == RelatedObjectDoesNotExistName
    ensures r.Ok? ==> r.value == TransactionClean(quantity, batch)
  {
    if quantity.None? || quantity.value <= 0 then
      Ok(Some(FieldError("quantity_grams", PositiveAmountMessage)))
    else if batch.None? then
      Err(RelatedObjectDoesNotExistName)
    else if quantity.value > batch.value.weight then
      Ok(Some(FieldError("quantity_grams", WouldGoNegativeMessage)))
    else
      Ok(None)
  }

  /** A positive quantity with no batch: the code raises where the guard meant to skip. */
  lemma MissingBatchRaises(q: Cents)
    requires q > 0
    ensures TransactionCleanAsWritten(Some(q), None) == Err(RelatedObjectDoesNotExistName)
    ensures TransactionClean(Some(q), None) == None
  {
  }

  /** clean() accepts taking exactly the whole remaining weight, and rejects one hundredth more. */
  lemma TransactionCleanBoundary(b: SeedBatch)
    requires b.weight > 0
    ensures TransactionClean(Some(b.weight), Some(b)).None?
    ensures TransactionClean(Some(b.weight + 1), Some(b)).Some?
  {
  }

  /**
   * batch_number is unique=True: no two rows of the table share one, which is
   * exactly when a lookup from batch number to row can be built.
   */
  ghost predicate UniqueBatchNumbers(batches: map<BatchId, SeedBatch>)
  {
    forall a, b :: a in batches && b in batches && batches[a].batchNumber == batches[b].batchNumber ==> a == b
  }

  /** Batch numbers are unique exactly when a lookup from batch number to row exists, as the unique index provides. */
  lemma UniqueBatchNumbersIndexed(batches: map<BatchId, SeedBatch>)
    ensures UniqueBatchNumbers(batches) <==> exists index :: NumberIndexOf(batches, index)
  {
    if UniqueBatchNumbers(batches) {
      var index := map id | id in batches :: batches[id].batchNumber := id;
      assert NumberIndexOf(batches, index);
    }
  }

  /** index maps the batch number of every row to that row's id. */
  ghost predicate NumberIndexOf(batches: map<BatchId, SeedBatch>, index: map<string, BatchId>)
  {
    forall id :: id in batches ==> batches[id].batchNumber in index && index[batches[id].batchNumber] == id
  }

  /** Meta.ordering of SeedBatch: sell_by_date, then batch_number, ascending. */
  predicate BatchOrderLe(a: SeedBatch, b: SeedBatch)
  {
    a.sellBy < b.sellBy || (a.sellBy == b.sellBy && !StrLt(b.batchNumber, a.batchNumber))
  }

  /** Meta.ordering of OutgoingTransaction: date descending, then id descending. */
  predicate TxDefaultLe(a: OutgoingTransaction, b: OutgoingTransaction)
  {
    a.date > b.date || (a.date == b.date && a.id >= b.id)
  }

  /** The batch ordering compares every pair and is transitive, so order_by can use it. */
  lemma BatchOrderTotal()
    ensures TotalPreorder(BatchOrderLe)
  {
    forall a, b ensures BatchOrderLe(a, b) || BatchOrderLe(b, a) {
      if StrLt(a.batchNumber, b.batchNumber) { StrLtAsymmetric(a.batchNumber, b.batchNumber); }
    }
    forall a, b, c | BatchOrderLe(a, b) && BatchOrderLe(b, c) ensures BatchOrderLe(a, c) {
      if a.sellBy == b.sellBy == c.sellBy && StrLt(c.batchNumber, a.batchNumber) {
        if a.batchNumber == b.batchNumber {
          StrLtIrreflexive(a.batchNumber);
        } else if b.batchNumber == c.batchNumber {
          StrLtIrreflexive(a.batchNumber);
        } else {
          StrLtTotal(a.batchNumber, b.batchNumber);
          StrLtTotal(b.batchNumber, c.batchNumber);
          StrLtTransitive(c.batchNumber, a.batchNumber, b.batchNumber);
        }
      }
    }
  }

  /** Two batches tie under the ordering only when they share sell-by date and batch number. */
  lemma BatchOrderTies(a: SeedBatch, b: SeedBatch)
    requires BatchOrderLe(a, b) && BatchOrderLe(b, a)
    ensures a.sellBy == b.sellBy && a.batchNumber == b.batchNumber
  {
    if a.batchNumber != b.batchNumber {
      StrLtTotal(a.batchNumber, b.batchNumber);
    }
  }

  lemma TxDefaultOrderTotal()
    ensures TotalPreorder(TxDefaultLe)
  {
  }
}
