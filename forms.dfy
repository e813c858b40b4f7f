/**
 * The seeds app's forms (seeds/forms.py): the outgoing transaction form's clean(),
 * the checks Django's is_valid() runs around it, the batch form, and the
 * multi-file photo upload field and form.
 */
module Forms {
  import opened Common
  import opened Models
  import Decimal

  const QuantityField := "quantity_grams"
  const MustBePositiveMessage := "Quantity must be positive."
  const ExceedsWeightMessage := "Quantity exceeds current batch weight."

  // Django's stock messages for the field-level checks of a ModelForm.
  const RequiredMessage := "This field is required."
  const InvalidBatchChoiceMessage := "Select a valid choice. That choice is not one of the available choices."
  const MaxDigitsMessage := "Ensure that there are no more than 12 digits in total."
  const DuplicateBatchNumberMessage := "Seed batch with this Batch number already exists."

  function InvalidTypeChoiceMessage(value: string): string
  {
    "Select a valid choice. " + value + " is not one of the available choices."
  }

  function TooLongMessage(limit: nat, length: nat): string
  {
    "Ensure this value has at most " + Decimal.NatToDigits(limit) + " characters (it has " + Decimal.NatToDigits(length) + ")."
  }

  // ---------------------------------------------------------------------------
  // OutgoingTransactionForm

  /**
   * The errors OutgoingTransactionForm.clean adds, in order, given the cleaned
   * quantity and batch. A zero quantity is falsy in Python and skips the weight check.
   */
  function FormCleanErrors(quantity: Option<Cents>, batch: Option<SeedBatch>): (errs: seq<FieldError>)
    ensures forall e :: e in errs ==> e.field == QuantityField
    ensures FieldError(QuantityField, MustBePositiveMessage) in errs <==> quantity.Some? && quantity.value <= 0
    ensures FieldError(QuantityField, ExceedsWeightMessage) in errs
      <==> batch.Some? && quantity.Some? && quantity.value != 0 && quantity.value > batch.value.weight
    ensures forall e :: e in errs ==> e.message in {MustBePositiveMessage, ExceedsWeightMessage}
    ensures |errs| == (if quantity.Some? && quantity.value <= 0 then 1 else 0)
                      + (if batch.Some? && quantity.Some? && quantity.value != 0 && quantity.value > batch.value.weight then 1 else 0)
  {
    (if quantity.Some? && quantity.value <= 0 then [FieldError(QuantityField, MustBePositiveMessage)] else [])
    + (if batch.Some? && quantity.Some? && quantity.value != 0 && quantity.value > batch.value.weight
       then [FieldError(QuantityField, ExceedsWeightMessage)] else [])
  }

  /** The form's clean and the model's clean accept exactly the same quantities for a selected batch. */
  lemma FormAndModelCleanAgree(quantity: Cents, batch: SeedBatch)
    ensures FormCleanErrors(Some(quantity), Some(batch)) == [] <==> TransactionClean(Some(quantity), Some(batch)).None?
    ensures FormCleanErrors(Some(quantity), Some(batch)) == [] <==> 0 < quantity <= batch.weight
  {
    if quantity <= 0 {
      assert FieldError(QuantityField, MustBePositiveMessage) in FormCleanErrors(Some(quantity), Some(batch));
    } else if quantity > batch.weight {
      assert FieldError(QuantityField, ExceedsWeightMessage) in FormCleanErrors(Some(quantity), Some(batch));
    }
  }

  /** Taking the whole remaining weight is accepted; one hundredth more draws the exceeds error only. */
  lemma FormCleanBoundary(batch: SeedBatch)
    requires batch.weight > 0
    ensures FormCleanErrors(Some(batch.weight), Some(batch)) == []
    ensures FormCleanErrors(Some(batch.weight + 1), Some(batch)) == [FieldError(QuantityField, ExceedsWeightMessage)]
  {
  }

  /** The form's cleaned_data (absent entries are fields that did not validate). */
  datatype CleanedData = CleanedData(
    batch: Option<SeedBatch>,
    kind: Option<TxType>,
    quantity: Option<Cents>,
    notes: Option<string>)

  /** cleaned_data with one field's entry removed. */
  function WithoutField(data: CleanedData, field: string): (r: CleanedData)
    ensures field == QuantityField ==> r == data.(quantity := None)
    ensures field !in {"batch", "type", QuantityField, "notes"} ==> r == data
  {
    if field == "batch" then data.(batch := None)
    else if field == "type" then data.(kind := None)
    else if field == QuantityField then data.(quantity := None)
    else if field == "notes" then data.(notes := None)
    else data
  }

  /** An OutgoingTransactionForm after field validation: its cleaned_data and its error list. */
  class OutgoingTransactionForm {
    var cleanedData: CleanedData
    var errors: seq<FieldError>

    constructor (cleaned: CleanedData)
      ensures cleanedData == cleaned && errors == []
    {
      cleanedData := cleaned;
      errors := [];
    }

    /** Form.add_error: records the error and drops the field from cleaned_data. */
    method AddError(field: string, message: string)
      modifies this
      ensures errors == old(errors) + [FieldError(field, message)]
      ensures cleanedData == WithoutField(old(cleanedData), field)
    {
      errors := errors + [FieldError(field, message)];
      cleanedData := WithoutField(cleanedData, field);
    }

    /**
     * OutgoingTransactionForm.clean. It returns the cleaned_data dictionary itself,
     * so an added error also removes the quantity from what it returns.
     */
    method Clean() returns (cleaned: CleanedData)
      modifies this
      ensures errors == old(errors) + FormCleanErrors(old(cleanedData).quantity, old(cleanedData).batch)
      ensures cleanedData == (if FormCleanErrors(old(cleanedData).quantity, old(cleanedData).batch) == []
                              then old(cleanedData) else old(cleanedData).(quantity := None))
      ensures cleaned == cleanedData
    {
      var quantity := cleanedData.quantity;
      var batch := cleanedData.batch;
      if quantity.Some? && quantity.value <= 0 {
        AddError(QuantityField, MustBePositiveMessage);
      }
      if batch.Some? && quantity.Some? && quantity.value != 0 && quantity.value > batch.value.weight {
        AddError(QuantityField, ExceedsWeightMessage);
      }
      cleaned := cleanedData;
    }
  }

  function BatchFieldErrors(choices: map<BatchId, SeedBatch>, batchId: Option<BatchId>): seq<FieldError>
  {
    match batchId
    case None => [FieldError("batch", RequiredMessage)]
    case Some(id) => if id in choices then [] else [FieldError("batch", InvalidBatchChoiceMessage)]
  }

  function TypeFieldErrors(typeValue: string): seq<FieldError>
  {
    if typeValue == "" then [FieldError("type", RequiredMessage)]
    else if ParseType(typeValue).None? then [FieldError("type", InvalidTypeChoiceMessage(typeValue))]
    else []
  }

  function QuantityFieldErrors(quantity: Option<Cents>): seq<FieldError>
  {
    match quantity
    case None => [FieldError(QuantityField, RequiredMessage)]
    case Some(q) => if FitsDecimalField(q) then [] else [FieldError(QuantityField, MaxDigitsMessage)]
  }

  /** What a valid outgoing request is: a listed batch, one of the four types, a positive quantity within the batch's weight. */
  predicate OutgoingRequestValid(choices: map<BatchId, SeedBatch>, batchId: Option<BatchId>, typeValue: string, quantity: Option<Cents>)
  {
    && batchId.Some? && batchId.value in choices
    && ParseType(typeValue).Some?
    && quantity.Some? && FitsDecimalField(quantity.value)
    && 0 < quantity.value <= choices[batchId.value].weight
  }

  /**
   * The errors OutgoingTransactionForm.is_valid() collects: field validation, then
   * the form's clean, then the model's clean on what is left of cleaned_data.
   */
  function OutgoingFormErrors(choices: map<BatchId, SeedBatch>, batchId: Option<BatchId>, typeValue: string, quantity: Option<Cents>): (errs: seq<FieldError>)
    ensures errs == [] <==> OutgoingRequestValid(choices, batchId, typeValue, quantity)
  {
    var batch := if batchId.Some? && batchId.value in choices then Some(choices[batchId.value]) else None;
    var cleanedQuantity := if quantity.Some? && FitsDecimalField(quantity.value) then quantity else None;
    var fieldErrors := BatchFieldErrors(choices, batchId) + TypeFieldErrors(typeValue) + QuantityFieldErrors(quantity);
    var formErrors := FormCleanErrors(cleanedQuantity, batch);
    var modelQuantity := if formErrors == [] then cleanedQuantity else None;
    var modelErrors := match TransactionClean(modelQuantity, batch) case None => [] case Some(e) => [e];
    fieldErrors + formErrors + modelErrors
  }

  /**
   * is_valid() as written: the same three stages, except that the model's clean
   * raises when it reaches the weight check on an instance without a batch. Err is
   * the name of the exception that escapes is_valid().
   */
  function OutgoingValidationAsWritten(choices: map<BatchId, SeedBatch>, batchId: Option<BatchId>, typeValue: string, quantity: Option<Cents>): (r: Result<seq<FieldError>, string>)
    ensures r.Err? <==> (batchId.None? || batchId.value !in choices) && quantity.Some? && FitsDecimalField(quantity.value) && quantity.value > 0
    ensures r.Err? ==> r.error == RelatedObjectDoesNotExistName
    ensures r.Ok? ==> r.value == OutgoingFormErrors(choices, batchId, typeValue, quantity)
  {
    var batch := if batchId.Some? && batchId.value in choices then Some(choices[batchId.value]) else None;
    var cleanedQuantity := if quantity.Some? && FitsDecimalField(quantity.value) then quantity else None;
    var fieldErrors := BatchFieldErrors(choices, batchId) + TypeFieldErrors(typeValue) + QuantityFieldErrors(quantity);
    var formErrors := FormCleanErrors(cleanedQuantity, batch);
    var modelQuantity := if formErrors == [] then cleanedQuantity else None;
    match TransactionCleanAsWritten(modelQuantity, batch)
    case Err(e) => Err(e)
    case Ok(modelError) => Ok(fieldErrors + formErrors + (match modelError case None => [] case Some(e) => [e]))
  }

  /**
   * A request with no batch and one gram: as written is_valid() raises; as
   * intended the form comes back with the batch field's required error.
   */
  lemma MissingBatchFindingWitness()
    ensures OutgoingValidationAsWritten(map[], None, "charity", Some(100)) == Err(RelatedObjectDoesNotExistName)
    ensures OutgoingFormErrors(map[], None, "charity", Some(100)) == [FieldError("batch", RequiredMessage)]
  {
    assert FormCleanErrors(Some(100), None) == [];
  }

  // ---------------------------------------------------------------------------
  // SeedBatchForm

  /** No other row holds this batch number (the row being edited may). */
  predicate BatchNumberFree(batches: map<BatchId, SeedBatch>, editing: Option<BatchId>, batchNumber: string)
  {
    forall id :: id in batches && batches[id].batchNumber == batchNumber ==> editing == Some(id)
  }

  /**
   * A value as the form field receives it: left blank, present but not readable as
   * the field's type (Django's to_python fails), or read as a value.
   */
  datatype Submitted<T> = Blank | Unreadable | Entered(value: T)

  const InvalidNumberMessage := "Enter a number."
  const InvalidDateMessage := "Enter a valid date."

  /** DecimalField(max_digits=12, decimal_places=2): required, a number, within the digit limit. */
  function WeightFieldErrors(weight: Submitted<Cents>): seq<FieldError>
  {
    match weight
    case Blank => [FieldError("weight_grams", RequiredMessage)]
    case Unreadable => [FieldError("weight_grams", InvalidNumberMessage)]
    case Entered(w) => if FitsDecimalField(w) then [] else [FieldError("weight_grams", MaxDigitsMessage)]
  }

  /** DateField: required and a readable date. */
  function SellByFieldErrors(sellBy: Submitted<Date>): seq<FieldError>
  {
    match sellBy
    case Blank => [FieldError("sell_by_date", RequiredMessage)]
    case Unreadable => [FieldError("sell_by_date", InvalidDateMessage)]
    case Entered(_) => []
  }

  predicate BatchFormValid(batches: map<BatchId, SeedBatch>, editing: Option<BatchId>, seedName: string, batchNumber: string,
                           weight: Submitted<Cents>, sellBy: Submitted<Date>)
  {
    && seedName != "" && |seedName| <= SeedNameMaxLength
    && batchNumber != "" && |batchNumber| <= BatchNumberMaxLength
    && BatchNumberFree(batches, editing, batchNumber)
    && weight.Entered? && FitsDecimalField(weight.value)
    && sellBy.Entered?
  }

  /**
   * SeedBatchForm.is_valid(): all four fields are required; max_length on the two
   * names, a readable number within the digit limit for the weight, a readable
   * date, and the uniqueness of the batch number. No lower bound on the weight is
   * checked.
   */
  function BatchFormErrors(batches: map<BatchId, SeedBatch>, editing: Option<BatchId>, seedName: string, batchNumber: string,
                           weight: Submitted<Cents>, sellBy: Submitted<Date>): (errs: seq<FieldError>)
    ensures errs == [] <==> BatchFormValid(batches, editing, seedName, batchNumber, weight, sellBy)
    ensures !BatchNumberFree(batches, editing, batchNumber) && batchNumber != "" && |batchNumber| <= BatchNumberMaxLength
      ==> FieldError("batch_number", DuplicateBatchNumberMessage) in errs
    ensures weight.Blank? ==> FieldError("weight_grams", RequiredMessage) in errs
    ensures weight.Unreadable? ==> FieldError("weight_grams", InvalidNumberMessage) in errs
    ensures sellBy.Blank? ==> FieldError("sell_by_date", RequiredMessage) in errs
    ensures sellBy.Unreadable? ==> FieldError("sell_by_date", InvalidDateMessage) in errs
  {
    var nameErrors :=
      if seedName == "" then [FieldError("seed_name", RequiredMessage)]
      else if |seedName| > SeedNameMaxLength then [FieldError("seed_name", TooLongMessage(SeedNameMaxLength, |seedName|))]
      else [];
    var numberErrors :=
      if batchNumber == "" then [FieldError("batch_number", RequiredMessage)]
      else if |batchNumber| > BatchNumberMaxLength then [FieldError("batch_number", TooLongMessage(BatchNumberMaxLength, |batchNumber|))]
      else if !BatchNumberFree(batches, editing, batchNumber) then [FieldError("batch_number", DuplicateBatchNumberMessage)]
      else [];
    nameErrors + numberErrors + WeightFieldErrors(weight) + SellByFieldErrors(sellBy)
  }

  /** Any weight that fits the field passes, however far below zero. */
  lemma NegativeWeightAccepted(batches: map<BatchId, SeedBatch>, seedName: string, batchNumber: string, weight: Cents, sellBy: Date)
    requires seedName != "" && |seedName| <= SeedNameMaxLength
    requires batchNumber != "" && |batchNumber| <= BatchNumberMaxLength
    requires BatchNumberFree(batches, None, batchNumber)
    requires -1_000_000_000_000 < weight < 0
    ensures BatchFormErrors(batches, None, seedName, batchNumber, Entered(weight), Entered(sellBy)) == []
  {
  }

  const MinWeightMessage := "Ensure this value is greater than or equal to 0."

  /** A weight that was read as a number below zero. */
  predicate NegativeEntry(weight: Submitted<Cents>)
  {
    weight.Entered? && weight.value < 0
  }

  /**
   * SeedBatchForm with the lower bound the ledger relies on (`MinValueValidator(0)`
   * on weight_grams): the stock errors, then a weight error for a negative weight.
   */
  function GuardedBatchFormErrors(batches: map<BatchId, SeedBatch>, editing: Option<BatchId>, seedName: string, batchNumber: string,
                                  weight: Submitted<Cents>, sellBy: Submitted<Date>): (errs: seq<FieldError>)
    ensures errs == [] <==> BatchFormValid(batches, editing, seedName, batchNumber, weight, sellBy) && weight.value >= 0
    ensures NegativeEntry(weight) ==> FieldError("weight_grams", MinWeightMessage) in errs
  {
    BatchFormErrors(batches, editing, seedName, batchNumber, weight, sellBy)
      + (if NegativeEntry(weight) then [FieldError("weight_grams", MinWeightMessage)] else [])
  }

  /**
   * The guarded form differs from the code's only on negative weights: it agrees with
   * SeedBatchForm on every other input, and every weight it lets through is one the
   * create and update handlers keep non-negative.
   */
  lemma GuardedFormAgrees(batches: map<BatchId, SeedBatch>, editing: Option<BatchId>, seedName: string, batchNumber: string,
                          weight: Submitted<Cents>, sellBy: Submitted<Date>)
    ensures !NegativeEntry(weight) ==>
              GuardedBatchFormErrors(batches, editing, seedName, batchNumber, weight, sellBy) == BatchFormErrors(batches, editing, seedName, batchNumber, weight, sellBy)
    ensures GuardedBatchFormErrors(batches, editing, seedName, batchNumber, weight, sellBy) == [] ==> weight.Entered? && weight.value >= 0
    ensures NegativeEntry(weight) && BatchFormValid(batches, editing, seedName, batchNumber, weight, sellBy) ==>
              BatchFormErrors(batches, editing, seedName, batchNumber, weight, sellBy) == [] &&
              GuardedBatchFormErrors(batches, editing, seedName, batchNumber, weight, sellBy) == [FieldError("weight_grams", MinWeightMessage)]
  {
  }

  // ---------------------------------------------------------------------------
  // Photo upload

  /** An uploaded file: its name and its size in bytes. */
  datatype UploadedFile = UploadedFile(name: string, size: nat)

  const MaxImageBytes: nat := 10 * 1024 * 1024
  const NoImagesMessage := "Please select at least one image."
  const TooLargeSuffix := ": File too large (max 10MB)."

  predicate WithinSizeLimit(f: UploadedFile)
  {
    f.size <= MaxImageBytes
  }

  /** files[i] is the first file over the size limit. */
  predicate FirstOversized(files: seq<UploadedFile>, i: nat)
  {
    i < |files| && !WithinSizeLimit(files[i]) && forall j :: 0 <= j < i ==> WithinSizeLimit(files[j])
  }

  /**
   * BatchPhotoMultiUploadForm.clean_images: rejects an empty list, then the first
   * file over 10 MiB (naming it); otherwise returns the list as given.
   */
  method CleanImages(files: seq<UploadedFile>) returns (r: Result<seq<UploadedFile>, string>)
    ensures r.Ok? <==> files != [] && forall i :: 0 <= i < |files| ==> WithinSizeLimit(files[i])
    ensures r.Ok? ==> r.value == files
    ensures files == [] ==> r == Err(NoImagesMessage)
    ensures r.Err? && files != [] ==> exists i: nat :: FirstOversized(files, i) && r.error == files[i].name + TooLargeSuffix
  {
    if files == [] {
      return Err(NoImagesMessage);
    }
    for i := 0 to |files|
      invariant forall j :: 0 <= j < i ==> WithinSizeLimit(files[j])
    {
      if files[i].size > MaxImageBytes {
        assert FirstOversized(files, i);
        return Err(files[i].name + TooLargeSuffix);
      }
    }
    return Ok(files);
  }

  /** What reaches MultipleFileField.clean: one file, or the list a multi-select widget gives. */
  datatype UploadData<F> = SingleFile(file: F) | FileList(files: seq<F>)

  /**
   * The list comprehension of MultipleFileField.clean: the single-file clean on each
   * element in order; the first error raised propagates.
   */
  function CleanEach<F, G, E>(files: seq<F>, single: F -> Result<G, E>): (r: Result<seq<G>, E>)
    ensures r.Ok? <==> forall i :: 0 <= i < |files| ==> single(files[i]).Ok?
    ensures r.Ok? ==> |r.value| == |files| && forall i :: 0 <= i < |files| ==> single(files[i]) == Ok(r.value[i])
    ensures r.Err? ==> exists i :: 0 <= i < |files| && single(files[i]) == Err(r.error)
                                   && forall j :: 0 <= j < i ==> single(files[j]).Ok?
  {
    if files == [] then Ok([])
    else
      match single(files[0])
      case Err(e) => Err(e)
      case Ok(g) =>
        match CleanEach(files[1..], single)
        case Err(e) =>
          ghost var i :| 0 <= i < |files[1..]| && single(files[1..][i]) == Err(e)
                         && forall j :: 0 <= j < i ==> single(files[1..][j]).Ok?;
          assert single(files[i + 1]) == Err(e);
          assert forall j :: 0 <= j < i + 1 ==> single(files[j]).Ok? by {
            forall j | 0 <= j < i + 1 ensures single(files[j]).Ok? {
              if j > 0 { assert files[j] == files[1..][j - 1]; }
            }
          }
          Err(e)
        case Ok(gs) => Ok([g] + gs)
  }

  /** MultipleFileField.clean: a list is cleaned element by element into a list of the same length; a single file on its own. */
  function MultipleFileClean<F, G, E>(data: UploadData<F>, single: F -> Result<G, E>): (r: Result<UploadData<G>, E>)
    ensures data.FileList? && r.Ok? ==>
              && r.value.FileList? && |r.value.files| == |data.files|
              && forall i :: 0 <= i < |data.files| ==> single(data.files[i]) == Ok(r.value.files[i])
    ensures data.FileList? ==> (r.Ok? <==> forall i :: 0 <= i < |data.files| ==> single(data.files[i]).Ok?)
    ensures data.SingleFile? ==> r == match single(data.file) case Ok(g) => Ok(SingleFile(g)) case Err(e) => Err(e)
  {
    match data
    case SingleFile(f) =>
      (match single(f) case Ok(g) => Ok(SingleFile(g)) case Err(e) => Err(e))
    case FileList(fs) =>
      (match CleanEach(fs, single) case Ok(gs) => Ok(FileList(gs)) case Err(e) => Err(e))
  }

  /** An empty list passes the field (nothing to clean); clean_images is what rejects it. */
  lemma EmptyListPassesField<F, G, E>(single: F -> Result<G, E>)
    ensures MultipleFileClean(FileList([]), single) == Ok(FileList([]))
  {
  }
}
