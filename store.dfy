/**
 * The seeds app's database tables and the view handlers that change them
 * (seeds/views.py): batch create/update/delete, photo upload and the outgoing
 * transaction ledger. Each handler is one sequential, atomic step on the store.
 */
module Store {
  import opened Common
  import opened Models
  import opened Query
  import opened Forms
  import Views

  /** What a handler answers, without the HTTP details. */
  datatype Response =
    | ToDetail(batch: BatchId)               // redirect to the batch's detail page
    | ToList                                 // redirect to the batch list
    | FormWithErrors(errors: seq<FieldError>) // the form rendered again with its errors
    | NotFound                               // get_object_or_404 found no row
    | ServerError(exception: string)         // an exception the view does not catch

  const DoesNotExistName := "SeedBatch.DoesNotExist"
  const ProtectedErrorName := "ProtectedError"
  const ImagesField := "images"

  predicate PhotoIdLt(a: BatchPhoto, b: BatchPhoto)
  {
    a.id < b.id
  }

  /** Autoincrement ids increase along the transaction table. */
  ghost predicate TxIdsIncreasing(txs: seq<OutgoingTransaction>)
  {
    forall i, j :: 0 <= i < j < |txs| ==> txs[i].id < txs[j].id
  }

  /** Autoincrement ids increase along the photo table. */
  ghost predicate PhotoIdsIncreasing(photos: seq<BatchPhoto>)
  {
    forall i, j :: 0 <= i < j < |photos| ==> photos[i].id < photos[j].id
  }

  /** The total quantity the transactions record against one batch. */
  function Applied(txs: seq<OutgoingTransaction>, id: BatchId): Cents
    decreases |txs|
  {
    if txs == [] then 0
    else Applied(txs[..|txs| - 1], id) + (if txs[|txs| - 1].batch == id then txs[|txs| - 1].quantity else 0)
  }

  lemma AppliedAppend(txs: seq<OutgoingTransaction>, t: OutgoingTransaction, id: BatchId)
    ensures Applied(txs + [t], id) == Applied(txs, id) + (if t.batch == id then t.quantity else 0)
  {
    assert (txs + [t])[..|txs|] == txs;
  }

  /** Some outgoing transaction still points at the batch: what its PROTECT foreign key checks. */
  predicate Referenced(txs: seq<OutgoingTransaction>, id: BatchId)
  {
    exists i :: 0 <= i < |txs| && txs[i].batch == id
  }

  /** A batch the PROTECT check lets go has nothing applied against it. */
  lemma {:induction false} AppliedUnreferenced(txs: seq<OutgoingTransaction>, id: BatchId)
    requires !Referenced(txs, id)
    ensures Applied(txs, id) == 0
    decreases |txs|
  {
    if txs != [] {
      var prefix := txs[..|txs| - 1];
      forall i | 0 <= i < |prefix|
        ensures prefix[i].batch != id
      {
        assert prefix[i] == txs[i];
      }
      AppliedUnreferenced(prefix, id);
    }
  }

  /** The CASCADE of a batch's deletion on the photo table: its photos go, every other row stays, in order. */
  function PhotosWithout(photos: seq<BatchPhoto>, id: BatchId): (r: seq<BatchPhoto>)
    ensures forall p :: multiset(r)[p] == if p.batch == id then 0 else multiset(photos)[p]
    ensures forall i :: 0 <= i < |r| ==> r[i].batch != id
    ensures PhotoIdsIncreasing(photos) ==> PhotoIdsIncreasing(r)
  {
    var keep := (p: BatchPhoto) => p.batch != id;
    assert PhotoIdsIncreasing(photos) ==> PhotoIdsIncreasing(Filter(photos, keep)) by {
      if PhotoIdsIncreasing(photos) {
        assert SortedBy(photos, PhotoIdLt);
        FilterKeepsOrder(photos, keep, PhotoIdLt);
      }
    }
    Filter(photos, keep)
  }

  /** The rows BatchPhoto.objects.create adds for the files, numbered from firstId. */
  function PhotosFor(batch: BatchId, files: seq<UploadedFile>, firstId: nat, uploadedAt: int): (r: seq<BatchPhoto>)
    ensures |r| == |files|
    ensures forall k :: 0 <= k < |r| ==> r[k] == BatchPhoto(firstId + k, batch, files[k].name, uploadedAt)
  {
    seq(|files|, k requires 0 <= k < |files| => BatchPhoto(firstId + k, batch, files[k].name, uploadedAt))
  }

  /** The files pass the images field and clean_images. */
  predicate ImagesValid(files: seq<UploadedFile>, single: UploadedFile -> Result<UploadedFile, string>)
  {
    && (forall i :: 0 <= i < |files| ==> single(files[i]).Ok?)
    && files != []
    && (forall i :: 0 <= i < |files| ==> WithinSizeLimit(files[i]))
  }

  /** BatchPhotoMultiUploadForm.is_valid(): a listed batch and acceptable images. */
  predicate UploadRequestValid(choices: map<BatchId, SeedBatch>, batchId: Option<BatchId>,
                               files: seq<UploadedFile>, single: UploadedFile -> Result<UploadedFile, string>)
  {
    batchId.Some? && batchId.value in choices && ImagesValid(files, single)
  }

  /**
   * outgoing_create's `if batch_pk:` lookup answers 404: a pk in the URL that names
   * no batch. A pk of 0 is falsy in Python and skips the lookup.
   */
  predicate UrlBatchMissing(batches: map<BatchId, SeedBatch>, urlBatch: Option<nat>)
    ensures UrlBatchMissing(batches, urlBatch) ==> urlBatch.Some? && urlBatch.value !in batches
    ensures urlBatch == None || urlBatch == Some(0) ==> !UrlBatchMissing(batches, urlBatch)
    ensures urlBatch.Some? && urlBatch.value in batches ==> !UrlBatchMissing(batches, urlBatch)
    ensures urlBatch.Some? && urlBatch.value != 0 && urlBatch.value !in batches ==> UrlBatchMissing(batches, urlBatch)
  {
    urlBatch.Some? && urlBatch.value != 0 && urlBatch.value !in batches
  }

  /**
   * What outgoing_create answers as written before it locks the batch, or None
   * when it goes on to the locked step: the exception is_valid() raises on a
   * request without a valid batch escapes the view as a server error.
   */
  function OutgoingAnswerAsWritten(batches: map<BatchId, SeedBatch>, urlBatch: Option<nat>, batchId: Option<BatchId>,
                                   typeValue: string, quantity: Option<Cents>): (r: Option<Response>)
    ensures UrlBatchMissing(batches, urlBatch) ==> r == Some(NotFound)
    ensures !UrlBatchMissing(batches, urlBatch) && (batchId.None? || batchId.value !in batches)
            && quantity.Some? && FitsDecimalField(quantity.value) && quantity.value > 0
            ==> r == Some(ServerError(RelatedObjectDoesNotExistName))
    ensures r.None? <==> !UrlBatchMissing(batches, urlBatch) && OutgoingRequestValid(batches, batchId, typeValue, quantity)
    ensures r.Some? && r.value.FormWithErrors? ==> r.value.errors == OutgoingFormErrors(batches, batchId, typeValue, quantity)
    ensures r.Some? && r.value.ServerError? ==>
              && r.value == ServerError(RelatedObjectDoesNotExistName)
              && !UrlBatchMissing(batches, urlBatch) && (batchId.None? || batchId.value !in batches)
              && quantity.Some? && FitsDecimalField(quantity.value) && quantity.value > 0
    ensures !UrlBatchMissing(batches, urlBatch) && !OutgoingRequestValid(batches, batchId, typeValue, quantity)
            && !((batchId.None? || batchId.value !in batches) && quantity.Some? && FitsDecimalField(quantity.value) && quantity.value > 0)
            ==> r == Some(FormWithErrors(OutgoingFormErrors(batches, batchId, typeValue, quantity)))
  {
    if UrlBatchMissing(batches, urlBatch) then Some(NotFound)
    else
      match OutgoingValidationAsWritten(batches, batchId, typeValue, quantity)
      case Err(e) => Some(ServerError(e))
      case Ok(errs) => if errs == [] then None else Some(FormWithErrors(errs))
  }

  /** A POST with no batch and one gram is a server error as written. */
  lemma MissingBatchServerError()
    ensures OutgoingAnswerAsWritten(map[], None, None, "charity", Some(100)) == Some(ServerError(RelatedObjectDoesNotExistName))
  {
  }

  /** With a listed batch, an unknown type is no server error: the form comes back with the type's error alone. */
  lemma InvalidTypeRerendersForm()
    ensures var batches := map[1 := SeedBatch(1, "Tomato", "B1", 10000, 0, 0)];
            OutgoingAnswerAsWritten(batches, None, Some(1), "bogus", Some(100))
              == Some(FormWithErrors([FieldError("type", InvalidTypeChoiceMessage("bogus"))]))
  {
    var b := SeedBatch(1, "Tomato", "B1", 10000, 0, 0);
    var batches := map[1 := b];
    assert ParseType("bogus").None?;
    assert FormCleanErrors(Some(100), Some(b)) == [];
    assert TransactionClean(Some(100), Some(b)).None?;
    assert OutgoingFormErrors(batches, Some(1), "bogus", Some(100)) == [FieldError("type", InvalidTypeChoiceMessage("bogus"))];
  }

  function WeightOf(batches: map<BatchId, SeedBatch>, id: BatchId): Option<Cents>
  {
    if id in batches then Some(batches[id].weight) else None
  }

  /**
   * The errors of a rejected BatchPhotoMultiUploadForm: those of the batch field, and
   * images errors exactly when the files are not acceptable; an empty list draws the
   * "select at least one image" error.
   */
  predicate UploadErrorsShape(choices: map<BatchId, SeedBatch>, batchId: Option<BatchId>, files: seq<UploadedFile>,
                              single: UploadedFile -> Result<UploadedFile, string>, errs: seq<FieldError>)
  {
    && (forall e :: e in BatchFieldErrors(choices, batchId) ==> e in errs)
    && (forall e :: e in errs ==> e in BatchFieldErrors(choices, batchId) || e.field == ImagesField)
    && (ImagesValid(files, single) <==> forall e :: e in errs ==> e.field != ImagesField)
    && (files == [] ==> errs == BatchFieldErrors(choices, batchId) + [FieldError(ImagesField, NoImagesMessage)])
  }

  /**
   * BatchPhotoMultiUploadForm.is_valid(): the batch choice, then the images field
   * (MultipleFileField.clean on the list, and clean_images when that passes).
   */
  method UploadFormErrors(choices: map<BatchId, SeedBatch>, batchId: Option<BatchId>, files: seq<UploadedFile>,
                          single: UploadedFile -> Result<UploadedFile, string>) returns (errs: seq<FieldError>)
    ensures errs == [] <==> UploadRequestValid(choices, batchId, files, single)
    ensures errs != [] ==> UploadErrorsShape(choices, batchId, files, single, errs)
  {
    var batchErrs := BatchFieldErrors(choices, batchId);
    var imageErrs: seq<FieldError> := [];
    match MultipleFileClean(FileList(files), single) {
      case Err(e) =>
        imageErrs := [FieldError(ImagesField, e)];
      case Ok(_) =>
        var checked := CleanImages(files);
        if checked.Err? {
          imageErrs := [FieldError(ImagesField, checked.error)];
        }
    }
    errs := batchErrs + imageErrs;
  }

  /**
   * The batch table: each row under its own id, ids below the counter, and the
   * unique index on batch_number pointing every row's number at that row.
   */
  ghost predicate BatchTableValid(batches: map<BatchId, SeedBatch>, index: map<string, BatchId>, nextBatchId: nat)
  {
    forall id :: id in batches ==>
      && batches[id].id == id && id < nextBatchId
      && batches[id].batchNumber in index && index[batches[id].batchNumber] == id
  }

  /** The index makes batch numbers unique. */
  lemma IndexedNumbersUnique(batches: map<BatchId, SeedBatch>, index: map<string, BatchId>, nextBatchId: nat)
    requires BatchTableValid(batches, index, nextBatchId)
    ensures UniqueBatchNumbers(batches)
  {
  }

  /** The transaction table: every row's batch exists, ids increase along the table and stay below the counter. */
  ghost predicate TxTableValid(txs: seq<OutgoingTransaction>, keys: set<BatchId>, nextTxId: nat)
  {
    && (forall i :: 0 <= i < |txs| ==> txs[i].batch in keys && txs[i].id < nextTxId)
    && TxIdsIncreasing(txs)
  }

  /** The photo table, likewise. */
  ghost predicate PhotoTableValid(photos: seq<BatchPhoto>, keys: set<BatchId>, nextPhotoId: nat)
  {
    && (forall i :: 0 <= i < |photos| ==> photos[i].batch in keys && photos[i].id < nextPhotoId)
    && PhotoIdsIncreasing(photos)
  }

  /** Conservation: every batch's weight is its entered weight less what the transactions record against it. */
  ghost predicate LedgerValid(batches: map<BatchId, SeedBatch>, txs: seq<OutgoingTransaction>, baseline: map<BatchId, Cents>)
  {
    && baseline.Keys == batches.Keys
    && (forall id :: id in batches ==> batches[id].weight == baseline[id] - Applied(txs, id))
  }

  /** All four table invariants over one state of the database. */
  ghost predicate TablesValid(batches: map<BatchId, SeedBatch>, index: map<string, BatchId>, nextBatchId: nat,
                              txs: seq<OutgoingTransaction>, nextTxId: nat,
                              photos: seq<BatchPhoto>, nextPhotoId: nat, baseline: map<BatchId, Cents>)
  {
    && BatchTableValid(batches, index, nextBatchId)
    && TxTableValid(txs, batches.Keys, nextTxId)
    && PhotoTableValid(photos, batches.Keys, nextPhotoId)
    && LedgerValid(batches, txs, baseline)
  }

  /** A new row under the counter's id with a free batch number, entered with its weight as baseline. */
  lemma TablesAfterCreate(batches: map<BatchId, SeedBatch>, index: map<string, BatchId>, nextBatchId: nat,
                          txs: seq<OutgoingTransaction>, nextTxId: nat,
                          photos: seq<BatchPhoto>, nextPhotoId: nat, baseline: map<BatchId, Cents>, b: SeedBatch)
    requires TablesValid(batches, index, nextBatchId, txs, nextTxId, photos, nextPhotoId, baseline)
    requires b.id == nextBatchId && BatchNumberFree(batches, None, b.batchNumber)
    ensures b.id !in batches
    ensures TablesValid(batches[b.id := b], index[b.batchNumber := b.id], nextBatchId + 1, txs, nextTxId,
                        photos, nextPhotoId, baseline[b.id := b.weight])
  {
    AppliedUnreferenced(txs, b.id);
    var added := batches[b.id := b];
    assert added.Keys == batches.Keys + {b.id};
    forall id | id in added
      ensures added[id].batchNumber in index[b.batchNumber := b.id] && index[b.batchNumber := b.id][added[id].batchNumber] == id
    {
      if id != b.id {
        assert added[id] == batches[id];
        assert batches[id].batchNumber != b.batchNumber;
      }
    }
  }

  /**
   * Editing a row's fields under its id. The ghost baseline is rebased to the entered weight
   * plus everything already recorded against the row, so that weight == baseline - Applied holds again.
   */
  lemma TablesAfterUpdate(batches: map<BatchId, SeedBatch>, index: map<string, BatchId>, nextBatchId: nat,
                          txs: seq<OutgoingTransaction>, nextTxId: nat,
                          photos: seq<BatchPhoto>, nextPhotoId: nat, baseline: map<BatchId, Cents>, b: SeedBatch)
    requires TablesValid(batches, index, nextBatchId, txs, nextTxId, photos, nextPhotoId, baseline)
    requires b.id in batches && BatchNumberFree(batches, Some(b.id), b.batchNumber)
    ensures TablesValid(batches[b.id := b], index[b.batchNumber := b.id], nextBatchId, txs, nextTxId, photos, nextPhotoId,
                        baseline[b.id := baseline[b.id] + b.weight - batches[b.id].weight])
  {
    var edited := batches[b.id := b];
    assert edited.Keys == batches.Keys;
    forall id | id in edited
      ensures edited[id].batchNumber in index[b.batchNumber := b.id] && index[b.batchNumber := b.id][edited[id].batchNumber] == id
    {
      if id != b.id {
        assert edited[id] == batches[id];
        assert batches[id].batchNumber != b.batchNumber;
      }
    }
  }

  /** Removing an unreferenced batch, with its photos. */
  lemma TablesAfterDelete(batches: map<BatchId, SeedBatch>, index: map<string, BatchId>, nextBatchId: nat,
                          txs: seq<OutgoingTransaction>, nextTxId: nat,
                          photos: seq<BatchPhoto>, nextPhotoId: nat, baseline: map<BatchId, Cents>, id: BatchId)
    requires TablesValid(batches, index, nextBatchId, txs, nextTxId, photos, nextPhotoId, baseline)
    requires !Referenced(txs, id)
    ensures TablesValid(batches - {id}, index, nextBatchId, txs, nextTxId, PhotosWithout(photos, id), nextPhotoId, baseline - {id})
  {
    var kept := PhotosWithout(photos, id);
    forall i | 0 <= i < |kept| ensures kept[i] in photos {
      assert multiset(kept)[kept[i]] > 0;
    }
  }

  /** Recording a transaction numbered by the counter and taking its quantity off its batch's weight. */
  lemma TablesAfterOutgoing(batches: map<BatchId, SeedBatch>, index: map<string, BatchId>, nextBatchId: nat,
                            txs: seq<OutgoingTransaction>, nextTxId: nat,
                            photos: seq<BatchPhoto>, nextPhotoId: nat, baseline: map<BatchId, Cents>, tx: OutgoingTransaction,
                            updated: map<BatchId, SeedBatch>)
    requires TablesValid(batches, index, nextBatchId, txs, nextTxId, photos, nextPhotoId, baseline)
    requires tx.id == nextTxId && tx.batch in batches
    requires updated == batches[tx.batch := batches[tx.batch].(weight := batches[tx.batch].weight - tx.quantity)]
    ensures TablesValid(updated, index, nextBatchId, txs + [tx], nextTxId + 1, photos, nextPhotoId, baseline)
  {
    assert updated.Keys == batches.Keys;
    LedgerAfterOutgoing(batches, txs, baseline, tx, updated);
  }

  lemma LedgerAfterOutgoing(batches: map<BatchId, SeedBatch>, txs: seq<OutgoingTransaction>, baseline: map<BatchId, Cents>,
                            tx: OutgoingTransaction, updated: map<BatchId, SeedBatch>)
    requires LedgerValid(batches, txs, baseline) && tx.batch in batches
    requires updated == batches[tx.batch := batches[tx.batch].(weight := batches[tx.batch].weight - tx.quantity)]
    ensures LedgerValid(updated, txs + [tx], baseline)
  {
    forall b | b in updated ensures updated[b].weight == baseline[b] - Applied(txs + [tx], b) {
      AppliedAppend(txs, tx, b);
    }
  }

  /** Adding a photo row numbered by the counter, for an existing batch. */
  lemma TablesAfterPhoto(batches: map<BatchId, SeedBatch>, index: map<string, BatchId>, nextBatchId: nat,
                         txs: seq<OutgoingTransaction>, nextTxId: nat,
                         photos: seq<BatchPhoto>, nextPhotoId: nat, baseline: map<BatchId, Cents>, p: BatchPhoto)
    requires TablesValid(batches, index, nextBatchId, txs, nextTxId, photos, nextPhotoId, baseline)
    requires p.id == nextPhotoId && p.batch in batches
    ensures TablesValid(batches, index, nextBatchId, txs, nextTxId, photos + [p], nextPhotoId + 1, baseline)
  {
  }

  /** The three tables, with their autoincrement counters. */
  class SeedStore {
    var batches: map<BatchId, SeedBatch>
    var transactions: seq<OutgoingTransaction>
    var photos: seq<BatchPhoto>
    var nextBatchId: nat
    var nextTxId: nat
    var nextPhotoId: nat
    /** Each batch's weight as last entered through the batch form. */
    ghost var baseline: map<BatchId, Cents>
    /** The database's unique index on batch_number. */
    ghost var numberIndex: map<string, BatchId>

    /**
     * The tables' integrity: rows are keyed by their id, ids are never reused,
     * batch numbers are unique, both foreign keys resolve, and every batch's weight
     * is its entered weight less exactly the quantities recorded against it since.
     */
    ghost predicate Valid()
      reads this
    {
      TablesValid(batches, numberIndex, nextBatchId, transactions, nextTxId, photos, nextPhotoId, baseline)
    }

    /** No two batches share a batch number. */
    lemma ValidNumbersUnique()
      requires Valid()
      ensures UniqueBatchNumbers(batches)
    {
      IndexedNumbersUnique(batches, numberIndex, nextBatchId);
    }

    ghost predicate AllNonNegative()
      reads this
    {
      forall id :: id in batches ==> batches[id].weight >= 0
    }

    /** An empty database; autoincrement ids start at 1. */
    constructor ()
      ensures Valid() && AllNonNegative()
      ensures batches == map[] && transactions == [] && photos == []
      ensures nextBatchId == 1 && nextTxId == 1 && nextPhotoId == 1
    {
      batches := map[];
      transactions := [];
      photos := [];
      nextBatchId := 1;
      nextTxId := 1;
      nextPhotoId := 1;
      baseline := map[];
      numberIndex := map[];
    }

    /** seedbatch_create on POST: a new row when SeedBatchForm is valid, otherwise the form's errors. */
    method CreateBatch(seedName: string, batchNumber: string, weight: Submitted<Cents>, sellBy: Submitted<Date>, createdAt: int) returns (r: Response)
      requires Valid()
      modifies this
      ensures Valid()
      ensures old(AllNonNegative()) && !NegativeEntry(weight) ==> AllNonNegative()
      ensures !BatchFormValid(old(batches), None, seedName, batchNumber, weight, sellBy) ==>
                r == FormWithErrors(BatchFormErrors(old(batches), None, seedName, batchNumber, weight, sellBy)) && unchanged(this)
      ensures BatchFormValid(old(batches), None, seedName, batchNumber, weight, sellBy) ==>
                && r == ToDetail(old(nextBatchId))
                && old(nextBatchId) !in old(batches)
                && batches == old(batches)[old(nextBatchId) := SeedBatch(old(nextBatchId), seedName, batchNumber, weight.value, sellBy.value, createdAt)]
                && baseline == old(baseline)[old(nextBatchId) := weight.value]
                && transactions == old(transactions) && photos == old(photos)
                && nextBatchId == old(nextBatchId) + 1 && nextTxId == old(nextTxId) && nextPhotoId == old(nextPhotoId)
    {
      var errs := BatchFormErrors(batches, None, seedName, batchNumber, weight, sellBy);
      if errs != [] {
        return FormWithErrors(errs);
      }
      var id := nextBatchId;
      InsertBatch(SeedBatch(id, seedName, batchNumber, weight.value, sellBy.value, createdAt));
      r := ToDetail(id);
    }

    /** The INSERT of form.save(): a row under the counter's id, with a free batch number. */
    method InsertBatch(b: SeedBatch)
      requires Valid() && b.id == nextBatchId && BatchNumberFree(batches, None, b.batchNumber)
      modifies this
      ensures Valid()
      ensures b.id !in old(batches) && batches == old(batches)[b.id := b] && baseline == old(baseline)[b.id := b.weight]
      ensures transactions == old(transactions) && photos == old(photos)
      ensures nextBatchId == old(nextBatchId) + 1 && nextTxId == old(nextTxId) && nextPhotoId == old(nextPhotoId)
    {
      TablesAfterCreate(batches, numberIndex, nextBatchId, transactions, nextTxId, photos, nextPhotoId, baseline, b);
      batches := batches[b.id := b];
      numberIndex := numberIndex[b.batchNumber := b.id];
      baseline := baseline[b.id := b.weight];
      nextBatchId := nextBatchId + 1;
      assert TablesValid(batches, numberIndex, nextBatchId, transactions, nextTxId, photos, nextPhotoId, baseline);
    }

    /** seedbatch_update on POST: 404 for a missing row; otherwise the form's fields replace the row's. */
    method UpdateBatch(id: BatchId, seedName: string, batchNumber: string, weight: Submitted<Cents>, sellBy: Submitted<Date>) returns (r: Response)
      requires Valid()
      modifies this
      ensures Valid()
      ensures old(AllNonNegative()) && !NegativeEntry(weight) ==> AllNonNegative()
      ensures id !in old(batches) ==> r == NotFound && unchanged(this)
      ensures id in old(batches) && !BatchFormValid(old(batches), Some(id), seedName, batchNumber, weight, sellBy) ==>
                r == FormWithErrors(BatchFormErrors(old(batches), Some(id), seedName, batchNumber, weight, sellBy)) && unchanged(this)
      ensures id in old(batches) && BatchFormValid(old(batches), Some(id), seedName, batchNumber, weight, sellBy) ==>
                && r == ToDetail(id)
                && batches == old(batches)[id := old(batches)[id].(seedName := seedName, batchNumber := batchNumber,
                                                                   weight := weight.value, sellBy := sellBy.value)]
                && baseline == old(baseline)[id := weight.value + Applied(old(transactions), id)]
                && transactions == old(transactions) && photos == old(photos)
                && nextBatchId == old(nextBatchId) && nextTxId == old(nextTxId) && nextPhotoId == old(nextPhotoId)
    {
      if id !in batches {
        return NotFound;
      }
      var errs := BatchFormErrors(batches, Some(id), seedName, batchNumber, weight, sellBy);
      if errs != [] {
        return FormWithErrors(errs);
      }
      var b := batches[id].(seedName := seedName, batchNumber := batchNumber, weight := weight.value, sellBy := sellBy.value);
      ReplaceBatch(b);
      r := ToDetail(id);
    }

    /** The UPDATE of form.save(): the row's fields replaced under its id, with a number no other row has. */
    method ReplaceBatch(b: SeedBatch)
      requires Valid() && b.id in batches && BatchNumberFree(batches, Some(b.id), b.batchNumber)
      modifies this
      ensures Valid()
      ensures batches == old(batches)[b.id := b]
      ensures baseline == old(baseline)[b.id := old(baseline)[b.id] + b.weight - old(batches)[b.id].weight]
      ensures transactions == old(transactions) && photos == old(photos)
      ensures nextBatchId == old(nextBatchId) && nextTxId == old(nextTxId) && nextPhotoId == old(nextPhotoId)
    {
      var edited, reindexed, rebased := batches[b.id := b], numberIndex[b.batchNumber := b.id], baseline[b.id := baseline[b.id] + b.weight - batches[b.id].weight];
      TablesAfterUpdate(batches, numberIndex, nextBatchId, transactions, nextTxId, photos, nextPhotoId, baseline, b);
      batches, numberIndex, baseline := edited, reindexed, rebased;
      assert TablesValid(batches, numberIndex, nextBatchId, transactions, nextTxId, photos, nextPhotoId, baseline);
    }

    /** Deletes a batch row no transaction refers to; its photos cascade with it. */
    method RemoveBatch(id: BatchId)
      requires Valid() && id in batches && !Referenced(transactions, id)
      modifies this
      ensures Valid()
      ensures batches == old(batches) - {id} && photos == PhotosWithout(old(photos), id) && baseline == old(baseline) - {id}
      ensures transactions == old(transactions)
      ensures nextBatchId == old(nextBatchId) && nextTxId == old(nextTxId) && nextPhotoId == old(nextPhotoId)
    {
      TablesAfterDelete(batches, numberIndex, nextBatchId, transactions, nextTxId, photos, nextPhotoId, baseline, id);
      batches := batches - {id};
      baseline := baseline - {id};
      photos := PhotosWithout(photos, id);
      assert TablesValid(batches, numberIndex, nextBatchId, transactions, nextTxId, photos, nextPhotoId, baseline);
    }

    /**
     * seedbatch_delete on POST. A batch with outgoing transactions is protected: the
     * delete raises ProtectedError and nothing changes. Otherwise the row goes and
     * its photos cascade with it.
     */
    method DeleteBatch(id: BatchId) returns (r: Response)
      requires Valid()
      modifies this
      ensures Valid()
      ensures old(AllNonNegative()) ==> AllNonNegative()
      ensures id !in old(batches) ==> r == NotFound && unchanged(this)
      ensures id in old(batches) && Referenced(old(transactions), id) ==> r == ServerError(ProtectedErrorName) && unchanged(this)
      ensures id in old(batches) && !Referenced(old(transactions), id) ==>
                && r == ToList
                && batches == old(batches) - {id}
                && photos == PhotosWithout(old(photos), id)
                && baseline == old(baseline) - {id}
                && transactions == old(transactions)
                && nextBatchId == old(nextBatchId) && nextTxId == old(nextTxId) && nextPhotoId == old(nextPhotoId)
    {
      if id !in batches {
        return NotFound;
      }
      if Referenced(transactions, id) {
        return ServerError(ProtectedErrorName);
      }
      RemoveBatch(id);
      r := ToList;
    }

    /** The loop of batchphoto_upload: one photo row per file, all for the batch, numbered in file order. */
    method AddPhotos(id: BatchId, files: seq<UploadedFile>, uploadedAt: int)
      requires Valid() && id in batches
      modifies this
      ensures Valid()
      ensures photos == old(photos) + PhotosFor(id, files, old(nextPhotoId), uploadedAt)
      ensures nextPhotoId == old(nextPhotoId) + |files|
      ensures batches == old(batches) && transactions == old(transactions) && baseline == old(baseline)
      ensures nextBatchId == old(nextBatchId) && nextTxId == old(nextTxId)
    {
      for k := 0 to |files|
        invariant Valid()
        invariant batches == old(batches) && transactions == old(transactions) && baseline == old(baseline)
        invariant nextBatchId == old(nextBatchId) && nextTxId == old(nextTxId)
        invariant nextPhotoId == old(nextPhotoId) + k
        invariant photos == old(photos) + PhotosFor(id, files[..k], old(nextPhotoId), uploadedAt)
      {
        var p := BatchPhoto(nextPhotoId, id, files[k].name, uploadedAt);
        TablesAfterPhoto(batches, numberIndex, nextBatchId, transactions, nextTxId, photos, nextPhotoId, baseline, p);
        assert PhotosFor(id, files[..k + 1], old(nextPhotoId), uploadedAt)
            == PhotosFor(id, files[..k], old(nextPhotoId), uploadedAt) + [p];
        photos := photos + [p];
        nextPhotoId := nextPhotoId + 1;
      }
      assert files[..|files|] == files;
    }

    /**
     * batchphoto_upload on POST: when the form is valid, one photo row per uploaded
     * file, all for the chosen batch, in upload order.
     */
    method UploadPhotos(batchId: Option<BatchId>, files: seq<UploadedFile>,
                        single: UploadedFile -> Result<UploadedFile, string>, uploadedAt: int) returns (r: Response)
      requires Valid()
      modifies this
      ensures Valid()
      ensures old(AllNonNegative()) ==> AllNonNegative()
      ensures !UploadRequestValid(old(batches), batchId, files, single) ==>
                r.FormWithErrors? && r.errors != [] && unchanged(this)
      ensures r.FormWithErrors? ==> UploadErrorsShape(old(batches), batchId, files, single, r.errors)
      ensures UploadRequestValid(old(batches), batchId, files, single) ==>
                && r == ToDetail(batchId.value)
                && photos == old(photos) + PhotosFor(batchId.value, files, old(nextPhotoId), uploadedAt)
                && nextPhotoId == old(nextPhotoId) + |files|
                && batches == old(batches) && transactions == old(transactions) && baseline == old(baseline)
                && nextBatchId == old(nextBatchId) && nextTxId == old(nextTxId)
    {
      var errs := UploadFormErrors(batches, batchId, files, single);
      if errs != [] {
        return FormWithErrors(errs);
      }
      AddPhotos(batchId.value, files, uploadedAt);
      r := ToDetail(batchId.value);
    }

    /** The insert of form.save() and the decrement of the update, for a transaction numbered by the counter. */
    method RecordOutgoing(tx: OutgoingTransaction)
      requires Valid() && tx.id == nextTxId && tx.batch in batches
      modifies this
      ensures Valid()
      ensures batches == old(batches)[tx.batch := old(batches)[tx.batch].(weight := old(batches)[tx.batch].weight - tx.quantity)]
      ensures transactions == old(transactions) + [tx] && nextTxId == old(nextTxId) + 1
      ensures photos == old(photos) && baseline == old(baseline)
      ensures nextBatchId == old(nextBatchId) && nextPhotoId == old(nextPhotoId)
    {
      var decremented := batches[tx.batch := batches[tx.batch].(weight := batches[tx.batch].weight - tx.quantity)];
      TablesAfterOutgoing(batches, numberIndex, nextBatchId, transactions, nextTxId, photos, nextPhotoId, baseline, tx, decremented);
      transactions := transactions + [tx];
      nextTxId := nextTxId + 1;
      batches := decremented;
      assert TablesValid(batches, numberIndex, nextBatchId, transactions, nextTxId, photos, nextPhotoId, baseline);
    }

    /**
     * The body of outgoing_create's atomic block, with F imported: re-read the
     * batch, refuse a quantity above its current weight, otherwise record the
     * transaction and take the quantity off the weight.
     */
    method ApplyOutgoing(id: BatchId, kind: TxType, quantity: Cents, notes: string, today: Date) returns (r: Response)
      requires Valid()
      modifies this
      ensures Valid()
      ensures old(AllNonNegative()) ==> AllNonNegative()
      ensures r.ToDetail? <==> Views.LockedUpdate(WeightOf(old(batches), id), quantity).Commit?
      ensures id !in old(batches) ==> r == ServerError(DoesNotExistName) && unchanged(this)
      ensures id in old(batches) && quantity > old(batches)[id].weight ==>
                r == FormWithErrors([FieldError(QuantityField, Views.LockedExceedsMessage)]) && unchanged(this)
      ensures id in old(batches) && quantity <= old(batches)[id].weight ==>
                && r == ToDetail(id)
                && batches == old(batches)[id := old(batches)[id].(weight := Views.LockedUpdate(WeightOf(old(batches), id), quantity).newWeight)]
                && transactions == old(transactions) + [OutgoingTransaction(old(nextTxId), id, kind, quantity, notes, today)]
                && nextTxId == old(nextTxId) + 1
                && photos == old(photos) && baseline == old(baseline)
                && nextBatchId == old(nextBatchId) && nextPhotoId == old(nextPhotoId)
    {
      if id !in batches {
        return ServerError(DoesNotExistName);
      }
      var locked := batches[id];
      if quantity > locked.weight {
        return FormWithErrors([FieldError(QuantityField, Views.LockedExceedsMessage)]);
      }
      RecordOutgoing(OutgoingTransaction(nextTxId, id, kind, quantity, notes, today));
      r := ToDetail(id);
    }

    /**
     * outgoing_create on POST, with F imported: 404 for a URL batch that does not
     * exist, the form's errors when it is invalid, otherwise the locked step.
     */
    method OutgoingCreate(urlBatch: Option<nat>, batchId: Option<BatchId>, typeValue: string,
                          quantity: Option<Cents>, notes: string, today: Date) returns (r: Response)
      requires Valid()
      modifies this
      ensures Valid()
      ensures old(AllNonNegative()) ==> AllNonNegative()
      ensures UrlBatchMissing(old(batches), urlBatch) ==> r == NotFound && unchanged(this)
      ensures !UrlBatchMissing(old(batches), urlBatch) && !OutgoingRequestValid(old(batches), batchId, typeValue, quantity) ==>
                r == FormWithErrors(OutgoingFormErrors(old(batches), batchId, typeValue, quantity)) && unchanged(this)
      ensures !UrlBatchMissing(old(batches), urlBatch) && OutgoingRequestValid(old(batches), batchId, typeValue, quantity) ==>
                && r == ToDetail(batchId.value)
                && batches == old(batches)[batchId.value := old(batches)[batchId.value].(weight := old(batches)[batchId.value].weight - quantity.value)]
                && transactions == old(transactions) + [OutgoingTransaction(old(nextTxId), batchId.value, ParseType(typeValue).value, quantity.value, notes, today)]
                && nextTxId == old(nextTxId) + 1
                && photos == old(photos) && baseline == old(baseline)
                && nextBatchId == old(nextBatchId) && nextPhotoId == old(nextPhotoId)
    {
      if UrlBatchMissing(batches, urlBatch) {
        return NotFound;
      }
      var errs := OutgoingFormErrors(batches, batchId, typeValue, quantity);
      if errs != [] {
        return FormWithErrors(errs);
      }
      r := ApplyOutgoing(batchId.value, ParseType(typeValue).value, quantity.value, notes, today);
    }
  }
}
