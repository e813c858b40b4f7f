/**
 * The query side of the seeds app's views (seeds/views.py): the batch list's
 * annotation, filter, search and sort; the rows and order of the two CSV exports;
 * and the locked check-then-decrement step of outgoing_create, with what a
 * serialised sequence of such steps does to one batch.
 */
module Views {
  import opened Common
  import opened Models
  import opened Query
  import Decimal

  // ---------------------------------------------------------------------------
  // seedbatch_list

  /** A batch with the list view's `recommended` annotation. */
  datatype ListRow = ListRow(batch: SeedBatch, recommended: bool)

  /** Case(When(sell_by_date__lte=cutoff, then=True), default=False): a NULL date matches no When. */
  predicate CaseWhenLte(sellBy: Option<Date>, cutoff: Date)
  {
    match sellBy
    case None => false
    case Some(d) => d <= cutoff
  }

  function AnnotateRow(b: SeedBatch, cutoff: Date): ListRow
  {
    ListRow(b, CaseWhenLte(Some(b.sellBy), cutoff))
  }

  /** qs.annotate(recommended=...), with cutoff = today + window. */
  function Annotate(batches: seq<SeedBatch>, today: Date, window: int): (rows: seq<ListRow>)
    ensures |rows| == |batches|
    ensures forall i :: 0 <= i < |rows| ==> rows[i].batch == batches[i]
    ensures forall i :: 0 <= i < |rows| ==>
              rows[i].recommended == RecommendedToProcess(Some(batches[i].sellBy), today, window)
  {
    var cutoff := today + window;
    MapSeq(batches, b => AnnotateRow(b, cutoff))
  }

  /** The annotation and the model property agree on every date, with or without one. */
  lemma AnnotationMatchesProperty(sellBy: Option<Date>, today: Date, window: int)
    ensures CaseWhenLte(sellBy, today + window) == RecommendedToProcess(sellBy, today, window)
  {
  }

  /** ?recommended=yes|no keeps the flagged, resp. unflagged, rows; any other value keeps all. */
  function FilterRecommended(rows: seq<ListRow>, param: Option<string>): (r: seq<ListRow>)
    ensures param == Some("yes") ==> forall x :: multiset(r)[x] == if x.recommended then multiset(rows)[x] else 0
    ensures param == Some("no") ==> forall x :: multiset(r)[x] == if x.recommended then 0 else multiset(rows)[x]
    ensures param != Some("yes") && param != Some("no") ==> r == rows
  {
    if param == Some("yes") || param == Some("no") then
      var wanted := param == Some("yes");
      Filter(rows, (x: ListRow) => x.recommended == wanted)
    else rows
  }

  function LowerChar(c: char): char
  {
    if 'A' <= c <= 'Z' then (c as int + 32) as char else c
  }

  /** ASCII case folding, as the LIKE operator of SQLite applies it. */
  function Lower(s: string): (r: string)
    ensures |r| == |s| && forall i :: 0 <= i < |s| ==> r[i] == LowerChar(s[i])
  {
    seq(|s|, i requires 0 <= i < |s| => LowerChar(s[i]))
  }

  predicate OccursAt(needle: string, hay: string, i: nat)
  {
    i + |needle| <= |hay| && hay[i..i + |needle|] == needle
  }

  function Contains(hay: string, needle: string): bool
    decreases |hay|
  {
    if needle <= hay then true
    else if |hay| == 0 then false
    else Contains(hay[1..], needle)
  }

  /** Contains tests exactly for an occurrence of the needle somewhere in the text. */
  lemma ContainsOccurrence(hay: string, needle: string)
    ensures Contains(hay, needle) <==> exists i: nat :: OccursAt(needle, hay, i)
  {
    if Contains(hay, needle) {
      var i := ContainedOccurs(hay, needle);
    }
    if i: nat :| OccursAt(needle, hay, i) {
      OccurrenceContained(hay, needle, i);
    }
  }

  /** A text that contains the needle has an occurrence of it, at the position returned. */
  lemma {:induction false} ContainedOccurs(hay: string, needle: string) returns (i: nat)
    requires Contains(hay, needle)
    ensures OccursAt(needle, hay, i)
    decreases |hay|
  {
    if needle <= hay {
      i := 0;
      assert hay[0..|needle|] == hay[..|needle|];
    } else {
      var j := ContainedOccurs(hay[1..], needle);
      assert hay[j + 1..j + 1 + |needle|] == hay[1..][j..j + |needle|];
      i := j + 1;
    }
  }

  /** An occurrence at any position makes Contains true. */
  lemma {:induction false} OccurrenceContained(hay: string, needle: string, i: nat)
    requires OccursAt(needle, hay, i)
    ensures Contains(hay, needle)
    decreases i
  {
    if i == 0 {
      assert hay[..|needle|] == hay[0..|needle|];
    } else {
      assert hay[1..][i - 1..i - 1 + |needle|] == hay[i..i + |needle|];
      OccurrenceContained(hay[1..], needle, i - 1);
    }
  }

  /** seed_name__icontains=q | batch_number__icontains=q. */
  predicate MatchesSearch(row: ListRow, q: string)
  {
    Contains(Lower(row.batch.seedName), Lower(q)) || Contains(Lower(row.batch.batchNumber), Lower(q))
  }

  /** A row matches exactly when the lower-cased q occurs somewhere in its lower-cased name or number. */
  lemma MatchesSearchOccurrence(row: ListRow, q: string)
    ensures MatchesSearch(row, q) <==>
              (exists i: nat :: OccursAt(Lower(q), Lower(row.batch.seedName), i))
              || (exists i: nat :: OccursAt(Lower(q), Lower(row.batch.batchNumber), i))
  {
    ContainsOccurrence(Lower(row.batch.seedName), Lower(q));
    ContainsOccurrence(Lower(row.batch.batchNumber), Lower(q));
  }

  /** The search as evidently intended: a non-empty q keeps the rows whose name or number contains it. */
  function Search(rows: seq<ListRow>, q: Option<string>): (r: seq<ListRow>)
    ensures q.Some? && q.value != "" ==> forall x :: multiset(r)[x] == if MatchesSearch(x, q.value) then multiset(rows)[x] else 0
    ensures !(q.Some? && q.value != "") ==> r == rows
  {
    if q.Some? && q.value != "" then Filter(rows, (x: ListRow) => MatchesSearch(x, q.value)) else rows
  }

  const ModelsNameError := "NameError: name 'models' is not defined"

  /** The search as written: `models` is not imported in the views module, so a non-empty q raises. */
  function SearchAsWritten(rows: seq<ListRow>, q: Option<string>): (r: Result<seq<ListRow>, string>)
    ensures q.Some? && q.value != "" ==> r == Err(ModelsNameError)
    ensures !(q.Some? && q.value != "") ==> r == Ok(rows)
  {
    if q.Some? && q.value != "" then Err(ModelsNameError) else Ok(rows)
  }

  /** A concrete request the written search crashes on, where the intended one finds the batch. */
  lemma SearchFindingWitness()
    ensures var row := ListRow(SeedBatch(1, "Tomato", "B-1", 10000, 0, 0), false);
      && SearchAsWritten([row], Some("tom")) == Err(ModelsNameError)
      && Search([row], Some("tom")) == [row]
  {
    var row := ListRow(SeedBatch(1, "Tomato", "B-1", 10000, 0, 0), false);
    assert Lower("Tomato") == "tomato";
    assert Lower("tom") == "tom";
    assert "tom" <= "tomato";
    assert MatchesSearch(row, "tom");
    assert [row] == [row] + [];
  }

  /** order_by("-recommended", "sell_by_date"): flagged rows first, then by sell-by date. */
  predicate RecommendedFirstLe(a: ListRow, b: ListRow)
  {
    (a.recommended && !b.recommended) || (a.recommended == b.recommended && a.batch.sellBy <= b.batch.sellBy)
  }

  lemma RecommendedFirstTotal()
    ensures TotalPreorder(RecommendedFirstLe)
  {
  }

  /** ?sort=recommended reorders the rows; any other value keeps their order. */
  function SortParam(rows: seq<ListRow>, sort: Option<string>): (r: seq<ListRow>)
    ensures multiset(r) == multiset(rows)
    ensures sort != Some("recommended") ==> r == rows
    ensures sort == Some("recommended") ==>
              forall i, j :: 0 <= i < j < |r| ==>
                && (r[j].recommended ==> r[i].recommended)
                && (r[i].recommended == r[j].recommended ==> r[i].batch.sellBy <= r[j].batch.sellBy)
  {
    if sort == Some("recommended") then
      RecommendedFirstTotal();
      var sorted := SortBy(rows, RecommendedFirstLe);
      assert forall i, j :: 0 <= i < j < |sorted| ==> RecommendedFirstLe(sorted[i], sorted[j]);
      sorted
    else rows
  }

  /** The default order of the batch list: Meta.ordering applied to the batches. */
  predicate ListRowBatchLe(a: ListRow, b: ListRow)
  {
    BatchOrderLe(a.batch, b.batch)
  }

  /**
   * seedbatch_list with the defect at line 43 corrected: the table in its default
   * order, annotated, filtered on ?recommended, searched on ?q, sorted on ?sort.
   */
  function SeedBatchList(table: seq<SeedBatch>, today: Date, configured: Option<int>,
                         recommended: Option<string>, q: Option<string>, sort: Option<string>): (rows: seq<ListRow>)
    ensures recommended != Some("yes") && recommended != Some("no") && (q.None? || q.value == "") ==>
              multiset(rows) == multiset(Annotate(table, today, RecommendWindowDays(configured)))
  {
    BatchOrderTotal();
    var window := RecommendWindowDays(configured);
    var sorted := SortBy(table, BatchOrderLe);
    AnnotatePermutation(sorted, table, today, window);
    SortParam(Search(FilterRecommended(Annotate(sorted, today, window), recommended), q), sort)
  }

  /** Every listed row's flag is the model's recommended_to_process for that batch. */
  lemma ListFlagsMatchProperty(table: seq<SeedBatch>, today: Date, configured: Option<int>,
                               recommended: Option<string>, q: Option<string>, sort: Option<string>)
    ensures forall x :: x in SeedBatchList(table, today, configured, recommended, q, sort) ==>
              x.recommended == RecommendedToProcess(Some(x.batch.sellBy), today, RecommendWindowDays(configured))
  {
    BatchOrderTotal();
    var annotated := Annotate(SortBy(table, BatchOrderLe), today, RecommendWindowDays(configured));
    var filtered := FilterRecommended(annotated, recommended);
    var searched := Search(filtered, q);
    var listed := SeedBatchList(table, today, configured, recommended, q, sort);
    forall x | x in listed
      ensures x.recommended == RecommendedToProcess(Some(x.batch.sellBy), today, RecommendWindowDays(configured))
    {
      assert multiset(listed)[x] > 0;
      assert multiset(searched)[x] > 0;
      assert multiset(filtered)[x] > 0;
      assert x in annotated;
    }
  }

  /**
   * Without a search, ?recommended=yes lists each flagged batch of the table as
   * often as it is stored and nothing else; ?recommended=no the unflagged ones.
   */
  lemma ListRecommendedFilter(table: seq<SeedBatch>, today: Date, configured: Option<int>, sort: Option<string>)
    ensures forall x :: multiset(SeedBatchList(table, today, configured, Some("yes"), None, sort))[x]
                        == if x.recommended then multiset(Annotate(table, today, RecommendWindowDays(configured)))[x] else 0
    ensures forall x :: multiset(SeedBatchList(table, today, configured, Some("no"), None, sort))[x]
                        == if x.recommended then 0 else multiset(Annotate(table, today, RecommendWindowDays(configured)))[x]
  {
    ListFilterKeeps(table, today, configured, Some("yes"), sort);
    ListFilterKeeps(table, today, configured, Some("no"), sort);
  }

  /** One of the two ?recommended values, without a search: the rows with that flag, each as often as in the table. */
  lemma ListFilterKeeps(table: seq<SeedBatch>, today: Date, configured: Option<int>, param: Option<string>, sort: Option<string>)
    requires param == Some("yes") || param == Some("no")
    ensures forall x :: multiset(SeedBatchList(table, today, configured, param, None, sort))[x]
                        == if x.recommended == (param == Some("yes")) then multiset(Annotate(table, today, RecommendWindowDays(configured)))[x] else 0
  {
    BatchOrderTotal();
    var sorted := SortBy(table, BatchOrderLe);
    AnnotatePermutation(sorted, table, today, RecommendWindowDays(configured));
    var filtered := FilterRecommended(Annotate(sorted, today, RecommendWindowDays(configured)), param);
    assert SeedBatchList(table, today, configured, param, None, sort) == SortParam(filtered, sort);
  }

  /** Annotating a permutation of the batches gives a permutation of the rows. */
  lemma AnnotatePermutation(s1: seq<SeedBatch>, s2: seq<SeedBatch>, today: Date, window: int)
    requires multiset(s1) == multiset(s2)
    ensures multiset(Annotate(s1, today, window)) == multiset(Annotate(s2, today, window))
  {
    var cutoff := today + window;
    var f := (b: SeedBatch) => AnnotateRow(b, cutoff);
    MapSeqPermutation(s1, s2, f);
    assert Annotate(s1, today, window) == MapSeq(s1, f);
    assert Annotate(s2, today, window) == MapSeq(s2, f);
  }

  /** Without ?sort=recommended the list keeps Meta.ordering: sell-by date, then batch number. */
  lemma ListDefaultOrder(table: seq<SeedBatch>, today: Date, configured: Option<int>,
                         recommended: Option<string>, q: Option<string>, sort: Option<string>)
    requires sort != Some("recommended")
    ensures SortedBy(SeedBatchList(table, today, configured, recommended, q, sort), ListRowBatchLe)
  {
    BatchOrderTotal();
    var annotated := Annotate(SortBy(table, BatchOrderLe), today, RecommendWindowDays(configured));
    assert SortedBy(annotated, ListRowBatchLe);
    var filtered := FilterRecommended(annotated, recommended);
    if recommended == Some("yes") || recommended == Some("no") {
      var wanted := recommended == Some("yes");
      FilterKeepsOrder(annotated, (x: ListRow) => x.recommended == wanted, ListRowBatchLe);
    }
    if q.Some? && q.value != "" {
      FilterKeepsOrder(filtered, (x: ListRow) => MatchesSearch(x, q.value), ListRowBatchLe);
    }
  }

  // ---------------------------------------------------------------------------
  // export_batches_csv

  /** One data row of seed_batches.csv. */
  datatype BatchRow = BatchRow(
    id: BatchId,
    batchNumber: string,
    seedName: string,
    weight: string,
    sellBy: Date,
    recommended: string,
    createdAt: int)

  function BatchRowOf(b: SeedBatch, today: Date, window: int): (row: BatchRow)
    ensures row.id == b.id && row.batchNumber == b.batchNumber && row.seedName == b.seedName
    ensures row.sellBy == b.sellBy && row.createdAt == b.createdAt
    ensures Decimal.ParseCents(row.weight) == Some(b.weight)
    ensures row.recommended == "Yes" <==> RecommendedToProcess(Some(b.sellBy), today, window)
    ensures row.recommended == "Yes" || row.recommended == "No"
  {
    Decimal.FormatCentsRoundTrip(b.weight);
    BatchRow(b.id, b.batchNumber, b.seedName, Decimal.FormatCents(b.weight), b.sellBy,
             if RecommendedToProcess(Some(b.sellBy), today, window) then "Yes" else "No", b.createdAt)
  }

  /** The rows of export_batches_csv: one per batch, ordered by sell-by date and then batch number. */
  function ExportBatchRows(table: seq<SeedBatch>, today: Date, configured: Option<int>): (rows: seq<BatchRow>)
    ensures |rows| == |table|
    ensures multiset(rows) == multiset(MapSeq(table, (b: SeedBatch) => BatchRowOf(b, today, RecommendWindowDays(configured))))
    ensures forall i, j :: 0 <= i < j < |rows| ==>
              rows[i].sellBy < rows[j].sellBy
              || (rows[i].sellBy == rows[j].sellBy && !StrLt(rows[j].batchNumber, rows[i].batchNumber))
  {
    BatchOrderTotal();
    var sorted := SortBy(table, BatchOrderLe);
    var f := (b: SeedBatch) => BatchRowOf(b, today, RecommendWindowDays(configured));
    MapSeqPermutation(sorted, table, f);
    var rows := MapSeq(sorted, f);
    assert forall i, j :: 0 <= i < j < |rows| ==> BatchOrderLe(sorted[i], sorted[j]);
    rows
  }

  /**
   * Because batch numbers are unique, the export does not depend on the order
   * the database happens to return the rows in.
   */
  lemma ExportBatchRowsDeterministic(t1: seq<SeedBatch>, t2: seq<SeedBatch>, today: Date, configured: Option<int>)
    requires multiset(t1) == multiset(t2)
    requires forall i, j :: 0 <= i < |t1| && 0 <= j < |t1| && t1[i].batchNumber == t1[j].batchNumber ==> t1[i] == t1[j]
    ensures ExportBatchRows(t1, today, configured) == ExportBatchRows(t2, today, configured)
  {
    BatchOrderTotal();
    forall a, b | a in t1 && b in t1 && BatchOrderLe(a, b) && BatchOrderLe(b, a) ensures a == b {
      BatchOrderTies(a, b);
    }
    SortIndependentOfStorage(t1, t2, BatchOrderLe);
  }

  // ---------------------------------------------------------------------------
  // export_outgoing_csv

  /** order_by("-date", "id"): newest day first, and within a day ascending id. */
  predicate TxExportLe(a: OutgoingTransaction, b: OutgoingTransaction)
  {
    a.date > b.date || (a.date == b.date && a.id <= b.id)
  }

  lemma TxExportOrderTotal()
    ensures TotalPreorder(TxExportLe)
  {
  }

  /** The export's order and Meta.ordering agree across days and are opposite within a day. */
  lemma TxOrdersCompared(a: OutgoingTransaction, b: OutgoingTransaction)
    requires a.id != b.id
    ensures a.date != b.date ==> (TxExportLe(a, b) <==> TxDefaultLe(a, b))
    ensures a.date == b.date ==> (TxExportLe(a, b) <==> !TxDefaultLe(a, b))
  {
  }

  /** Two transactions of one day come out in opposite orders under the export and under Meta.ordering. */
  lemma TxOrdersDifferWitness()
    ensures var t1 := OutgoingTransaction(1, 0, Charity, 100, "", 5);
            var t2 := OutgoingTransaction(2, 0, Disposal, 200, "", 5);
      && SortBy([t2, t1], TxExportLe) == [t1, t2]
      && SortBy([t1, t2], TxDefaultLe) == [t2, t1]
  {
    var t1 := OutgoingTransaction(1, 0, Charity, 100, "", 5);
    var t2 := OutgoingTransaction(2, 0, Disposal, 200, "", 5);
    TxExportOrderTotal();
    TxDefaultOrderTotal();
    assert [t2, t1][1..] == [t1];
    assert [t1, t2][1..] == [t2];
    assert SortBy([t1], TxExportLe) == [t1];
    assert SortBy([t2], TxDefaultLe) == [t2];
  }

  /** One data row of outgoing_transactions.csv, joined with its batch. */
  datatype TxRow = TxRow(
    id: nat,
    batchId: BatchId,
    batchNumber: string,
    seedName: string,
    kind: string,
    quantity: string,
    notes: string,
    date: Date)

  function TxRowOf(t: OutgoingTransaction, batches: map<BatchId, SeedBatch>): (row: TxRow)
    requires t.batch in batches
    ensures row.id == t.id && row.batchId == t.batch && row.date == t.date && row.notes == t.notes
    ensures row.batchNumber == batches[t.batch].batchNumber && row.seedName == batches[t.batch].seedName
    ensures ParseType(row.kind) == Some(t.kind)
    ensures Decimal.ParseCents(row.quantity) == Some(t.quantity)
  {
    Decimal.FormatCentsRoundTrip(t.quantity);
    var b := batches[t.batch];
    TxRow(t.id, t.batch, b.batchNumber, b.seedName, TypeValue(t.kind), Decimal.FormatCents(t.quantity), t.notes, t.date)
  }

  /** The rows of export_outgoing_csv: one per transaction, by date descending and then id ascending. */
  function ExportOutgoingRows(batches: map<BatchId, SeedBatch>, txs: seq<OutgoingTransaction>): (rows: seq<TxRow>)
    requires forall i :: 0 <= i < |txs| ==> txs[i].batch in batches
    ensures |rows| == |txs|
    ensures multiset(rows) == multiset(MapSeq(txs, (t: OutgoingTransaction) requires t.batch in batches => TxRowOf(t, batches)))
    ensures forall i, j :: 0 <= i < j < |rows| ==>
              rows[i].date > rows[j].date || (rows[i].date == rows[j].date && rows[i].id <= rows[j].id)
  {
    TxExportOrderTotal();
    var sorted := SortBy(txs, TxExportLe);
    var f := (t: OutgoingTransaction) requires t.batch in batches => TxRowOf(t, batches);
    PermutationInTable(txs, sorted, batches);
    MapSeqPermutation(sorted, txs, f);
    var rows := MapSeq(sorted, f);
    TxRowsOrdered(batches, sorted, rows);
    rows
  }

  /** Rows built one per transaction of a sequence in export order come out in that order. */
  lemma TxRowsOrdered(batches: map<BatchId, SeedBatch>, sorted: seq<OutgoingTransaction>, rows: seq<TxRow>)
    requires forall i :: 0 <= i < |sorted| ==> sorted[i].batch in batches
    requires SortedBy(sorted, TxExportLe)
    requires |rows| == |sorted| && forall k :: 0 <= k < |rows| ==> rows[k] == TxRowOf(sorted[k], batches)
    ensures forall i, j :: 0 <= i < j < |rows| ==>
              rows[i].date > rows[j].date || (rows[i].date == rows[j].date && rows[i].id <= rows[j].id)
  {
    forall i, j | 0 <= i < j < |rows|
      ensures rows[i].date > rows[j].date || (rows[i].date == rows[j].date && rows[i].id <= rows[j].id)
    {
      assert TxExportLe(sorted[i], sorted[j]);
    }
  }

  /** Reordering the transactions keeps every one's batch in the table. */
  lemma PermutationInTable(txs: seq<OutgoingTransaction>, reordered: seq<OutgoingTransaction>, batches: map<BatchId, SeedBatch>)
    requires multiset(reordered) == multiset(txs)
    requires forall i :: 0 <= i < |txs| ==> txs[i].batch in batches
    ensures forall i :: 0 <= i < |reordered| ==> reordered[i].batch in batches
  {
    forall i | 0 <= i < |reordered| ensures reordered[i].batch in batches {
      assert reordered[i] in multiset(txs);
    }
  }

  // ---------------------------------------------------------------------------
  // outgoing_create: the step done under select_for_update

  /** What the locked block does: commit the decrement, reject, or find no row. */
  datatype LockedStep = Commit(newWeight: Cents) | Insufficient | Missing

  const LockedExceedsMessage := "Quantity exceeds current batch weight (cannot go negative)."

  /**
   * The locked read-check-decrement, as evidently intended: with the row's current
   * weight, a quantity above it is refused, otherwise the weight drops by exactly it.
   */
  function LockedUpdate(current: Option<Cents>, quantity: Cents): (r: LockedStep)
    ensures r.Missing? <==> current.None?
    ensures r.Insufficient? <==> current.Some? && quantity > current.value
    ensures r.Commit? ==> current.Some? && r.newWeight + quantity == current.value && r.newWeight >= 0
  {
    match current
    case None => Missing
    case Some(w) => if quantity > w then Insufficient else Commit(w - quantity)
  }

  /** What the block does as written: `F` is not imported in the views module. */
  datatype WrittenStep = Completed(step: LockedStep) | NameErrorRaised(name: string)

  function LockedUpdateAsWritten(current: Option<Cents>, quantity: Cents): (r: WrittenStep)
    ensures LockedUpdate(current, quantity).Commit? ==> r == NameErrorRaised("F")
    ensures !LockedUpdate(current, quantity).Commit? ==> r == Completed(LockedUpdate(current, quantity))
  {
    match current
    case None => Completed(Missing)
    case Some(w) => if quantity > w then Completed(Insufficient) else NameErrorRaised("F")
  }

  /** As written, no outgoing transaction ever commits: every accepted request raises and rolls back. */
  lemma AsWrittenNeverCommits(current: Option<Cents>, quantity: Cents)
    ensures !(LockedUpdateAsWritten(current, quantity).Completed? && LockedUpdateAsWritten(current, quantity).step.Commit?)
  {
  }

  /** 30.00 g out of 100.00 g: intended, the weight becomes 70.00 g; as written, the request raises. */
  lemma DecrementFindingWitness()
    ensures LockedUpdate(Some(10000), 3000) == Commit(7000)
    ensures LockedUpdateAsWritten(Some(10000), 3000) == NameErrorRaised("F")
  {
  }

  // ---------------------------------------------------------------------------
  // Serialised outgoing requests against one batch

  /** A whole outgoing_create accepts a quantity exactly when it is positive and within the weight. */
  predicate Accepts(weight: Cents, quantity: Cents)
  {
    0 < quantity <= weight
  }

  /** One batch's weight and the quantities recorded against it, in order. */
  datatype BatchLedger = BatchLedger(weight: Cents, applied: seq<Cents>)

  /**
   * The row lock serialises requests on one batch; whatever order they are
   * serialised in, each one sees the weight its predecessors left. Every request
   * passed is_valid() before taking the lock, against a weight that may since have
   * dropped, so only its positivity carries over: the locked re-check is what
   * refuses a quantity above the current weight.
   */
  function Replay(initial: Cents, requests: seq<Cents>): (r: BatchLedger)
    ensures r.weight == initial - Sum(r.applied)
    ensures forall k :: 0 <= k < |r.applied| ==> r.applied[k] > 0
    ensures |r.applied| <= |requests|
    decreases |requests|
  {
    if requests == [] then BatchLedger(initial, [])
    else
      var before := Replay(initial, requests[..|requests| - 1]);
      var q := requests[|requests| - 1];
      if q > 0 then
        match LockedUpdate(Some(before.weight), q)
        case Commit(w) =>
          var applied := before.applied + [q];
          assert applied[..|applied| - 1] == before.applied;
          BatchLedger(w, applied)
        case _ => before
      else before
  }

  /**
   * One more request: a positive quantity within the weight its predecessors left is
   * recorded and takes exactly that much off; any other request changes nothing.
   */
  lemma ReplayStep(initial: Cents, requests: seq<Cents>, q: Cents)
    ensures var p := Replay(initial, requests);
            Replay(initial, requests + [q]) == if 0 < q <= p.weight then BatchLedger(p.weight - q, p.applied + [q]) else p
  {
  }

  /** The weight never goes negative when it starts non-negative, whatever the requests. */
  lemma {:induction false} ReplayNeverNegative(initial: Cents, requests: seq<Cents>)
    requires initial >= 0
    ensures Replay(initial, requests).weight >= 0
    decreases |requests|
  {
    if requests != [] {
      ReplayNeverNegative(initial, requests[..|requests| - 1]);
    }
  }

  /** 100.00 g: 30.00 g goes out, 75.00 g is refused, 70.00 g goes out, leaving 0.00 g. */
  lemma ReplayScenario()
    ensures Replay(10000, [3000, 7500, 7000]) == BatchLedger(0, [3000, 7000])
  {
    assert [3000, 7500, 7000][..2] == [3000, 7500];
    assert [3000, 7500][..1] == [3000];
    assert [3000][..0] == [];
  }

  /** Two requests that each fit but together exceed the weight: the first served succeeds, the other is refused. */
  lemma ReplayRace(initial: Cents, a: Cents, b: Cents)
    requires Accepts(initial, a) && Accepts(initial, b) && a + b > initial
    ensures Replay(initial, [a, b]) == BatchLedger(initial - a, [a])
  {
    assert [a, b][..1] == [a];
    assert [a][..0] == [];
    assert Replay(initial, []) == BatchLedger(initial, []);
    assert Replay(initial, [a]) == BatchLedger(initial - a, [a]);
    assert LockedUpdate(Some(initial - a), b) == Insufficient;
  }
}
