/** The state held by the application shell (App.tsx) and the handlers that
    change it, as pure state transformers. The clock-and-random ids, the
    random draws of the generator and the user's answer to the delete
    confirmation are parameters. */
module AppState {
  import opened Types
  import Ledger
  import MockData
  import TransactionForm

  datatype State = State(
    transactions: seq<Transaction>,
    isModalOpen: bool,
    isProcessing: bool,
    processingError: Option<string>,
    modalInitialData: Option<ExtractedData>,
    modalInitialType: TxType,
    notification: Option<string>,
    editingTransaction: Option<Transaction>)

  const AddedMessage: string := "Transação adicionada com sucesso!"
  const UpdatedMessage: string := "Transação atualizada com sucesso!"
  const DeletedMessage: string := "Transação excluída com sucesso!"
  const GeneratedMessage: string := "10 novas transações de teste foram geradas!"

  /** How many entries one press of "generate test data" adds. */
  const TestBatchSize: nat := 10

  /** The modal-related fields agree. */
  predicate SameModal(a: State, b: State) {
    && a.isModalOpen == b.isModalOpen
    && a.isProcessing == b.isProcessing
    && a.processingError == b.processingError
    && a.modalInitialData == b.modalInitialData
    && a.modalInitialType == b.modalInitialType
    && a.editingTransaction == b.editingTransaction
  }

  /** A first start with nothing saved: the seed ledger, the modal closed. */
  function InitialState(): (s: State)
    ensures s.transactions == MockData.MockTransactions()
    ensures UniqueIds(s.transactions)
    ensures !s.isModalOpen && !s.isProcessing && s.notification.None?
    ensures s.processingError.None? && s.modalInitialData.None?
    ensures s.modalInitialType == Expense && s.editingTransaction.None?
  {
    State(MockData.MockTransactions(), false, false, None, None, Expense, None, None)
  }

  /** `addTransaction`: prepend with a fresh id and announce it. */
  function AddTransaction(s: State, data: TxData, id: string): (r: State)
    ensures r.transactions == Ledger.AddTransaction(s.transactions, data, id)
    ensures r.notification == Some(AddedMessage)
    ensures SameModal(r, s)
  {
    s.(transactions := Ledger.AddTransaction(s.transactions, data, id),
       notification := Some(AddedMessage))
  }

  /** `updateTransaction`: replace by id and announce it. */
  function UpdateTransaction(s: State, updated: Transaction): (r: State)
    ensures r.transactions == Ledger.UpdateTransaction(s.transactions, updated)
    ensures Ids(r.transactions) == Ids(s.transactions)
    ensures r.notification == Some(UpdatedMessage)
    ensures SameModal(r, s)
  {
    Ledger.UpdateKeepsIds(s.transactions, updated);
    s.(transactions := Ledger.UpdateTransaction(s.transactions, updated),
       notification := Some(UpdatedMessage))
  }

  /** `deleteTransaction`: when the user confirms, remove by id and announce
      it; otherwise nothing happens at all. */
  function DeleteTransaction(s: State, id: string, confirmed: bool): (r: State)
    ensures !confirmed ==> r == s
    ensures confirmed ==> r.transactions == Ledger.DeleteTransaction(s.transactions, id, true)
    ensures confirmed ==> !HasId(r.transactions, id) && r.notification == Some(DeletedMessage)
    ensures SameModal(r, s)
  {
    if confirmed then
      s.(transactions := Ledger.DeleteTransaction(s.transactions, id, true),
         notification := Some(DeletedMessage))
    else s
  }

  /** `handleGenerateTestData`: append a generated batch of ten. */
  function GenerateTestData(s: State, draws: seq<MockData.Draw>): (r: State)
    requires |draws| == TestBatchSize
    requires forall i :: 0 <= i < |draws| ==> MockData.ValidDraw(draws[i])
    ensures |r.transactions| == |s.transactions| + TestBatchSize
    ensures r.transactions[..|s.transactions|] == s.transactions
    ensures r.transactions[|s.transactions|..] == MockData.GenerateMockTransactions(TestBatchSize, draws)
    ensures r.notification == Some(GeneratedMessage)
    ensures SameModal(r, s)
  {
    var batch := MockData.GenerateMockTransactions(TestBatchSize, draws);
    s.(transactions := Ledger.AppendTransactions(s.transactions, batch),
       notification := Some(GeneratedMessage))
  }

  /** `handleOpenModalForManual`: a clean form of the requested type. */
  function OpenModalForManual(s: State, txType: TxType): (r: State)
    ensures r.modalInitialData.None? && r.processingError.None? && !r.isProcessing
    ensures r.editingTransaction.None? && r.modalInitialType == txType && r.isModalOpen
    ensures r.transactions == s.transactions && r.notification == s.notification
  {
    s.(modalInitialData := None, processingError := None, isProcessing := false,
       editingTransaction := None, modalInitialType := txType, isModalOpen := true)
  }

  /** `handleStartEdit`: open the form on an existing entry. */
  function StartEdit(s: State, t: Transaction): (r: State)
    ensures r.editingTransaction == Some(t) && r.isModalOpen
    ensures r.transactions == s.transactions && r.modalInitialData == s.modalInitialData
    ensures r.isProcessing == s.isProcessing && r.processingError == s.processingError
    ensures r.modalInitialType == s.modalInitialType && r.notification == s.notification
  {
    s.(editingTransaction := Some(t), isModalOpen := true)
  }

  /** The immediate part of `closeModal`; the cleanup it schedules with a
      timer is not modelled. */
  function CloseModal(s: State): (r: State)
    ensures !r.isModalOpen
    ensures r.transactions == s.transactions && r.editingTransaction == s.editingTransaction
    ensures r.isProcessing == s.isProcessing && r.processingError == s.processingError
    ensures r.modalInitialData == s.modalInitialData && r.modalInitialType == s.modalInitialType
    ensures r.notification == s.notification
  {
    s.(isModalOpen := false)
  }

  /** What the form's submit does to the application: the add, update and
      close callbacks it called, in that order. */
  function ApplySubmit(s: State, e: TransactionForm.SubmitEffects, freshId: string): (r: State)
    ensures e.added.None? && e.updated.None? && !e.closed ==> r == s
    ensures e.added.Some? && e.updated.None? ==>
      r.transactions == Ledger.AddTransaction(s.transactions, e.added.value, freshId)
    ensures e.updated.Some? && e.added.None? ==>
      r.transactions == Ledger.UpdateTransaction(s.transactions, e.updated.value)
    ensures e.closed ==> !r.isModalOpen
  {
    var afterAdd := if e.added.Some? then AddTransaction(s, e.added.value, freshId) else s;
    var afterUpdate := if e.updated.Some? then UpdateTransaction(afterAdd, e.updated.value) else afterAdd;
    if e.closed then CloseModal(afterUpdate) else afterUpdate
  }

  // ---------------------------------------------------------------------
  // End-to-end properties

  /** Opening the form manually yields a new-entry form of the requested
      type that no stale extraction can overwrite. */
  lemma OpenManualGivesBlankForm(s: State, txType: TxType, today: Date)
    ensures
      var r := OpenModalForManual(s, txType);
      var d := TransactionForm.InitialDraft(r.modalInitialType, today);
      var filled := TransactionForm.MergeExtracted(
        TransactionForm.Prefill(d, r.editingTransaction, r.modalInitialType),
        r.modalInitialData, r.editingTransaction);
      filled == TransactionForm.InitialDraft(txType, today)
  {
  }

  /** A rejected submit leaves the application untouched. */
  lemma RejectedSubmitChangesNothing(s: State, d: TransactionForm.Draft, freshId: string)
    requires !TransactionForm.Complete(d)
    ensures ApplySubmit(s, TransactionForm.Submit(d, s.editingTransaction), freshId) == s
  {
  }

  /** A complete submit in edit mode replaces every entry carrying the
      edited id by the form's fields under that id, keeps all other entries,
      the length and the ids, and never adds; in add mode it grows the
      ledger by one entry at the front. Either way the form ends up closed. */
  lemma CompleteSubmitEffect(s: State, d: TransactionForm.Draft, freshId: string)
    requires TransactionForm.Complete(d)
    ensures
      var r := ApplySubmit(s, TransactionForm.Submit(d, s.editingTransaction), freshId);
      && !r.isModalOpen
      && (s.editingTransaction.Some? ==>
            var t := s.editingTransaction.value;
            && Ids(r.transactions) == Ids(s.transactions)
            && |r.transactions| == |s.transactions|
            && (forall i :: 0 <= i < |s.transactions| ==>
                  r.transactions[i]
                  == (if s.transactions[i].id == t.id then WithId(TransactionForm.DraftData(d), t.id)
                      else s.transactions[i]))
            && r.notification == Some(UpdatedMessage))
      && (s.editingTransaction.None? ==>
            r.transactions[1..] == s.transactions && |r.transactions| == |s.transactions| + 1
            && WithoutId(r.transactions[0]) == TransactionForm.DraftData(d)
            && r.notification == Some(AddedMessage))
  {
  }

  /** Editing an entry and saving it unchanged leaves a ledger with unique
      ids exactly as it was. */
  lemma EditWithoutChangesKeepsLedger(s: State, k: nat, initialType: TxType, freshId: string)
    requires UniqueIds(s.transactions)
    requires k < |s.transactions|
    requires s.transactions[k].description != "" && s.transactions[k].category != ""
    ensures
      var t := s.transactions[k];
      var e0 := StartEdit(s, t);
      var d := TransactionForm.Prefill(TransactionForm.InitialDraft(initialType, t.date), Some(t), initialType);
      var r := ApplySubmit(e0, TransactionForm.Submit(d, e0.editingTransaction), freshId);
      r.transactions == s.transactions
  {
    var t := s.transactions[k];
    var e0 := StartEdit(s, t);
    var d0 := TransactionForm.InitialDraft(initialType, t.date);
    var d := TransactionForm.Prefill(d0, Some(t), initialType);
    TransactionForm.PrefillSubmitRoundTrip(d0, t, initialType, None);
    assert TransactionForm.MergeExtracted(d, None, Some(t)) == d;
    var e := TransactionForm.Submit(d, Some(t));
    assert e.updated == Some(t) && e.added.None?;
    var r := ApplySubmit(e0, e, freshId);
    assert r.transactions == Ledger.UpdateTransaction(s.transactions, t);
    UpdateWithOwnEntry(s.transactions, k);
  }

  /** Updating with an entry already in a ledger with unique ids changes
      nothing. */
  lemma UpdateWithOwnEntry(txs: seq<Transaction>, k: nat)
    requires UniqueIds(txs)
    requires k < |txs|
    ensures Ledger.UpdateTransaction(txs, txs[k]) == txs
  {
    var u := Ledger.UpdateTransaction(txs, txs[k]);
    forall i | 0 <= i < |txs|
      ensures u[i] == txs[i]
    {
      if i != k {
        assert txs[i].id != txs[k].id;
      }
    }
  }
}
