/** The add/edit form of components/AddTransactionModal.tsx: its draft state,
    the two effects that fill the draft (edit-mode prefill and the merge of
    extracted receipt data) and the submit handler, which either rejects
    the draft or hands it to the ledger and closes the form. */
module TransactionForm {
  import opened Types
  import MockData

  /** The form's fields. An empty amount or date input is `None`; the
      amount is held already parsed, in cents. */
  datatype Draft = Draft(
    txType: TxType,
    amount: Option<int>,
    date: Option<Date>,
    description: string,
    category: string)

  /** What a submit does: the error it shows and which of the three
      callbacks (add, update, close) it calls, with what. */
  datatype SubmitEffects = SubmitEffects(
    formError: Option<string>,
    added: Option<TxData>,
    updated: Option<Transaction>,
    closed: bool)

  const MissingFieldsMessage: string := "Por favor, preencha todos os campos."

  /** The draft when the form mounts: the requested type, no amount, today's
      date, no description and the first category. */
  function InitialDraft(initialType: TxType, today: Date): (d: Draft)
    ensures d.txType == initialType && d.amount == None && d.date == Some(today)
    ensures d.description == "" && d.category == MockData.Categories[0]
  {
    Draft(initialType, None, Some(today), "", MockData.Categories[0])
  }

  /** The edit-mode prefill effect. Editing copies every field of the
      edited entry; otherwise only the type is reset to `initialType`. */
  function Prefill(d: Draft, toEdit: Option<Transaction>, initialType: TxType): (r: Draft)
    ensures toEdit.Some? ==>
      && r.txType == toEdit.value.txType
      && r.amount == Some(toEdit.value.amount)
      && r.date == Some(toEdit.value.date)
      && r.description == toEdit.value.description
      && r.category == toEdit.value.category
    ensures toEdit.None? ==>
      r.txType == initialType && r.amount == d.amount && r.date == d.date
      && r.description == d.description && r.category == d.category
  {
    match toEdit
    case Some(t) => Draft(t.txType, Some(t.amount), Some(t.date), t.description, t.category)
    case None => d.(txType := initialType)
  }

  /** The description an extraction proposes: `descricao`, else
      `estabelecimento`, else nothing. */
  function ExtractedDescription(x: ExtractedData): (desc: string)
    ensures x.descricao != "" ==> desc == x.descricao
    ensures x.descricao == "" ==> desc == x.estabelecimento
  {
    if x.descricao != "" then x.descricao else x.estabelecimento
  }

  /** The extracted-data merge effect. It only acts on a new entry: an amount
      (when present and non-zero, the source's truthiness test), a date and
      a description replace the draft's only when the extraction has them;
      the type always becomes an expense; the category is never touched. */
  function MergeExtracted(d: Draft, initialData: Option<ExtractedData>, toEdit: Option<Transaction>): (r: Draft)
    ensures initialData.None? || toEdit.Some? ==> r == d
    ensures initialData.Some? && toEdit.None? ==>
      var x := initialData.value;
      && r.txType == Expense
      && r.amount == (if x.valor.Some? && x.valor.value != 0 then Some(x.valor.value) else d.amount)
      && r.date == (if x.data.Some? then x.data else d.date)
      && r.description
         == (if x.descricao != "" then x.descricao
             else if x.estabelecimento != "" then x.estabelecimento
             else d.description)
      && r.category == d.category
  {
    if initialData.None? || toEdit.Some? then d
    else
      var x := initialData.value;
      var amount := if x.valor.Some? && x.valor.value != 0 then Some(x.valor.value) else d.amount;
      var date := if x.data.Some? then x.data else d.date;
      var desc := ExtractedDescription(x);
      var description := if desc != "" then desc else d.description;
      d.(txType := Expense, amount := amount, date := date, description := description)
  }

  /** The four fields the submit check requires to be non-empty. */
  predicate Complete(d: Draft) {
    d.amount.Some? && d.description != "" && d.category != "" && d.date.Some?
  }

  /** The record a complete draft describes. */
  function DraftData(d: Draft): (data: TxData)
    requires Complete(d)
    ensures data.txType == d.txType && Some(data.amount) == d.amount && Some(data.date) == d.date
    ensures data.description == d.description && data.category == d.category
  {
    TxData(d.txType, d.amount.value, d.date.value, d.description, d.category)
  }

  /** The submit handler. An incomplete draft only sets the error message;
      a complete one is passed to update (keeping the edited entry's id) or
      to add, and then the form is closed. */
  function Submit(d: Draft, toEdit: Option<Transaction>): (e: SubmitEffects)
    ensures e.formError.Some? <==> !Complete(d)
    ensures !Complete(d) ==>
      e.formError == Some(MissingFieldsMessage) && e.added.None? && e.updated.None? && !e.closed
    ensures Complete(d) && toEdit.Some? ==>
      && e.updated.Some? && e.updated.value.id == toEdit.value.id
      && WithoutId(e.updated.value) == DraftData(d)
      && e.added.None? && e.closed
    ensures Complete(d) && toEdit.None? ==>
      e.added == Some(DraftData(d)) && e.updated.None? && e.closed
  {
    if !Complete(d) then
      SubmitEffects(Some(MissingFieldsMessage), None, None, false)
    else
      var data := DraftData(d);
      match toEdit
      case Some(t) => SubmitEffects(None, None, Some(WithId(data, t.id)), true)
      case None => SubmitEffects(None, Some(data), None, true)
  }

  // ---------------------------------------------------------------------
  // Properties relating the steps

  /** Merging the same extraction twice is merging it once. */
  lemma MergeIdempotent(d: Draft, initialData: Option<ExtractedData>, toEdit: Option<Transaction>)
    ensures MergeExtracted(MergeExtracted(d, initialData, toEdit), initialData, toEdit)
         == MergeExtracted(d, initialData, toEdit)
  {
  }

  /** Opening an entry for editing and submitting without changes updates
      the ledger with that very entry, provided its text fields are not
      empty; otherwise the submit is rejected. */
  lemma PrefillSubmitRoundTrip(d: Draft, t: Transaction, initialType: TxType, initialData: Option<ExtractedData>)
    ensures
      var filled := MergeExtracted(Prefill(d, Some(t), initialType), initialData, Some(t));
      var e := Submit(filled, Some(t));
      (t.description != "" && t.category != "" ==> e.updated == Some(t) && e.added.None? && e.closed)
      && (t.description == "" || t.category == "" ==> e.formError.Some? && !e.closed)
  {
    var filled := MergeExtracted(Prefill(d, Some(t), initialType), initialData, Some(t));
    if t.description != "" && t.category != "" {
      WithIdWithoutId(t);
      assert DraftData(filled) == WithoutId(t);
    }
  }

  /** A new-entry form built from an extraction with an amount and a
      description submits an expense carrying exactly the extracted values. */
  lemma ExtractionSubmitsExpense(initialType: TxType, today: Date, x: ExtractedData)
    requires x.valor.Some? && x.valor.value != 0
    requires x.descricao != ""
    ensures
      var filled := MergeExtracted(Prefill(InitialDraft(initialType, today), None, initialType), Some(x), None);
      var e := Submit(filled, None);
      && e.added.Some?
      && e.added.value.txType == Expense
      && e.added.value.amount == x.valor.value
      && e.added.value.description == x.descricao
      && e.added.value.date == (if x.data.Some? then x.data.value else today)
      && e.added.value.category == MockData.Categories[0]
  {
  }
}
