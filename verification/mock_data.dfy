/** The category table, the seed ledger and the test-data generator of
    constants.ts. The generator's random draws are supplied by the caller as
    `Draw` records. */
module MockData {
  import opened Types

  /** The categories offered by the form, in display order. */
  const Categories: seq<string> := [
    "Alimentação",
    "Transporte",
    "Moradia",
    "Lazer",
    "Saúde",
    "Educação",
    "Salário",
    "Outros"
  ]

  const SalaryCategory: string := "Salário"
  const OtherCategory: string := "Outros"

  /** What the generator writes when a category has no descriptions. */
  const FallbackDescription: string := "Transação Aleatória"

  /** The ledger a first-time user starts with. */
  function MockTransactions(): (r: seq<Transaction>)
    ensures |r| == 8
    ensures UniqueIds(r)
    ensures forall i :: 0 <= i < |r| ==> r[i].category in Categories
    ensures forall i :: 0 <= i < |r| ==> ValidDate(r[i].date)
  {
    [
      Transaction("1", Expense, 35075, Date(2024, 7, 20), "Supermercado do Mês", "Alimentação"),
      Transaction("2", Expense, 15000, Date(2024, 7, 18), "Gasolina", "Transporte"),
      Transaction("3", Expense, 8050, Date(2024, 7, 15), "Cinema", "Lazer"),
      Transaction("4", Expense, 180000, Date(2024, 7, 12), "Aluguel", "Moradia"),
      Transaction("5", Expense, 9520, Date(2024, 7, 10), "Farmácia", "Saúde"),
      Transaction("6", Income, 550000, Date(2024, 7, 5), "Salário Julho", "Salário"),
      Transaction("7", Expense, 12000, Date(2024, 7, 22), "Jantar com amigos", "Alimentação"),
      Transaction("8", Expense, 25000, Date(2024, 6, 25), "Curso Online", "Educação")
    ]
  }

  /** Sample descriptions per category. */
  const MockDescriptions: map<string, seq<string>> := map[
    "Alimentação" := ["Padaria Pão Quente", "Restaurante Sabor Divino", "Mercado Central", "iFood"],
    "Transporte" := ["Uber", "99 Táxi", "Posto Shell", "Metrô"],
    "Moradia" := ["Conta de Luz - EDP", "Internet Fibra", "Condomínio", "Gás de Cozinha"],
    "Lazer" := ["Ingresso Cinema", "Show de Rock", "Assinatura Netflix", "Parque Aquático"],
    "Saúde" := ["Consulta Médica", "Remédios DrogaRaia", "Plano de Saúde"],
    "Educação" := ["Livro de Programação", "Mensalidade Coursera", "Material Escolar"],
    "Salário" := ["Adiantamento Salarial", "Pagamento Empresa X"],
    "Outros" := ["Presente de Aniversário", "Doação para Caridade", "Pet Shop"]
  ]

  /** The random choices behind one generated entry. The three rolls stand
      for `Math.random()` results in [0, 1); the id, the amount (in cents)
      and the date are whatever the application's clock and rounding
      produced. */
  datatype Draw = Draw(
    typeRoll: real,
    categoryRoll: real,
    descriptionRoll: real,
    id: string,
    amount: int,
    date: Date)

  predicate IsRoll(x: real) {
    0.0 <= x < 1.0
  }

  predicate ValidDraw(d: Draw) {
    IsRoll(d.typeRoll) && IsRoll(d.categoryRoll) && IsRoll(d.descriptionRoll)
  }

  /** `Math.floor(roll * n)`: an index into a list of length `n`. */
  function PickIndex(roll: real, n: nat): (k: nat)
    requires IsRoll(roll) && n > 0
    ensures k < n
  {
    assert roll * (n as real) < n as real by {
      RollScales(roll, n as real);
    }
    (roll * (n as real)).Floor
  }

  lemma RollScales(roll: real, n: real)
    requires IsRoll(roll) && n > 0.0
    ensures 0.0 <= roll * n < n
  {
  }

  /** The descriptions for a category, or the one-element fallback list. */
  function DescriptionsFor(category: string): (ds: seq<string>)
    ensures |ds| > 0
    ensures category in MockDescriptions ==> ds == MockDescriptions[category]
    ensures category !in MockDescriptions ==> ds == [FallbackDescription]
  {
    if category in MockDescriptions then MockDescriptions[category] else [FallbackDescription]
  }

  /** The categories an expense can be drawn from: all but the last two. */
  function ExpenseCategories(): (cs: seq<string>)
    ensures |cs| == |Categories| - 2
    ensures SalaryCategory !in cs && OtherCategory !in cs
    ensures forall i :: 0 <= i < |cs| ==> cs[i] in MockDescriptions
  {
    Categories[..|Categories| - 2]
  }

  /** One iteration of the generator's loop. */
  function GenerateOne(d: Draw): (t: Transaction)
    requires ValidDraw(d)
    ensures t.txType == (if d.typeRoll > 0.3 then Expense else Income)
    ensures t.txType == Income ==> t.category == SalaryCategory
    ensures t.txType == Expense ==> t.category in ExpenseCategories()
    ensures t.txType == Expense ==> t.category != SalaryCategory && t.category != OtherCategory
    ensures t.category in Categories
    ensures t.category in MockDescriptions && t.description in MockDescriptions[t.category]
    ensures t.description != FallbackDescription
    ensures t.id == d.id && t.amount == d.amount && t.date == d.date
  {
    var txType := if d.typeRoll > 0.3 then Expense else Income;
    var category :=
      if txType == Income then SalaryCategory
      else ExpenseCategories()[PickIndex(d.categoryRoll, |Categories| - 2)];
    var descriptions := DescriptionsFor(category);
    var description := descriptions[PickIndex(d.descriptionRoll, |descriptions|)];
    Transaction(d.id, txType, d.amount, d.date, description, category)
  }

  /** `generateMockTransactions(count)`, with one draw per entry. */
  function GenerateMockTransactions(count: nat, draws: seq<Draw>): (r: seq<Transaction>)
    requires |draws| == count
    requires forall i :: 0 <= i < |draws| ==> ValidDraw(draws[i])
    ensures |r| == count
    ensures forall i :: 0 <= i < count ==> r[i] == GenerateOne(draws[i])
    ensures forall i :: 0 <= i < count ==> r[i].id == draws[i].id
    ensures forall i :: 0 <= i < count ==> r[i].txType == Income ==> r[i].category == SalaryCategory
    ensures forall i :: 0 <= i < count ==>
      r[i].txType == Expense ==> r[i].category != SalaryCategory && r[i].category != OtherCategory
    ensures forall i :: 0 <= i < count ==>
      r[i].category in MockDescriptions && r[i].description in MockDescriptions[r[i].category]
  {
    if count == 0 then []
    else [GenerateOne(draws[0])] + GenerateMockTransactions(count - 1, draws[1..])
  }
}
