/**
 * The transaction table: the category options of its filter, the rows the selected
 * category shows, the colour of an amount and the width of the empty-state row.
 */
module TransactionList {
  import opened Wrappers
  import opened Js
  import opened Seqs
  import opened Text

  /** A date cell: 'N/A' without a timestamp, else the timestamp in the locale's date format. */
  datatype TxDate = NotAvailable | Localized(timestamp: Value)

  /** A row of the table. */
  datatype Tx = Tx(id: Value, date: TxDate, description: Value, category: Option<string>, amount: Number, kind: string)

  /** The category a row is filed under: `tx.category || 'Uncategorized'`. */
  function EffectiveCategory(tx: Tx): string {
    TextOr(tx.category, "Uncategorized")
  }

  function EffectiveCategories(txs: seq<Tx>): (r: seq<string>)
    ensures |r| == |txs|
    ensures forall i :: 0 <= i < |txs| ==> r[i] == EffectiveCategory(txs[i])
  {
    seq(|txs|, i requires 0 <= i < |txs| => EffectiveCategory(txs[i]))
  }

  /** `selectedCategory` starts as 'all'. */
  const AllCategories := "all"

  /** `categories`: 'all', then the distinct effective categories in ascending order. */
  function Categories(txs: Option<seq<Tx>>): seq<string> {
    if txs.None? then [AllCategories]
    else [AllCategories] + Sort(Dedup(EffectiveCategories(txs.value)))
  }

  /**
   * Without transactions the only option is 'all'. Otherwise 'all' comes first, the
   * rest are distinct and ascending, and they are exactly the effective categories.
   */
  lemma CategoriesMeaning(txs: Option<seq<Tx>>)
    ensures txs.None? ==> Categories(txs) == [AllCategories]
    ensures Categories(txs)[0] == AllCategories
    ensures StrictlySorted(Categories(txs)[1..])
    ensures txs.Some? ==> forall c :: c in Categories(txs)[1..] <==> exists tx :: tx in txs.value && EffectiveCategory(tx) == c
  {
    if txs.Some? {
      var all := EffectiveCategories(txs.value);
      var rest := Sort(Dedup(all));
      assert Categories(txs)[1..] == rest;
      forall c ensures c in rest <==> c in all {
        assert c in rest <==> c in multiset(rest);
      }
      forall c ensures c in all <==> exists tx :: tx in txs.value && EffectiveCategory(tx) == c {
        if c in all {
          var i :| 0 <= i < |all| && all[i] == c;
          assert txs.value[i] in txs.value;
        }
        if exists tx :: tx in txs.value && EffectiveCategory(tx) == c {
          var tx :| tx in txs.value && EffectiveCategory(tx) == c;
          var i :| 0 <= i < |txs.value| && txs.value[i] == tx;
          assert all[i] == c;
        }
      }
    }
  }

  predicate InCategory(tx: Tx, selected: string) {
    EffectiveCategory(tx) == selected
  }

  /** `filteredTransactions`. */
  function FilteredTransactions(txs: Option<seq<Tx>>, selected: string): seq<Tx> {
    if txs.None? then []
    else if selected == AllCategories then txs.value
    else Filter(txs.value, (tx: Tx) => InCategory(tx, selected))
  }

  /**
   * 'all' shows every row; another category shows, in their order, exactly the rows
   * filed under it, each as often as it occurs.
   */
  lemma FilteredTransactionsMeaning(txs: seq<Tx>, selected: string)
    ensures selected == AllCategories ==> FilteredTransactions(Some(txs), selected) == txs
    ensures selected != AllCategories ==>
      var r := FilteredTransactions(Some(txs), selected);
      IsSubsequence(r, txs)
      && (forall tx :: tx in r <==> tx in txs && EffectiveCategory(tx) == selected)
      && (forall tx :: EffectiveCategory(tx) == selected ==> multiset(r)[tx] == multiset(txs)[tx])
  {
  }

  const Red := "text-red-600 dark:text-red-400"
  const Green := "text-green-600 dark:text-green-400"
  const Neutral := "text-gray-900 dark:text-white"

  /** `getAmountColor(type, amount)`. */
  function AmountColor(kind: string, amount: Number): (c: string)
    ensures c == Red <==> amount.Num? && amount.value < 0.0
    ensures c == Green <==> amount.Num? && amount.value > 0.0 && kind == "income"
    ensures c == Neutral <==> !(amount.Num? && amount.value < 0.0) && !(amount.Num? && amount.value > 0.0 && kind == "income")
  {
    if amount.Num? && amount.value < 0.0 then Red
    else if amount.Num? && amount.value > 0.0 && kind == "income" then Green
    else Neutral
  }

  /** A column of the table. */
  datatype Column = DateColumn | DescriptionColumn | CategoryColumn | AmountColumn | ActionsColumn

  /** The header row: four fixed heads, then "Actions" when an edit or delete handler is given. */
  function Columns(hasOnEdit: bool, hasOnDelete: bool): seq<Column> {
    [DateColumn, DescriptionColumn, CategoryColumn, AmountColumn]
    + (if hasOnEdit || hasOnDelete then [ActionsColumn] else [])
  }

  /** A cell of a transaction's row; the actions cell holds an edit and a delete button as its handlers are given. */
  datatype Cell =
    | DateCell(date: TxDate)
    | DescriptionCell(description: Value)
    | CategoryCell(category: Option<string>)
    | AmountCell(color: string, amount: Number)
    | ActionsCell(editButton: bool, deleteButton: bool)

  /** The cells of one transaction's row. */
  function RowCells(tx: Tx, hasOnEdit: bool, hasOnDelete: bool): seq<Cell> {
    [DateCell(tx.date), DescriptionCell(tx.description), CategoryCell(tx.category),
     AmountCell(AmountColor(tx.kind, tx.amount), tx.amount)]
    + (if hasOnEdit || hasOnDelete then [ActionsCell(hasOnEdit, hasOnDelete)] else [])
  }

  /** The cell is of the column's kind. */
  predicate CellFits(c: Cell, col: Column) {
    match c
    case DateCell(_) => col == DateColumn
    case DescriptionCell(_) => col == DescriptionColumn
    case CategoryCell(_) => col == CategoryColumn
    case AmountCell(_, _) => col == AmountColumn
    case ActionsCell(_, _) => col == ActionsColumn
  }

  /** Every transaction row has one cell per header, each under the head of its kind. */
  lemma RowMatchesColumns(tx: Tx, hasOnEdit: bool, hasOnDelete: bool)
    ensures |RowCells(tx, hasOnEdit, hasOnDelete)| == |Columns(hasOnEdit, hasOnDelete)|
    ensures forall i :: 0 <= i < |Columns(hasOnEdit, hasOnDelete)| ==>
      CellFits(RowCells(tx, hasOnEdit, hasOnDelete)[i], Columns(hasOnEdit, hasOnDelete)[i])
  {
  }

  /**
   * The `colSpan` of the empty-state row: an action column is added when a handler is
   * given, so the row spans exactly the table's columns.
   */
  function EmptyRowColSpan(hasOnEdit: bool, hasOnDelete: bool): (n: nat)
    ensures n == |Columns(hasOnEdit, hasOnDelete)|
    ensures n == 5 <==> hasOnEdit || hasOnDelete
    ensures n == 4 <==> !hasOnEdit && !hasOnDelete
  {
    if hasOnEdit || hasOnDelete then 5 else 4
  }
}
