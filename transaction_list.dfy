/** The transaction list card: the category badge styles, the list sorted
    newest first and cut to the number of rows on display, the "load more"
    button that shows ten more, and what the card renders from that state. */
module TransactionList {
  import opened Seqs
  import opened Optional
  import opened MockData

  /** The badge style of each category that has one. */
  const CategoryStyles: map<string, string> := map[
    "Dining" := "bg-[#FEF3C7] text-[#F59E0B] border-[#F59E0B]/20",
    "Groceries" := "bg-[#DCFCE7] text-[#22C55E] border-[#22C55E]/20",
    "Transport" := "bg-[#DBEAFE] text-[#3B82F6] border-[#3B82F6]/20",
    "Entertainment" := "bg-[#F3E8FF] text-[#A855F7] border-[#A855F7]/20",
    "Shopping" := "bg-[#FCE7F3] text-[#EC4899] border-[#EC4899]/20",
    "Bills" := "bg-[#F5EDE4] text-[#7A6152] border-[#7A6152]/20",
    "Health" := "bg-[#FEE2E2] text-[#EF4444] border-[#EF4444]/20",
    "Income" := "bg-[#DCFCE7] text-[#22C55E] border-[#22C55E]/20"
  ]

  const DefaultStyle: string := "bg-[#FFF4E6] text-[#9B8477] border-[#E8DED2]"

  /** `getCategoryStyle`: the category's own style, or the default one. */
  function GetCategoryStyle(category: string): string {
    if category in CategoryStyles && CategoryStyles[category] != "" then CategoryStyles[category]
    else DefaultStyle
  }

  /** No category's own style is empty or the default one: each differs
      from it in the background colour's second hex digit. */
  lemma StylesDifferFromDefault()
    ensures forall c :: c in CategoryStyles ==> |CategoryStyles[c]| > 6 && CategoryStyles[c][6] != DefaultStyle[6]
  {
    var m := CategoryStyles;
    assert m["Dining"][6] == 'E';
    assert m["Groceries"][6] == 'C';
    assert m["Transport"][6] == 'B';
    assert m["Entertainment"][6] == '3';
    assert m["Shopping"][6] == 'C';
    assert m["Bills"][6] == '5';
    assert m["Health"][6] == 'E';
    assert m["Income"][6] == 'C';
    assert DefaultStyle[6] == 'F';
    assert m.Keys == {"Dining", "Groceries", "Transport", "Entertainment", "Shopping", "Bills", "Health", "Income"};
  }

  /** A category with a style of its own gets it and every other name,
      including a differently cased one, gets the default. */
  lemma GetCategoryStyleCases(category: string)
    ensures GetCategoryStyle(category) == DefaultStyle <==> category !in CategoryStyles
    ensures category in CategoryStyles ==> GetCategoryStyle(category) == CategoryStyles[category]
  {
    StylesDifferFromDefault();
  }

  /** In the data, every category but rent has a badge style of its own,
      and income badges look like groceries badges. */
  lemma CategoryStylesOfData(today: int)
    ensures forall t :: t in Transactions(today) ==>
              (GetCategoryStyle(t.category) == DefaultStyle <==> t.category == "Rent")
    ensures GetCategoryStyle("Income") == GetCategoryStyle("Groceries")
  {
    assert "Rent" !in CategoryStyles;
    forall t | t in Transactions(today)
      ensures GetCategoryStyle(t.category) == DefaultStyle <==> t.category == "Rent"
    {
      GetCategoryStyleCases(t.category);
    }
  }

  /** The rows on display: the list sorted newest first, cut at `count`. */
  function Visible(txs: seq<Transaction>, count: int): seq<Transaction> {
    RecentTransactions(txs, count)
  }

  /** `displayCount < sortedTransactions.length`. */
  predicate HasMore(txs: seq<Transaction>, count: int) {
    count < |txs|
  }

  /** With a count that is not negative, the first `min(count, n)` sorted
      rows are shown, and the button shows exactly when some row is not. A
      negative count cuts rows from the end instead, and then the button
      always shows. */
  lemma VisibleCorrect(txs: seq<Transaction>, count: int)
    ensures var v := Visible(txs, count);
            && v <= SortByDateDesc(txs)
            && SortedByDateDesc(v)
            && multiset(v) <= multiset(txs)
            && (0 <= count ==> |v| == if count < |txs| then count else |txs|)
            && (0 <= count ==> (HasMore(txs, count) <==> |v| < |txs|))
            && (count < 0 ==> HasMore(txs, count) && |v| == if |txs| + count < 0 then 0 else |txs| + count)
  {
    RecentTransactionsCorrect(txs, count);
    SortByDateDescCorrect(txs);
  }

  /** Showing more rows keeps the rows already shown at the top, and ten
      more rows appear until the list runs out. */
  lemma {:induction false} LoadMoreExtends(txs: seq<Transaction>, count: int)
    requires 0 <= count
    ensures Visible(txs, count) <= Visible(txs, count + 10)
    ensures |Visible(txs, count + 10)| == if count + 10 < |txs| then count + 10 else |txs|
    ensures HasMore(txs, count) ==> |Visible(txs, count)| < |Visible(txs, count + 10)|
  {
    var sorted := SortByDateDesc(txs);
    SortByDateDescCorrect(txs);
    var a, b := Visible(txs, count), Visible(txs, count + 10);
    assert a <= sorted && b <= sorted && |a| <= |b|;
    assert forall i :: 0 <= i < |a| ==> a[i] == sorted[i] == b[i];
  }

  /** One rendered row: the transaction's text, its badge style, and the
      sign in front of the amount in the wide table and on small screens. */
  datatype Row = Row(description: string, category: string, style: string,
                     wideSign: string, narrowSign: string, amount: real)

  function RowOf(t: Transaction): Row {
    Row(t.description, t.category, GetCategoryStyle(t.category),
        if t.kind == Income then "+" else "-",
        if t.kind == Income then "+" else "",
        t.amount)
  }

  /** What the card shows under its header. */
  datatype Body = EmptyState | Rows(rows: seq<Row>, loadMore: bool)

  /** The whole card: the title, the item count of the header and the body. */
  datatype Card = Card(title: string, itemCount: nat, body: Body)

  /** The card for a transaction list, a title and a row count. */
  function Render(txs: seq<Transaction>, title: Option<string>, count: int): Card {
    var v := Visible(txs, count);
    Card(title.GetOr("Recent Transactions"), |txs|,
         if |txs| == 0 then EmptyState
         else Rows(seq(|v|, i requires 0 <= i < |v| => RowOf(v[i])), HasMore(txs, count)))
  }

  /** The header counts every transaction, not the rows shown; the empty
      state shows exactly when there are none; otherwise the rows are the
      visible transactions in order, each with its category's badge and a
      sign that tells income from expenses, and the button shows exactly
      when the list is cut short. */
  lemma RenderCorrect(txs: seq<Transaction>, title: Option<string>, count: int)
    ensures var c := Render(txs, title, count);
            && c.itemCount == |txs|
            && (title.None? ==> c.title == "Recent Transactions")
            && (c.body.EmptyState? <==> txs == [])
            && (c.body.Rows? ==>
                  var v := Visible(txs, count);
                  && |c.body.rows| == |v|
                  && (forall i :: 0 <= i < |v| ==>
                        && c.body.rows[i].description == v[i].description
                        && c.body.rows[i].style == GetCategoryStyle(v[i].category)
                        && (c.body.rows[i].wideSign == "+" <==> v[i].kind == Income)
                        && (c.body.rows[i].narrowSign == "" <==> v[i].kind == Expense))
                  && (c.body.loadMore <==> count < |txs|))
  {
  }

  /** The card's state: the transactions it was given, which it never
      changes (it sorts a copy), and how many rows it shows. */
  class ListView {
    const transactions: seq<Transaction>
    var displayCount: int

    /** `useState(limit)`, with `limit` defaulting to 10. */
    constructor (transactions: seq<Transaction>, limit: Option<int>)
      ensures this.transactions == transactions
      ensures displayCount == limit.GetOr(10)
    {
      this.transactions := transactions;
      displayCount := limit.GetOr(10);
    }

    function Shown(): seq<Transaction>
      reads this
    {
      Visible(transactions, displayCount)
    }

    /** The "load more" button: ten more rows. */
    method LoadMore()
      modifies this
      ensures displayCount == old(displayCount) + 10
      ensures old(displayCount) >= 0 ==>
                old(Shown()) <= Shown() && |Shown()| == if displayCount < |transactions| then displayCount else |transactions|
    {
      if displayCount >= 0 {
        LoadMoreExtends(transactions, displayCount);
      }
      displayCount := displayCount + 10;
    }
  }

  /** A card opened with the default count and clicked once shows the first
      twenty rows, or all of them. */
  method OpenAndLoadMore(txs: seq<Transaction>) returns (shown: seq<Transaction>)
    ensures shown == Visible(txs, 20)
    ensures |shown| == if 20 < |txs| then 20 else |txs|
    ensures shown <= SortByDateDesc(txs)
  {
    var view := new ListView(txs, None);
    view.LoadMore();
    shown := view.Shown();
    VisibleCorrect(txs, 20);
  }
}
