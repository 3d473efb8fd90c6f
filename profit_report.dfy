/**
 * The profitability report of reports/views.py (`relatorio_lucratividade`):
 * the completed sales of a period, the cost, profit and margin of each of
 * the latest items sold, and a per-product summary with overall totals,
 * sorted by profit.
 *
 * Money is in cents; a product's cost price may be empty, and then counts as
 * zero. Margins are percentages, kept exact as `real`.
 */
module ProfitReport {
  import opened Wrappers
  import opened Filters
  import opened SalesModels
  import CashReport
  import opened Numerals

  // ---------------------------------------------------------------------------
  // Cost, profit and margin

  /** `lucro * 100 / receita` when the revenue is positive, otherwise 0. */
  function Margin(lucro: int, receita: int): (m: real)
    ensures receita > 0 ==> m * receita as real == lucro as real * 100.0
    ensures receita <= 0 ==> m == 0.0
  {
    if receita > 0 then (lucro * 100) as real / receita as real else 0.0
  }

  /** What some quantity of a product cost, what it made, and the margin on its revenue. */
  datatype Figures = Figures(custo: int, lucro: int, margem: real)

  function Profitability(precoCusto: Option<int>, quantidade: nat, receita: int): (f: Figures)
    ensures f.custo == precoCusto.GetOr(0) * quantidade
    ensures f.lucro + f.custo == receita
    ensures f.margem == Margin(f.lucro, receita)
  {
    var custo := precoCusto.GetOr(0) * quantidade;
    var lucro := receita - custo;
    Figures(custo, lucro, Margin(lucro, receita))
  }

  /**
   * With a positive revenue and a cost that is not negative, the margin is at
   * most 100%, reaches 100% exactly when nothing was spent, and is negative
   * exactly when the cost exceeds the revenue.
   */
  lemma MarginBounds(precoCusto: Option<int>, quantidade: nat, receita: int)
    requires receita > 0 && precoCusto.GetOr(0) >= 0
    ensures var f := Profitability(precoCusto, quantidade, receita);
            && f.margem <= 100.0
            && (f.margem == 100.0 <==> f.custo == 0)
            && (f.margem < 0.0 <==> f.custo > receita)
  {
    var f := Profitability(precoCusto, quantidade, receita);
    NonNegativeProduct(precoCusto.GetOr(0), quantidade);
    var r, x := receita as real, f.lucro as real * 100.0;
    MarginOrder(f.margem, r, 100.0, x);
    MarginOrder(f.margem, r, 0.0, x);
  }

  lemma NonNegativeProduct(a: int, b: nat)
    requires a >= 0
    ensures a * b >= 0
  {
  }

  /** Dividing by a positive `r` keeps comparisons: `m * r == x` compares with `c` as `x` does with `c * r`. */
  lemma MarginOrder(m: real, r: real, c: real, x: real)
    requires r > 0.0 && m * r == x
    ensures m <= c <==> x <= c * r
    ensures m == c <==> x == c * r
    ensures m < c <==> x < c * r
  {
    assert (m - c) * r == x - c * r;
    if m < c {
      assert (c - m) * r > 0.0;
    } else if m > c {
      assert (m - c) * r > 0.0;
    }
  }

  // ---------------------------------------------------------------------------
  // The period and the latest items

  const ItemLimit: nat := 100
  const DefaultDays: int := 30

  /** The period of the request, in day numbers; absent or empty parameters are `None`. */
  datatype Period = Period(dataInicio: Option<int>, dataFim: Option<int>)

  /**
   * From the start date's midnight (default: thirty days before now); up to,
   * but excluding, the midnight after the end date only when an end date is
   * given: without one there is no upper bound.
   */
  predicate InPeriod(t: int, p: Period, now: int) {
    var lo := if p.dataInicio.Some? then p.dataInicio.value * CashReport.SecondsPerDay else now - DefaultDays * CashReport.SecondsPerDay;
    && lo <= t
    && (p.dataFim.Some? ==> t < (p.dataFim.value + 1) * CashReport.SecondsPerDay)
  }

  /** An ItemVenda row with what the report reads of its sale and its product. */
  datatype SoldItem = SoldItem(dataHora: int, status: Status, nome: string, precoCusto: Option<int>, quantidade: nat, subtotal: int)

  /** The items of the completed sales of the period. */
  predicate Counts(it: SoldItem, p: Period, now: int) {
    it.status == Concluida && InPeriod(it.dataHora, p, now)
  }

  function CountsTest(p: Period, now: int): SoldItem -> bool {
    (it: SoldItem) => Counts(it, p, now)
  }

  /**
   * With no end date, a completed item counts however late it was sold, so
   * long as it is not before the start.
   */
  lemma OpenEnded(it: SoldItem, now: int, d: int)
    requires it.status == Concluida && it.dataHora >= d * CashReport.SecondsPerDay
    ensures Counts(it, Period(Some(d), None), now)
  {
  }

  /** An item with its cost, profit and margin. */
  datatype AnnotatedItem = AnnotatedItem(item: SoldItem, custoTotal: int, lucro: int, margemLucro: real)

  function Annotate(it: SoldItem): (a: AnnotatedItem)
    ensures a.item == it
    ensures var f := Profitability(it.precoCusto, it.quantidade, it.subtotal);
            a.custoTotal == f.custo && a.lucro == f.lucro && a.margemLucro == f.margem
    ensures a.custoTotal == ItemCost(it) && a.lucro == it.subtotal - a.custoTotal
  {
    var f := Profitability(it.precoCusto, it.quantidade, it.subtotal);
    AnnotatedItem(it, f.custo, f.lucro, f.margem)
  }

  function Min(a: int, b: int): int {
    if a <= b then a else b
  }

  /**
   * `itens_vendidos`: the first hundred items of the period's completed sales
   * (the rows arrive newest sale first), each with its cost, profit and margin.
   */
  method AnnotateItems(items: seq<SoldItem>, p: Period, now: int) returns (annotated: seq<AnnotatedItem>)
    ensures var selected := Filter(items, CountsTest(p, now));
            && |annotated| == Min(ItemLimit, |selected|)
            && forall k :: 0 <= k < |annotated| ==> annotated[k] == Annotate(selected[k])
  {
    var selected := Filter(items, CountsTest(p, now));
    var raw := selected[..Min(ItemLimit, |selected|)];
    annotated := [];
    for k := 0 to |raw|
      invariant |annotated| == k
      invariant forall m :: 0 <= m < k ==> annotated[m] == Annotate(raw[m])
    {
      annotated := annotated + [Annotate(raw[k])];
    }
  }

  // ---------------------------------------------------------------------------
  // The per-product summary

  /** A row of `resumo_produtos` as the database returns it: one product (name and cost price) with its sums. */
  datatype ProductRow = ProductRow(nome: string, precoCusto: Option<int>, quantidadeVendida: nat, receitaTotal: int)

  /** A row of `resumo_list`. */
  datatype SummaryRow = SummaryRow(nome: string, quantidadeVendida: nat, receitaTotal: int, custoTotal: int, lucroTotal: int, margemLucro: real)

  function Summarize(r: ProductRow): (s: SummaryRow)
    ensures s.nome == r.nome && s.quantidadeVendida == r.quantidadeVendida && s.receitaTotal == r.receitaTotal
    ensures var f := Profitability(r.precoCusto, r.quantidadeVendida, r.receitaTotal);
            s.custoTotal == f.custo && s.lucroTotal == f.lucro && s.margemLucro == f.margem
    ensures s.custoTotal == r.precoCusto.GetOr(0) * r.quantidadeVendida && s.lucroTotal == s.receitaTotal - s.custoTotal
  {
    var f := Profitability(r.precoCusto, r.quantidadeVendida, r.receitaTotal);
    SummaryRow(r.nome, r.quantidadeVendida, r.receitaTotal, f.custo, f.lucro, f.margem)
  }

  /** The summary rows, in the order of the database rows. */
  function Summaries(rows: seq<ProductRow>): (s: seq<SummaryRow>)
    ensures |s| == |rows|
  {
    if rows == [] then [] else Summaries(rows[..|rows| - 1]) + [Summarize(rows[|rows| - 1])]
  }

  lemma {:induction false} SummariesAt(rows: seq<ProductRow>, k: nat)
    requires k < |rows|
    ensures Summaries(rows)[k] == Summarize(rows[k])
    decreases |rows|
  {
    if k < |rows| - 1 {
      SummariesAt(rows[..|rows| - 1], k);
    }
  }

  function TotalRevenue(rows: seq<ProductRow>): int {
    if rows == [] then 0 else TotalRevenue(rows[..|rows| - 1]) + rows[|rows| - 1].receitaTotal
  }

  function TotalCost(rows: seq<ProductRow>): int {
    if rows == [] then 0 else TotalCost(rows[..|rows| - 1]) + Summarize(rows[|rows| - 1]).custoTotal
  }

  /** The overall profit is the sum of the products' profits. */
  function TotalProfit(rows: seq<ProductRow>): int {
    if rows == [] then 0 else TotalProfit(rows[..|rows| - 1]) + Summarize(rows[|rows| - 1]).lucroTotal
  }

  /** Summing the products' profits gives the overall revenue less the overall cost. */
  lemma {:induction false} TotalProfitIsRevenueLessCost(rows: seq<ProductRow>)
    ensures TotalProfit(rows) == TotalRevenue(rows) - TotalCost(rows)
    decreases |rows|
  {
    if rows != [] {
      TotalProfitIsRevenueLessCost(rows[..|rows| - 1]);
    }
  }

  /**
   * The loop over `resumo_produtos`: one summary row per product, in order,
   * and the running totals of revenue, cost and profit.
   */
  method SummarizeRows(rows: seq<ProductRow>) returns (resumo: seq<SummaryRow>, receita: int, custo: int, lucro: int)
    ensures resumo == Summaries(rows)
    ensures receita == TotalRevenue(rows) && custo == TotalCost(rows) && lucro == TotalProfit(rows)
    ensures lucro == receita - custo
  {
    resumo, receita, custo, lucro := [], 0, 0, 0;
    for k := 0 to |rows|
      invariant resumo == Summaries(rows[..k])
      invariant receita == TotalRevenue(rows[..k]) && custo == TotalCost(rows[..k]) && lucro == TotalProfit(rows[..k])
      invariant lucro == receita - custo
    {
      assert rows[..k + 1][..k] == rows[..k];
      var row := Summarize(rows[k]);
      resumo := resumo + [row];
      receita := receita + row.receitaTotal;
      custo := custo + row.custoTotal;
      lucro := lucro + row.lucroTotal;
    }
    assert rows[..|rows|] == rows;
  }

  // ---------------------------------------------------------------------------
  // resumo_produtos: the period's items grouped by product

  /** The cost of an item: its product's cost price (0 when empty) times the quantity. */
  function ItemCost(it: SoldItem): int {
    it.precoCusto.GetOr(0) * it.quantidade
  }

  function SumQuantities(items: seq<SoldItem>): nat {
    if items == [] then 0 else SumQuantities(items[..|items| - 1]) + items[|items| - 1].quantidade
  }

  function SumSubtotals(items: seq<SoldItem>): int {
    if items == [] then 0 else SumSubtotals(items[..|items| - 1]) + items[|items| - 1].subtotal
  }

  function SumItemCosts(items: seq<SoldItem>): int {
    if items == [] then 0 else SumItemCosts(items[..|items| - 1]) + ItemCost(items[|items| - 1])
  }

  /** The test "this item is of the product with this name and cost price". */
  function OfProduct(nome: string, precoCusto: Option<int>): SoldItem -> bool {
    (it: SoldItem) => it.nome == nome && it.precoCusto == precoCusto
  }

  /** The row the query gives one product: the summed quantity and subtotal of that product's items. */
  function ProductOf(items: seq<SoldItem>, nome: string, precoCusto: Option<int>): ProductRow {
    var grupo := Filter(items, OfProduct(nome, precoCusto));
    ProductRow(nome, precoCusto, SumQuantities(grupo), SumSubtotals(grupo))
  }

  predicate SameProduct(r: ProductRow, it: SoldItem) {
    r.nome == it.nome && r.precoCusto == it.precoCusto
  }

  function NewRow(it: SoldItem): ProductRow {
    ProductRow(it.nome, it.precoCusto, it.quantidade, it.subtotal)
  }

  function Added(r: ProductRow, it: SoldItem): ProductRow {
    r.(quantidadeVendida := r.quantidadeVendida + it.quantidade, receitaTotal := r.receitaTotal + it.subtotal)
  }

  /** Counts one more item: into the row of its product, or in a new row at the end. */
  function AddItem(rows: seq<ProductRow>, it: SoldItem): seq<ProductRow> {
    if rows == [] then [NewRow(it)]
    else if SameProduct(rows[0], it) then [Added(rows[0], it)] + rows[1..]
    else [rows[0]] + AddItem(rows[1..], it)
  }

  /**
   * `values('produto__nome', 'produto__preco_custo').annotate(quantidade_vendida=Sum('quantidade'),
   * receita_total=Sum('subtotal'))`: one row per product, in the order the products first appear.
   */
  function GroupByProduct(items: seq<SoldItem>): seq<ProductRow> {
    if items == [] then [] else AddItem(GroupByProduct(items[..|items| - 1]), items[|items| - 1])
  }

  /** The first row of the product with this name and cost price. */
  function Lookup(rows: seq<ProductRow>, nome: string, precoCusto: Option<int>): (r: Option<ProductRow>)
    ensures r.Some? ==> r.value in rows && r.value.nome == nome && r.value.precoCusto == precoCusto
  {
    if rows == [] then None
    else if rows[0].nome == nome && rows[0].precoCusto == precoCusto then Some(rows[0])
    else Lookup(rows[1..], nome, precoCusto)
  }

  /** No product has two rows. */
  predicate Distinct(rows: seq<ProductRow>) {
    rows == [] || (Lookup(rows[1..], rows[0].nome, rows[0].precoCusto).None? && Distinct(rows[1..]))
  }

  lemma {:induction false} TotalsAppend(a: seq<ProductRow>, b: seq<ProductRow>)
    ensures TotalRevenue(a + b) == TotalRevenue(a) + TotalRevenue(b)
    ensures TotalCost(a + b) == TotalCost(a) + TotalCost(b)
    decreases |b|
  {
    if b == [] {
      assert a + b == a;
    } else {
      var init := b[..|b| - 1];
      TotalsAppend(a, init);
      assert (a + b)[..|a + b| - 1] == a + init;
      assert (a + b)[|a + b| - 1] == b[|b| - 1];
    }
  }

  /** Counting an item into the first row, of its product, adds its subtotal and its cost. */
  lemma AddedTotals(head: ProductRow, rest: seq<ProductRow>, it: SoldItem)
    requires SameProduct(head, it)
    ensures TotalRevenue([Added(head, it)] + rest) == TotalRevenue([head] + rest) + it.subtotal
    ensures TotalCost([Added(head, it)] + rest) == TotalCost([head] + rest) + ItemCost(it)
  {
    var h := Added(head, it);
    TotalsAppend([head], rest);
    TotalsAppend([h], rest);
    OneRowTotals(head);
    OneRowTotals(h);
    Distributes(head.precoCusto.GetOr(0), head.quantidadeVendida, it.quantidade);
  }

  lemma OneRowTotals(r: ProductRow)
    ensures TotalRevenue([r]) == r.receitaTotal
    ensures TotalCost([r]) == r.precoCusto.GetOr(0) * r.quantidadeVendida
  {
    assert [r][..0] == [];
  }


  /** Counting an item adds its subtotal to the revenue and its cost to the cost. */
  lemma {:induction false} AddItemTotals(rows: seq<ProductRow>, it: SoldItem)
    ensures TotalRevenue(AddItem(rows, it)) == TotalRevenue(rows) + it.subtotal
    ensures TotalCost(AddItem(rows, it)) == TotalCost(rows) + ItemCost(it)
    decreases |rows|
  {
    if rows == [] {
      assert [NewRow(it)][..0] == [];
    } else {
      var head, rest := rows[0], rows[1..];
      assert rows == [head] + rest;
      TotalsAppend([head], rest);
      assert [head][..0] == [];
      if SameProduct(head, it) {
        AddedTotals(head, rest, it);
      } else {
        AddItemTotals(rest, it);
        TotalsAppend([head], AddItem(rest, it));
      }
    }
  }

  /** The products' revenues and costs add up to the items' subtotals and costs. */
  lemma {:induction false} GroupedTotals(items: seq<SoldItem>)
    ensures TotalRevenue(GroupByProduct(items)) == SumSubtotals(items)
    ensures TotalCost(GroupByProduct(items)) == SumItemCosts(items)
    decreases |items|
  {
    if items != [] {
      GroupedTotals(items[..|items| - 1]);
      AddItemTotals(GroupByProduct(items[..|items| - 1]), items[|items| - 1]);
    }
  }

  /** Counting an item changes only the row of its product: it gains the item, or is created from it. */
  lemma {:induction false} AddItemLookup(rows: seq<ProductRow>, it: SoldItem, nome: string, precoCusto: Option<int>)
    ensures nome == it.nome && precoCusto == it.precoCusto ==>
              Lookup(AddItem(rows, it), nome, precoCusto) ==
                Some(if Lookup(rows, nome, precoCusto).Some? then Added(Lookup(rows, nome, precoCusto).value, it) else NewRow(it))
    ensures !(nome == it.nome && precoCusto == it.precoCusto) ==>
              Lookup(AddItem(rows, it), nome, precoCusto) == Lookup(rows, nome, precoCusto)
    decreases |rows|
  {
    if rows == [] {
      assert [NewRow(it)][1..] == [];
    } else if SameProduct(rows[0], it) {
      assert ([Added(rows[0], it)] + rows[1..])[1..] == rows[1..];
    } else {
      AddItemLookup(rows[1..], it, nome, precoCusto);
      assert ([rows[0]] + AddItem(rows[1..], it))[1..] == AddItem(rows[1..], it);
    }
  }

  /** Counting an item never gives a product a second row. */
  lemma {:induction false} AddItemDistinct(rows: seq<ProductRow>, it: SoldItem)
    requires Distinct(rows)
    ensures Distinct(AddItem(rows, it))
    decreases |rows|
  {
    if rows == [] {
      assert [NewRow(it)][1..] == [];
    } else if SameProduct(rows[0], it) {
      assert ([Added(rows[0], it)] + rows[1..])[1..] == rows[1..];
    } else {
      AddItemDistinct(rows[1..], it);
      AddItemLookup(rows[1..], it, rows[0].nome, rows[0].precoCusto);
      assert ([rows[0]] + AddItem(rows[1..], it))[1..] == AddItem(rows[1..], it);
    }
  }

  /** Each product has exactly one row. */
  lemma {:induction false} GroupDistinct(items: seq<SoldItem>)
    ensures Distinct(GroupByProduct(items))
    decreases |items|
  {
    if items != [] {
      GroupDistinct(items[..|items| - 1]);
      AddItemDistinct(GroupByProduct(items[..|items| - 1]), items[|items| - 1]);
    }
  }

  /** One more item of the product adds to that product's sums; an item of another product changes nothing. */
  lemma ProductOfSnoc(init: seq<SoldItem>, last: SoldItem, nome: string, precoCusto: Option<int>)
    ensures var of := OfProduct(nome, precoCusto);
            && (of(last) && Filter(init, of) == [] ==> ProductOf(init + [last], nome, precoCusto) == NewRow(last))
            && (of(last) && Filter(init, of) != [] ==> ProductOf(init + [last], nome, precoCusto) == Added(ProductOf(init, nome, precoCusto), last))
            && (!of(last) ==> ProductOf(init + [last], nome, precoCusto) == ProductOf(init, nome, precoCusto))
  {
    var of := OfProduct(nome, precoCusto);
    FilterSnoc(init, last, of);
    var g := Filter(init, of);
    if of(last) {
      var h := g + [last];
      assert h[..|g|] == g && h[|g|] == last;
      assert SumQuantities(h) == SumQuantities(g) + last.quantidade;
      assert SumSubtotals(h) == SumSubtotals(g) + last.subtotal;
    }
  }

  /**
   * A product has a row exactly when some item is of that product, and the
   * row sums the quantities and subtotals of exactly those items.
   */
  lemma {:induction false} GroupLookup(items: seq<SoldItem>, nome: string, precoCusto: Option<int>)
    ensures Lookup(GroupByProduct(items), nome, precoCusto) ==
              if Filter(items, OfProduct(nome, precoCusto)) == [] then None else Some(ProductOf(items, nome, precoCusto))
    decreases |items|
  {
    if items != [] {
      var init, last := items[..|items| - 1], items[|items| - 1];
      assert items == init + [last];
      var before := GroupByProduct(init);
      assert GroupByProduct(items) == AddItem(before, last);
      GroupLookup(init, nome, precoCusto);
      AddItemLookup(before, last, nome, precoCusto);
      FilterSnoc(init, last, OfProduct(nome, precoCusto));
      ProductOfSnoc(init, last, nome, precoCusto);
    }
  }

  lemma {:induction false} LookupFinds(rows: seq<ProductRow>, r: ProductRow)
    requires r in rows
    ensures Lookup(rows, r.nome, r.precoCusto).Some?
  {
    if rows[0] != r {
      assert rows == [rows[0]] + rows[1..];
      LookupFinds(rows[1..], r);
    }
  }

  /** When no product has two rows, each row is the row of its product. */
  lemma {:induction false} LookupOfMember(rows: seq<ProductRow>, r: ProductRow)
    requires Distinct(rows) && r in rows
    ensures Lookup(rows, r.nome, r.precoCusto) == Some(r)
  {
    if rows[0] != r {
      assert rows == [rows[0]] + rows[1..];
      LookupFinds(rows[1..], r);
      LookupOfMember(rows[1..], r);
    }
  }

  // ---------------------------------------------------------------------------
  // order_by('-receita_total')

  function RowRevenue(r: ProductRow): int {
    r.receitaTotal
  }

  /** Puts `x` after every row of at least its revenue. */
  function InsertByRevenue(sorted: seq<ProductRow>, x: ProductRow): seq<ProductRow>
    decreases |sorted|
  {
    if sorted == [] || sorted[|sorted| - 1].receitaTotal >= x.receitaTotal then sorted + [x]
    else InsertByRevenue(sorted[..|sorted| - 1], x) + [sorted[|sorted| - 1]]
  }

  /** The rows, highest revenue first; rows of equal revenue keep their order. */
  function OrderByRevenue(rows: seq<ProductRow>): seq<ProductRow> {
    if rows == [] then [] else InsertByRevenue(OrderByRevenue(rows[..|rows| - 1]), rows[|rows| - 1])
  }

  lemma {:induction false} InsertTotals(s: seq<ProductRow>, x: ProductRow)
    ensures TotalRevenue(InsertByRevenue(s, x)) == TotalRevenue(s) + x.receitaTotal
    ensures TotalCost(InsertByRevenue(s, x)) == TotalCost(s) + Summarize(x).custoTotal
    decreases |s|
  {
    if s == [] || s[|s| - 1].receitaTotal >= x.receitaTotal {
      SnocTotals(s, x);
    } else {
      var init, last := s[..|s| - 1], s[|s| - 1];
      assert s == init + [last];
      InsertTotals(init, x);
      SnocTotals(init, last);
      SnocTotals(InsertByRevenue(init, x), last);
    }
  }

  lemma {:induction false} InsertKeeps(s: seq<ProductRow>, x: ProductRow)
    ensures multiset(InsertByRevenue(s, x)) == multiset(s) + multiset{x}
    decreases |s|
  {
    if s != [] && s[|s| - 1].receitaTotal < x.receitaTotal {
      var init := s[..|s| - 1];
      assert s == init + [s[|s| - 1]];
      InsertKeeps(init, x);
    }
  }

  lemma SnocTotals(s: seq<ProductRow>, x: ProductRow)
    ensures TotalRevenue(s + [x]) == TotalRevenue(s) + x.receitaTotal
    ensures TotalCost(s + [x]) == TotalCost(s) + Summarize(x).custoTotal
  {
    assert (s + [x])[..|s|] == s;
  }

  /** A row of no more revenue than any before it extends a revenue order. */
  lemma AppendLower(s: seq<ProductRow>, y: ProductRow)
    requires Descending(s, RowRevenue)
    requires forall k :: 0 <= k < |s| ==> s[k].receitaTotal >= y.receitaTotal
    ensures Descending(s + [y], RowRevenue)
  {
    var r := s + [y];
    forall i, j | 0 <= i < j < |r|
      ensures RowRevenue(r[i]) >= RowRevenue(r[j])
    {
      assert r[i] == s[i];
      if j < |s| {
        assert r[j] == s[j];
      }
    }
  }

  /** Inserting keeps every row at or above a revenue that all rows and `x` reach. */
  lemma InsertAbove(s: seq<ProductRow>, x: ProductRow, v: int)
    requires forall k :: 0 <= k < |s| ==> s[k].receitaTotal >= v
    requires x.receitaTotal >= v
    ensures forall k :: 0 <= k < |InsertByRevenue(s, x)| ==> InsertByRevenue(s, x)[k].receitaTotal >= v
  {
    var t := InsertByRevenue(s, x);
    InsertKeeps(s, x);
    forall k | 0 <= k < |t|
      ensures t[k].receitaTotal >= v
    {
      assert t[k] in multiset(t);
      if t[k] != x {
        assert t[k] in s;
      }
    }
  }

  lemma {:induction false} InsertSorted(s: seq<ProductRow>, x: ProductRow)
    requires Descending(s, RowRevenue)
    ensures Descending(InsertByRevenue(s, x), RowRevenue)
    decreases |s|
  {
    var n := |s|;
    if s == [] || s[n - 1].receitaTotal >= x.receitaTotal {
      forall k | 0 <= k < n
        ensures s[k].receitaTotal >= x.receitaTotal
      {
        assert RowRevenue(s[k]) >= RowRevenue(s[n - 1]) || k == n - 1;
      }
      AppendLower(s, x);
    } else {
      var init, last := s[..n - 1], s[n - 1];
      forall i, j | 0 <= i < j < |init|
        ensures RowRevenue(init[i]) >= RowRevenue(init[j])
      {
        assert init[i] == s[i] && init[j] == s[j];
      }
      forall k | 0 <= k < |init|
        ensures init[k].receitaTotal >= last.receitaTotal
      {
        assert init[k] == s[k] && RowRevenue(s[k]) >= RowRevenue(s[n - 1]);
      }
      InsertSorted(init, x);
      InsertAbove(init, x, last.receitaTotal);
      AppendLower(InsertByRevenue(init, x), last);
    }
  }

  /** Ordering by revenue puts the highest revenue first. */
  lemma {:induction false} OrderByRevenueSorted(rows: seq<ProductRow>)
    ensures Descending(OrderByRevenue(rows), RowRevenue)
    decreases |rows|
  {
    if rows != [] {
      var init := rows[..|rows| - 1];
      OrderByRevenueSorted(init);
      InsertSorted(OrderByRevenue(init), rows[|rows| - 1]);
    }
  }

  /** Ordering by revenue keeps the same rows, so the same totals. */
  lemma {:induction false} OrderByRevenuePermutes(rows: seq<ProductRow>)
    ensures multiset(OrderByRevenue(rows)) == multiset(rows)
    ensures TotalRevenue(OrderByRevenue(rows)) == TotalRevenue(rows)
    ensures TotalCost(OrderByRevenue(rows)) == TotalCost(rows)
    decreases |rows|
  {
    if rows != [] {
      var init, last := rows[..|rows| - 1], rows[|rows| - 1];
      assert rows == init + [last];
      OrderByRevenuePermutes(init);
      InsertTotals(OrderByRevenue(init), last);
      InsertKeeps(OrderByRevenue(init), last);
    }
  }

  /** `resumo_produtos`: the period's completed items grouped by product, highest revenue first. */
  function ProductRows(items: seq<SoldItem>, p: Period, now: int): seq<ProductRow> {
    OrderByRevenue(GroupByProduct(Filter(items, CountsTest(p, now))))
  }

  /**
   * Every row of `resumo_produtos` is a product some completed item of the
   * period is of, with the summed quantity and subtotal of that product's
   * items; every such item's product has a row.
   */
  lemma ProductRowsHold(items: seq<SoldItem>, p: Period, now: int)
    ensures var selected := Filter(items, CountsTest(p, now));
            var rows := ProductRows(items, p, now);
            && (forall r :: r in rows ==>
                  Filter(selected, OfProduct(r.nome, r.precoCusto)) != [] && r == ProductOf(selected, r.nome, r.precoCusto))
            && (forall it :: it in selected ==> exists r :: r in rows && SameProduct(r, it))
  {
    var selected := Filter(items, CountsTest(p, now));
    var g := GroupByProduct(selected);
    var rows := ProductRows(items, p, now);
    OrderByRevenueSorted(g);
    OrderByRevenuePermutes(g);
    GroupDistinct(selected);
    forall r | r in rows
      ensures Filter(selected, OfProduct(r.nome, r.precoCusto)) != [] && r == ProductOf(selected, r.nome, r.precoCusto)
    {
      assert r in multiset(rows);
      LookupOfMember(g, r);
      GroupLookup(selected, r.nome, r.precoCusto);
    }
    forall it | it in selected
      ensures exists r :: r in rows && SameProduct(r, it)
    {
      FilterMembers(selected, OfProduct(it.nome, it.precoCusto), it);
      GroupLookup(selected, it.nome, it.precoCusto);
      var r := Lookup(g, it.nome, it.precoCusto).value;
      assert r in multiset(g);
      assert r in rows && SameProduct(r, it);
    }
  }

  /** The summary of rows in revenue order is in revenue order. */
  lemma SummariesKeepRevenueOrder(rows: seq<ProductRow>)
    requires Descending(rows, RowRevenue)
    ensures Descending(Summaries(rows), ReceitaOf)
  {
    var s := Summaries(rows);
    forall i, j | 0 <= i < j < |s|
      ensures ReceitaOf(s[i]) >= ReceitaOf(s[j])
    {
      SummariesAt(rows, i);
      SummariesAt(rows, j);
      assert RowRevenue(rows[i]) >= RowRevenue(rows[j]);
    }
  }

  // ---------------------------------------------------------------------------
  // Sorting by profit

  function LucroOf(r: SummaryRow): int {
    r.lucroTotal
  }

  function ReceitaOf(r: SummaryRow): int {
    r.receitaTotal
  }

  function ProfitIs(p: int): SummaryRow -> bool {
    (r: SummaryRow) => r.lucroTotal == p
  }

  /**
   * The rows of every profit appear in the same order in both sequences: one
   * is a stable reordering of the other.
   */
  ghost predicate SameTies(s: seq<SummaryRow>, t: seq<SummaryRow>) {
    forall p :: Filter(s, ProfitIs(p)) == Filter(t, ProfitIs(p))
  }

  /** Rows with the same ties hold the same rows: a reordering is a permutation. */
  lemma SameTiesPermutation(s: seq<SummaryRow>, t: seq<SummaryRow>)
    requires SameTies(s, t)
    ensures multiset(s) == multiset(t)
  {
    forall x
      ensures multiset(s)[x] == multiset(t)[x]
    {
      FilterCount(s, ProfitIs(x.lucroTotal), x);
      FilterCount(t, ProfitIs(x.lucroTotal), x);
      assert Filter(s, ProfitIs(x.lucroTotal)) == Filter(t, ProfitIs(x.lucroTotal));
    }
  }

  /** The sequence with the rows at `j - 1` and `j` exchanged. */
  function Swap(s: seq<SummaryRow>, j: nat): (r: seq<SummaryRow>)
    requires 0 < j < |s|
    ensures |r| == |s|
  {
    s[j - 1 := s[j]][j := s[j - 1]]
  }

  /** Two rows of different profit: whichever of them a profit selects, their order does not show. */
  lemma PairTies(x: SummaryRow, y: SummaryRow, p: int)
    requires x.lucroTotal != y.lucroTotal
    ensures Filter([x, y], ProfitIs(p)) == Filter([y, x], ProfitIs(p))
  {
    assert [x, y][1..] == [y] && [y, x][1..] == [x];
    assert [x][1..] == [] && [y][1..] == [];
  }

  /** Exchanging two neighbours of different profit keeps the order of every profit's rows. */
  lemma SwapKeepsTies(s: seq<SummaryRow>, j: nat)
    requires 0 < j < |s| && s[j - 1].lucroTotal != s[j].lucroTotal
    ensures SameTies(Swap(s, j), s)
  {
    var x, y := s[j - 1], s[j];
    var pre, post := s[..j - 1], s[j + 1..];
    assert s == pre + [x, y] + post;
    assert Swap(s, j) == pre + [y, x] + post;
    forall p
      ensures Filter(Swap(s, j), ProfitIs(p)) == Filter(s, ProfitIs(p))
    {
      PairTies(x, y, p);
      FilterMiddle(pre, [y, x], [x, y], post, ProfitIs(p));
    }
  }

  /** The state of the inner loop: row `j` is moving left through the sorted prefix `s[..i + 1]`. */
  predicate Inserting(s: seq<SummaryRow>, j: nat, i: nat) {
    && j <= i < |s|
    && Descending(s[..j], LucroOf)
    && Descending(s[j..i + 1], LucroOf)
    && (0 < j < i ==> s[j - 1].lucroTotal >= s[j + 1].lucroTotal)
  }

  lemma InsertStart(s: seq<SummaryRow>, i: nat)
    requires i < |s| && Descending(s[..i], LucroOf)
    ensures Inserting(s, i, i)
  {
  }

  lemma InsertStep(s: seq<SummaryRow>, j: nat, i: nat)
    requires Inserting(s, j, i) && 0 < j && s[j - 1].lucroTotal < s[j].lucroTotal
    ensures Inserting(Swap(s, j), j - 1, i)
  {
    var t := Swap(s, j);
    assert t[..j - 1] == s[..j - 1];
    SwappedRun(s, j, i);
  }

  /** After the exchange, the run from `j - 1` to `i` is in decreasing order. */
  lemma SwappedRun(s: seq<SummaryRow>, j: nat, i: nat)
    requires Inserting(s, j, i) && 0 < j && s[j - 1].lucroTotal < s[j].lucroTotal
    ensures Descending(Swap(s, j)[j - 1..i + 1], LucroOf)
  {
    var t := Swap(s, j);
    var u := t[j - 1..i + 1];
    var v := s[j..i + 1];
    forall a, b | 0 <= a < b < |u|
      ensures u[a].lucroTotal >= u[b].lucroTotal
    {
      assert u[0] == s[j] && u[1] == s[j - 1];
      if b >= 2 {
        assert u[b] == v[b - 1];
        if a == 0 {
          assert v[0] == s[j];
        } else if a == 1 {
          assert j < i && v[1] == s[j + 1];
          assert v[1].lucroTotal >= v[b - 1].lucroTotal;
        } else {
          assert u[a] == v[a - 1];
        }
      }
    }
  }

  lemma InsertDone(s: seq<SummaryRow>, j: nat, i: nat)
    requires Inserting(s, j, i) && (j == 0 || s[j - 1].lucroTotal >= s[j].lucroTotal)
    ensures Descending(s[..i + 1], LucroOf)
  {
    forall a, b | 0 <= a < b < i + 1
      ensures s[a].lucroTotal >= s[b].lucroTotal
    {
      if b < j {
        assert s[..j][a] == s[a] && s[..j][b] == s[b];
      } else if j <= a {
        assert s[j..i + 1][a - j] == s[a] && s[j..i + 1][b - j] == s[b];
      } else {
        assert s[..j][a] == s[a] && s[..j][j - 1] == s[j - 1];
        assert s[j..i + 1][0] == s[j] && s[j..i + 1][b - j] == s[b];
      }
    }
  }

  /**
   * `resumo_list.sort(key=lucro_total, reverse=True)`: most profitable first;
   * a stable sort, so rows of equal profit keep their order.
   */
  method SortByProfit(a: array<SummaryRow>)
    modifies a
    ensures Descending(a[..], LucroOf)
    ensures SameTies(a[..], old(a[..]))
  {
    var i := 0;
    while i < a.Length
      invariant 0 <= i <= a.Length
      invariant Descending(a[..i], LucroOf)
      invariant SameTies(a[..], old(a[..]))
    {
      InsertStart(a[..], i);
      assert a[..][..i] == a[..i];
      var j := i;
      while j > 0 && a[j - 1].lucroTotal < a[j].lucroTotal
        invariant Inserting(a[..], j, i)
        invariant SameTies(a[..], old(a[..]))
        decreases j
      {
        ghost var s := a[..];
        SwapKeepsTies(s, j);
        InsertStep(s, j, i);
        a[j - 1], a[j] := a[j], a[j - 1];
        assert a[..] == Swap(s, j);
        j := j - 1;
      }
      InsertDone(a[..], j, i);
      assert a[..][..i + 1] == a[..i + 1];
      i := i + 1;
    }
    assert a[..a.Length] == a[..];
  }

  /**
   * The database returns the products by revenue, highest first; the sort is
   * stable, so products of equal profit stay in that order.
   */
  lemma TiesKeepRevenueOrder(input: seq<SummaryRow>, sorted: seq<SummaryRow>)
    requires Descending(input, ReceitaOf) && SameTies(sorted, input)
    ensures forall a, b :: 0 <= a < b < |sorted| && sorted[a].lucroTotal == sorted[b].lucroTotal ==>
              sorted[a].receitaTotal >= sorted[b].receitaTotal
  {
    forall a, b | 0 <= a < b < |sorted| && sorted[a].lucroTotal == sorted[b].lucroTotal
      ensures sorted[a].receitaTotal >= sorted[b].receitaTotal
    {
      var keep := ProfitIs(sorted[a].lucroTotal);
      FilterOrder(sorted, keep, a, b);
      FilterKeepsDescending(input, keep, ReceitaOf);
      var f := Filter(sorted, keep);
      assert f == Filter(input, keep);
      var a', b' := |Filter(sorted[..a], keep)|, |Filter(sorted[..b], keep)|;
      assert ReceitaOf(f[a']) >= ReceitaOf(f[b']);
    }
  }

  // ---------------------------------------------------------------------------
  // The whole report

  datatype ProfitSummary = ProfitSummary(
    itensVendidos: seq<AnnotatedItem>,
    resumoProdutos: seq<SummaryRow>,
    receitaTotal: int,
    custoTotal: int,
    lucroTotal: int,
    margemLucroGeral: real)

  /**
   * `relatorio_lucratividade`: the annotated latest items, the product
   * summary sorted by profit, and the overall revenue, cost, profit and margin
   * of the period's completed items.
   */
  method RelatorioLucratividade(items: seq<SoldItem>, p: Period, now: int) returns (r: ProfitSummary)
    ensures var selected := Filter(items, CountsTest(p, now));
            && |r.itensVendidos| == Min(ItemLimit, |selected|)
            && forall k :: 0 <= k < |r.itensVendidos| ==> r.itensVendidos[k] == Annotate(selected[k])
    ensures Descending(r.resumoProdutos, LucroOf)
    ensures SameTies(r.resumoProdutos, Summaries(ProductRows(items, p, now)))
    ensures multiset(r.resumoProdutos) == multiset(Summaries(ProductRows(items, p, now)))
    ensures forall a, b :: 0 <= a < b < |r.resumoProdutos| && r.resumoProdutos[a].lucroTotal == r.resumoProdutos[b].lucroTotal ==>
              r.resumoProdutos[a].receitaTotal >= r.resumoProdutos[b].receitaTotal
    ensures var selected := Filter(items, CountsTest(p, now));
            r.receitaTotal == SumSubtotals(selected) && r.custoTotal == SumItemCosts(selected)
    ensures r.lucroTotal == r.receitaTotal - r.custoTotal
    ensures r.margemLucroGeral == Margin(r.lucroTotal, r.receitaTotal)
  {
    var itens := AnnotateItems(items, p, now);
    var selected := Filter(items, CountsTest(p, now));
    var rows := ProductRows(items, p, now);
    var resumo, receita, custo, lucro := SummarizeRows(rows);
    var sorted := new SummaryRow[|resumo|](k requires 0 <= k < |resumo| => resumo[k]);
    assert sorted[..] == resumo;
    SortByProfit(sorted);
    SameTiesPermutation(sorted[..], resumo);
    OrderByRevenueSorted(GroupByProduct(selected));
    OrderByRevenuePermutes(GroupByProduct(selected));
    GroupedTotals(selected);
    SummariesKeepRevenueOrder(rows);
    TiesKeepRevenueOrder(resumo, sorted[..]);
    r := ProfitSummary(itens, sorted[..], receita, custo, lucro, Margin(lucro, receita));
  }

  /** The items of the report's test: two units of A (cost 30.00) for 100.00 and one unit of B (cost 70.00) for 100.00. */
  function ExampleItems(): seq<SoldItem> {
    [SoldItem(0, Concluida, "A", Some(3000), 2, 10000), SoldItem(0, Concluida, "B", Some(7000), 1, 10000)]
  }

  /**
   * The report's test: the products of those items give revenue 200.00, cost
   * 130.00, profit 70.00 and a margin of 35%.
   */
  lemma ProfitExample()
    ensures var rows := ProductRows(ExampleItems(), Period(None, None), 0);
            && TotalRevenue(rows) == 20000
            && TotalCost(rows) == 13000
            && TotalProfit(rows) == 7000
            && Margin(TotalProfit(rows), TotalRevenue(rows)) == 35.0
  {
    var items := ExampleItems();
    var a, b := items[0], items[1];
    assert items == [a, b];
    var keep := CountsTest(Period(None, None), 0);
    assert [a, b][1..] == [b] && [b][1..] == [];
    assert keep(a) && keep(b);
    assert Filter([b], keep) == [b];
    assert Filter(items, keep) == items;
    var g := GroupByProduct(items);
    GroupedTotals(items);
    OrderByRevenueSorted(g);
    OrderByRevenuePermutes(g);
    TotalProfitIsRevenueLessCost(ProductRows(items, Period(None, None), 0));
    assert [a, b][..1] == [a] && [a][..0] == [];
    assert SumSubtotals(items) == 20000;
    assert SumItemCosts(items) == 13000;
    assert Margin(7000, 20000) * 20000.0 == 700000.0;
  }
}
