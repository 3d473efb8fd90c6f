/**
 * The cash report of reports/views.py (`relatorio_caixa`): which sales it
 * selects, the totals it shows, and the reconciliation of one cash-drawer
 * session (expected closing cash and the difference against the counted
 * amount). The database queries are sums over sequences of rows.
 *
 * Money is in cents. Times are seconds; the query's dates are day numbers
 * (a date's midnight is `day * SecondsPerDay`). The clock is the parameter `now`.
 */
module CashReport {
  import opened Wrappers
  import opened SalesModels
  import opened Filters

  /** A row of the `Venda` table as the report reads it. */
  datatype Sale = Sale(
    dataHora: int,
    status: Status,
    formaPagamento: string,
    valorTotal: int,
    sessao: Option<nat>,
    usuario: Option<nat>)

  /** MovimentoCaixa.tipo */
  datatype MovementKind = Suprimento | Sangria

  /** A row of `MovimentoCaixa`: money put into (SUPRIMENTO) or taken out of (SANGRIA) a session's drawer. */
  datatype CashMovement = CashMovement(sessao: nat, tipo: MovementKind, valor: int)

  /** A row of `SessaoCaixa`: the opening float and the amount counted at closing, either possibly empty. */
  datatype CashSession = CashSession(valorInicial: Option<int>, valorFinalInformado: Option<int>)

  /** The filters of the request, already read from its query string; absent or empty parameters are `None`. */
  datatype Query = Query(dataInicio: Option<int>, dataFim: Option<int>, sessaoId: Option<nat>, usuarioId: Option<nat>)

  const SecondsPerDay: int := 86400
  const CashMethod := "DINHEIRO"

  // ---------------------------------------------------------------------------
  // Sums over rows

  /** `aggregate(total=Sum('valor_total'))['total'] or 0`. */
  function SumTotals(s: seq<Sale>): int {
    if s == [] then 0 else s[0].valorTotal + SumTotals(s[1..])
  }

  lemma {:induction false} SumTotalsAppend(a: seq<Sale>, b: seq<Sale>)
    ensures SumTotals(a + b) == SumTotals(a) + SumTotals(b)
  {
    if a == [] {
      assert a + b == b;
    } else {
      assert (a + b)[1..] == a[1..] + b;
      SumTotalsAppend(a[1..], b);
    }
  }

  /** `aggregate(total=Sum('valor'))['total'] or 0` over the movements of one session and kind. */
  function SumMovements(ms: seq<CashMovement>, sessao: nat, tipo: MovementKind): int {
    if ms == [] then 0
    else (if ms[0].sessao == sessao && ms[0].tipo == tipo then ms[0].valor else 0) + SumMovements(ms[1..], sessao, tipo)
  }

  lemma {:induction false} SumMovementsAppend(a: seq<CashMovement>, b: seq<CashMovement>, sessao: nat, tipo: MovementKind)
    ensures SumMovements(a + b, sessao, tipo) == SumMovements(a, sessao, tipo) + SumMovements(b, sessao, tipo)
  {
    if a == [] {
      assert a + b == b;
    } else {
      assert (a + b)[1..] == a[1..] + b;
      SumMovementsAppend(a[1..], b, sessao, tipo);
    }
  }

  // ---------------------------------------------------------------------------
  // Which sales the report looks at

  /**
   * The time window when no session is chosen: from the start date's midnight
   * (default: seven days before now) up to, but excluding, the midnight after
   * the end date (default: now).
   */
  function Window(q: Query, now: int): (int, int) {
    var lo := if q.dataInicio.Some? then q.dataInicio.value * SecondsPerDay else now - 7 * SecondsPerDay;
    var hi := if q.dataFim.Some? then (q.dataFim.value + 1) * SecondsPerDay else now;
    (lo, hi)
  }

  /** The test a sale passes to be in the report: it belongs to the chosen session, or else it falls inside the time window. */
  predicate InSelection(v: Sale, q: Query, now: int) {
    if q.sessaoId.Some? then v.sessao == Some(q.sessaoId.value)
    else
      var (lo, hi) := Window(q, now);
      lo <= v.dataHora < hi
  }

  /**
   * Without a session, the end date is inclusive: a sale at any second of that
   * day is in the report (once it is past the start), and one at the next
   * midnight is not.
   */
  lemma EndDateInclusive(v: Sale, q: Query, now: int, d: int)
    requires q.sessaoId.None? && q.dataFim == Some(d)
    requires Window(q, now).0 <= v.dataHora
    ensures d * SecondsPerDay <= v.dataHora < (d + 1) * SecondsPerDay ==> InSelection(v, q, now)
    ensures v.dataHora >= (d + 1) * SecondsPerDay ==> !InSelection(v, q, now)
  {
  }

  function SelectionTest(q: Query, now: int): Sale -> bool {
    (v: Sale) => InSelection(v, q, now)
  }

  function Selected(sales: seq<Sale>, q: Query, now: int): seq<Sale> {
    Filter(sales, SelectionTest(q, now))
  }

  /** `vendas_concluidas`: completed sales, of the chosen seller when one is given. */
  predicate CountsAsCompleted(v: Sale, usuarioId: Option<nat>) {
    v.status == Concluida && (usuarioId.None? || v.usuario == usuarioId)
  }

  function CompletedTest(usuarioId: Option<nat>): Sale -> bool {
    (v: Sale) => CountsAsCompleted(v, usuarioId)
  }

  function Completed(sales: seq<Sale>, usuarioId: Option<nat>): seq<Sale> {
    Filter(sales, CompletedTest(usuarioId))
  }

  /** `vendas_canceladas`: cancelled sales, whatever their seller. */
  function Cancelled(sales: seq<Sale>): seq<Sale> {
    Filter(sales, IsCancelled)
  }

  predicate IsCancelled(v: Sale) {
    v.status == Cancelada
  }

  /**
   * A sale is counted as completed exactly when it is selected, completed and
   * (when a seller is chosen) of that seller; it is counted as cancelled
   * exactly when it is selected and cancelled, whoever sold it.
   */
  lemma CountedSales(sales: seq<Sale>, q: Query, now: int, v: Sale)
    ensures v in Completed(Selected(sales, q, now), q.usuarioId) <==>
              v in sales && InSelection(v, q, now) && v.status == Concluida && (q.usuarioId.None? || v.usuario == q.usuarioId)
    ensures v in Cancelled(Selected(sales, q, now)) <==> v in sales && InSelection(v, q, now) && v.status == Cancelada
  {
    FilterMembers(sales, SelectionTest(q, now), v);
    FilterMembers(Selected(sales, q, now), CompletedTest(q.usuarioId), v);
    FilterMembers(Selected(sales, q, now), IsCancelled, v);
  }

  /** Paid in cash: the sales the drawer should hold the money of. */
  predicate PaidInCash(v: Sale) {
    v.formaPagamento == CashMethod
  }

  // ---------------------------------------------------------------------------
  // Totals

  /** `ticket_medio`: the average completed sale, 0 when there is none. */
  function TicketMedio(total: int, count: nat): (t: real)
    ensures count > 0 ==> t * count as real == total as real
    ensures count == 0 ==> t == 0.0
  {
    if count > 0 then total as real / count as real else 0.0
  }

  /** The total and the number of sales of one group. */
  datatype Totals = Totals(total: int, quantidade: nat)

  /** `values(key).annotate(total=Sum('valor_total'), quantidade=Count('id'))`, as a map from each key to its group. */
  function GroupTotals<K>(sales: seq<Sale>, key: Sale -> K): map<K, Totals>
    decreases |sales|
  {
    if sales == [] then map[]
    else
      var last := sales[|sales| - 1];
      var m := GroupTotals(sales[..|sales| - 1], key);
      var k := key(last);
      var old_ := if k in m then m[k] else Totals(0, 0);
      m[k := Totals(old_.total + last.valorTotal, old_.quantidade + 1)]
  }

  /** The test "this sale belongs to group `k`". */
  function KeyIs<K(==)>(key: Sale -> K, k: K): Sale -> bool {
    (v: Sale) => key(v) == k
  }

  /** What group `k` should hold for `sales`: present exactly when some sale has key `k`, with their total and number. */
  predicate GroupHolds<K>(m: map<K, Totals>, sales: seq<Sale>, key: Sale -> K, k: K) {
    var grupo := Filter(sales, KeyIs(key, k));
    && (k in m <==> |grupo| > 0)
    && (k in m ==> m[k] == Totals(SumTotals(grupo), |grupo|))
  }

  /** Each group holds exactly the sales with that key: their total and their number. */
  lemma {:induction false} GroupTotalsAt<K>(sales: seq<Sale>, key: Sale -> K, k: K)
    ensures GroupHolds(GroupTotals(sales, key), sales, key, k)
    decreases |sales|
  {
    if sales != [] {
      var init, last := sales[..|sales| - 1], sales[|sales| - 1];
      GroupTotalsAt(init, key, k);
      assert sales == init + [last];
      if key(last) == k {
        GroupStepSame(init, last, key);
      } else {
        GroupStepOther(init, last, key, k);
      }
    }
  }

  /** Adding a sale to its own group adds its total and one to the count. */
  lemma GroupStepSame<K>(init: seq<Sale>, last: Sale, key: Sale -> K)
    requires GroupHolds(GroupTotals(init, key), init, key, key(last))
    ensures GroupHolds(GroupTotals(init + [last], key), init + [last], key, key(last))
  {
    var k := key(last);
    var same := KeyIs(key, k);
    var sales := init + [last];
    assert sales[..|sales| - 1] == init;
    FilterSnoc(init, last, same);
    var g0 := Filter(init, same);
    assert Filter(sales, same) == g0 + [last];
    SumTotalsAppend(g0, [last]);
    assert SumTotals([last]) == last.valorTotal;
  }

  /** Adding a sale of another group leaves group `k` as it was. */
  lemma GroupStepOther<K>(init: seq<Sale>, last: Sale, key: Sale -> K, k: K)
    requires key(last) != k
    requires GroupHolds(GroupTotals(init, key), init, key, k)
    ensures GroupHolds(GroupTotals(init + [last], key), init + [last], key, k)
  {
    var sales := init + [last];
    assert sales[..|sales| - 1] == init;
    var same := KeyIs(key, k);
    assert !same(last);
    FilterSnoc(init, last, same);
    assert Filter(sales, same) == Filter(init, same);
    var m := GroupTotals(init, key);
    assert k in GroupTotals(sales, key) <==> k in m;
    assert k in m ==> GroupTotals(sales, key)[k] == m[k];
  }

  /** Totals per payment method. */
  function PorForma(completed: seq<Sale>): map<string, Totals> {
    GroupTotals(completed, (v: Sale) => v.formaPagamento)
  }

  /** Totals per seller. */
  function PorVendedor(completed: seq<Sale>): map<Option<nat>, Totals> {
    GroupTotals(completed, (v: Sale) => v.usuario)
  }

  /** Totals per session. */
  function PorSessao(completed: seq<Sale>): map<Option<nat>, Totals> {
    GroupTotals(completed, (v: Sale) => v.sessao)
  }

  // ---------------------------------------------------------------------------
  // The session reconciliation

  datatype Reconciliation = Reconciliation(
    totalDinheiro: int,
    totalSuprimentos: int,
    totalSangrias: int,
    esperadoFinal: int,
    diferenca: Option<int>)

  /**
   * Expected closing cash: the opening float (0 when empty), plus the completed
   * cash sales, plus the supplies, minus the withdrawals; the difference is
   * counted minus expected, and exists only once an amount was counted.
   */
  function Reconcile(sessao: CashSession, completed: seq<Sale>, movements: seq<CashMovement>, sessaoId: nat): (r: Reconciliation)
    ensures r.totalDinheiro == SumTotals(Filter(completed, PaidInCash))
    ensures r.totalSuprimentos == SumMovements(movements, sessaoId, Suprimento)
    ensures r.totalSangrias == SumMovements(movements, sessaoId, Sangria)
    ensures r.diferenca.Some? <==> sessao.valorFinalInformado.Some?
    ensures r.diferenca.Some? ==> r.diferenca.value == sessao.valorFinalInformado.value - r.esperadoFinal
    ensures r.esperadoFinal == sessao.valorInicial.GetOr(0) + r.totalDinheiro + r.totalSuprimentos - r.totalSangrias
  {
    var dinheiro := SumTotals(Filter(completed, PaidInCash));
    var suprimentos := SumMovements(movements, sessaoId, Suprimento);
    var sangrias := SumMovements(movements, sessaoId, Sangria);
    var esperado := sessao.valorInicial.GetOr(0) + dinheiro + suprimentos - sangrias;
    var diferenca := if sessao.valorFinalInformado.Some? then Some(sessao.valorFinalInformado.value - esperado) else None;
    Reconciliation(dinheiro, suprimentos, sangrias, esperado, diferenca)
  }

  // ---------------------------------------------------------------------------
  // The whole report

  datatype CashSummary = CashSummary(
    totalRecebido: int,
    qtdConcluidas: nat,
    qtdCanceladas: nat,
    ticketMedio: real,
    porForma: map<string, Totals>,
    porVendedor: map<Option<nat>, Totals>,
    porSessao: map<Option<nat>, Totals>,
    reconciliation: Option<Reconciliation>)

  /**
   * `relatorio_caixa`: the figures the report shows. A reconciliation exists
   * only when a session was chosen and that session exists.
   */
  function RelatorioCaixa(sales: seq<Sale>, movements: seq<CashMovement>, sessions: map<nat, CashSession>, q: Query, now: int): (r: CashSummary)
    ensures var completed := Completed(Selected(sales, q, now), q.usuarioId);
            && r.totalRecebido == SumTotals(completed)
            && r.qtdConcluidas == |completed|
            && r.qtdCanceladas == |Cancelled(Selected(sales, q, now))|
            && r.porForma == PorForma(completed)
            && r.porVendedor == PorVendedor(completed)
            && r.porSessao == PorSessao(completed)
    ensures r.reconciliation ==
              if q.sessaoId.Some? && q.sessaoId.value in sessions
              then Some(Reconcile(sessions[q.sessaoId.value], Completed(Selected(sales, q, now), q.usuarioId), movements, q.sessaoId.value))
              else None
    ensures r.ticketMedio == TicketMedio(r.totalRecebido, r.qtdConcluidas)
    ensures r.qtdConcluidas == 0 ==> r.totalRecebido == 0
  {
    var selected := Selected(sales, q, now);
    var completed := Completed(selected, q.usuarioId);
    var cancelled := Cancelled(selected);
    var total := SumTotals(completed);
    var reconciliation :=
      if q.sessaoId.Some? && q.sessaoId.value in sessions
      then Some(Reconcile(sessions[q.sessaoId.value], completed, movements, q.sessaoId.value))
      else None;
    CashSummary(total, |completed|, |cancelled|, TicketMedio(total, |completed|),
                PorForma(completed), PorVendedor(completed), PorSessao(completed), reconciliation)
  }

  /** The average ticket times the number of completed sales is the amount received; with no completed sale both are 0. */
  lemma AverageTicket(sales: seq<Sale>, movements: seq<CashMovement>, sessions: map<nat, CashSession>, q: Query, now: int)
    ensures var r := RelatorioCaixa(sales, movements, sessions, q, now);
            && (r.qtdConcluidas > 0 ==> r.ticketMedio * r.qtdConcluidas as real == r.totalRecebido as real)
            && (r.qtdConcluidas == 0 ==> r.ticketMedio == 0.0 && r.totalRecebido == 0)
  {
    var r := RelatorioCaixa(sales, movements, sessions, q, now);
    var t := TicketMedio(r.totalRecebido, r.qtdConcluidas);
    assert r.ticketMedio == t;
  }

  // ---------------------------------------------------------------------------
  // How one more row changes the report

  lemma SelectedSnoc(sales: seq<Sale>, v: Sale, q: Query, now: int)
    ensures InSelection(v, q, now) ==> Selected(sales + [v], q, now) == Selected(sales, q, now) + [v]
    ensures !InSelection(v, q, now) ==> Selected(sales + [v], q, now) == Selected(sales, q, now)
  {
    FilterSnoc(sales, v, SelectionTest(q, now));
  }

  lemma CompletedSnoc(sales: seq<Sale>, v: Sale, usuarioId: Option<nat>)
    ensures CountsAsCompleted(v, usuarioId) ==> Completed(sales + [v], usuarioId) == Completed(sales, usuarioId) + [v]
    ensures !CountsAsCompleted(v, usuarioId) ==> Completed(sales + [v], usuarioId) == Completed(sales, usuarioId)
  {
    FilterSnoc(sales, v, CompletedTest(usuarioId));
  }

  lemma CancelledSnoc(sales: seq<Sale>, v: Sale)
    ensures IsCancelled(v) ==> Cancelled(sales + [v]) == Cancelled(sales) + [v]
    ensures !IsCancelled(v) ==> Cancelled(sales + [v]) == Cancelled(sales)
  {
    FilterSnoc(sales, v, IsCancelled);
  }

  /** The selected, counted sales once `v` is added to the table. */
  lemma CompletedSelectedSnoc(sales: seq<Sale>, v: Sale, q: Query, now: int)
    ensures InSelection(v, q, now) && CountsAsCompleted(v, q.usuarioId) ==>
              Completed(Selected(sales + [v], q, now), q.usuarioId) == Completed(Selected(sales, q, now), q.usuarioId) + [v]
    ensures !(InSelection(v, q, now) && CountsAsCompleted(v, q.usuarioId)) ==>
              Completed(Selected(sales + [v], q, now), q.usuarioId) == Completed(Selected(sales, q, now), q.usuarioId)
  {
    SelectedSnoc(sales, v, q, now);
    if InSelection(v, q, now) {
      CompletedSnoc(Selected(sales, q, now), v, q.usuarioId);
    }
  }

  /** The selected, cancelled sales once `v` is added to the table. */
  lemma CancelledSelectedSnoc(sales: seq<Sale>, v: Sale, q: Query, now: int)
    ensures InSelection(v, q, now) && IsCancelled(v) ==>
              Cancelled(Selected(sales + [v], q, now)) == Cancelled(Selected(sales, q, now)) + [v]
    ensures !(InSelection(v, q, now) && IsCancelled(v)) ==>
              Cancelled(Selected(sales + [v], q, now)) == Cancelled(Selected(sales, q, now))
  {
    SelectedSnoc(sales, v, q, now);
    if InSelection(v, q, now) {
      CancelledSnoc(Selected(sales, q, now), v);
    }
  }

  /**
   * A new sale raises the amount received and the number of completed sales
   * exactly when the report counts it (selected, completed, of the chosen
   * seller).
   */
  lemma AddedSaleReceived(sales: seq<Sale>, v: Sale, movements: seq<CashMovement>, sessions: map<nat, CashSession>, q: Query, now: int)
    ensures var before := RelatorioCaixa(sales, movements, sessions, q, now);
            var after := RelatorioCaixa(sales + [v], movements, sessions, q, now);
            var counted := InSelection(v, q, now) && CountsAsCompleted(v, q.usuarioId);
            && after.totalRecebido == before.totalRecebido + (if counted then v.valorTotal else 0)
            && after.qtdConcluidas == before.qtdConcluidas + (if counted then 1 else 0)
  {
    var completed := Completed(Selected(sales, q, now), q.usuarioId);
    CompletedSelectedSnoc(sales, v, q, now);
    if InSelection(v, q, now) && CountsAsCompleted(v, q.usuarioId) {
      SumTotalsAppend(completed, [v]);
      assert SumTotals([v]) == v.valorTotal;
    }
  }

  /** A new sale raises the number of cancelled sales exactly when it is selected and cancelled, whoever sold it. */
  lemma AddedSaleCancelled(sales: seq<Sale>, v: Sale, movements: seq<CashMovement>, sessions: map<nat, CashSession>, q: Query, now: int)
    ensures var before := RelatorioCaixa(sales, movements, sessions, q, now);
            var after := RelatorioCaixa(sales + [v], movements, sessions, q, now);
            after.qtdCanceladas == before.qtdCanceladas + (if InSelection(v, q, now) && v.status == Cancelada then 1 else 0)
  {
    CancelledSelectedSnoc(sales, v, q, now);
  }

  /**
   * A cancelled sale changes nothing in the report but the cancelled count:
   * not the amount received, not the groups, not the reconciliation.
   */
  lemma CancelledSaleNotReceived(sales: seq<Sale>, v: Sale, movements: seq<CashMovement>, sessions: map<nat, CashSession>, q: Query, now: int)
    requires v.status == Cancelada
    ensures var before := RelatorioCaixa(sales, movements, sessions, q, now);
            var after := RelatorioCaixa(sales + [v], movements, sessions, q, now);
            && after.totalRecebido == before.totalRecebido
            && after.qtdConcluidas == before.qtdConcluidas
            && after.porForma == before.porForma
            && after.porVendedor == before.porVendedor
            && after.porSessao == before.porSessao
            && after.reconciliation == before.reconciliation
  {
    CompletedSelectedSnoc(sales, v, q, now);
  }

  /** A completed sale adds its total to the expected cash when it was paid in cash, and nothing otherwise. */
  lemma CashSaleRaisesExpected(sessao: CashSession, completed: seq<Sale>, v: Sale, movements: seq<CashMovement>, sessaoId: nat)
    ensures var before := Reconcile(sessao, completed, movements, sessaoId);
            var after := Reconcile(sessao, completed + [v], movements, sessaoId);
            && after.totalDinheiro == before.totalDinheiro + (if v.formaPagamento == CashMethod then v.valorTotal else 0)
            && after.esperadoFinal == before.esperadoFinal + (if v.formaPagamento == CashMethod then v.valorTotal else 0)
  {
    FilterSnoc(completed, v, PaidInCash);
    if PaidInCash(v) {
      SumTotalsAppend(Filter(completed, PaidInCash), [v]);
      assert SumTotals([v]) == v.valorTotal;
    }
  }

  /**
   * A supply to the session raises the expected cash by its value, a
   * withdrawal lowers it by its value, and a movement of another session
   * changes nothing.
   */
  lemma MovementShiftsExpected(sessao: CashSession, completed: seq<Sale>, movements: seq<CashMovement>, m: CashMovement, sessaoId: nat)
    ensures var before := Reconcile(sessao, completed, movements, sessaoId);
            var after := Reconcile(sessao, completed, movements + [m], sessaoId);
            && after.totalSuprimentos == before.totalSuprimentos + (if m.sessao == sessaoId && m.tipo == Suprimento then m.valor else 0)
            && after.totalSangrias == before.totalSangrias + (if m.sessao == sessaoId && m.tipo == Sangria then m.valor else 0)
            && after.totalDinheiro == before.totalDinheiro
            && after.esperadoFinal == before.esperadoFinal
                 + (if m.sessao != sessaoId then 0 else if m.tipo == Suprimento then m.valor else -m.valor)
  {
    SumMovementsAppend(movements, [m], sessaoId, Suprimento);
    SumMovementsAppend(movements, [m], sessaoId, Sangria);
    assert [m][1..] == [];
  }

  /** The two sales of the report's test: one paid in cash, one by credit card, both in session 1. */
  function ExampleSales(): seq<Sale> {
    [Sale(0, Concluida, "DINHEIRO", 15000, Some(1), Some(7)),
     Sale(0, Concluida, "CREDITO", 10000, Some(1), Some(7))]
  }

  /** The report's test selects both sales of session 1; only the first is paid in cash. */
  lemma ExampleSelection()
    ensures Completed(Selected(ExampleSales(), Query(None, None, Some(1), None), 0), None) == ExampleSales()
    ensures Filter(ExampleSales(), PaidInCash) == ExampleSales()[..1]
  {
    var v1, v2 := ExampleSales()[0], ExampleSales()[1];
    var q := Query(None, None, Some(1), None);
    assert ExampleSales() == [v1, v2];
    assert [v1, v2][1..] == [v2] && [v2][1..] == [];
    assert Filter([v2], SelectionTest(q, 0)) == [v2];
    assert Selected([v1, v2], q, 0) == [v1, v2];
    assert Filter([v2], CompletedTest(None)) == [v2];
    assert "CREDITO" != CashMethod by { assert "CREDITO"[0] != CashMethod[0]; }
    assert Filter([v2], PaidInCash) == [];
  }

  /**
   * The session of the report's test: opening float 200.00, a cash sale of
   * 150.00 and a credit sale of 100.00, a supply of 50.00 and a withdrawal of
   * 30.00; the expected closing cash is 370.00.
   */
  lemma ExpectedClosingExample()
    ensures var movements := [CashMovement(1, Suprimento, 5000), CashMovement(1, Sangria, 3000)];
            var sessions := map[1 := CashSession(Some(20000), None)];
            var r := RelatorioCaixa(ExampleSales(), movements, sessions, Query(None, None, Some(1), None), 0);
            && r.totalRecebido == 25000
            && r.reconciliation == Some(Reconciliation(15000, 5000, 3000, 37000, None))
  {
    var m1, m2 := CashMovement(1, Suprimento, 5000), CashMovement(1, Sangria, 3000);
    ExampleSelection();
    var s := ExampleSales();
    assert s[1..] == [s[1]] && [s[1]][1..] == [];
    assert SumTotals(s) == 25000;
    assert SumTotals(s[..1]) == 15000 by { assert s[..1] == [s[0]]; }
    assert [m1, m2][1..] == [m2] && [m2][1..] == [];
    assert SumMovements([m2], 1, Suprimento) == 0;
    assert SumMovements([m1, m2], 1, Suprimento) == 5000;
    assert SumMovements([m2], 1, Sangria) == 3000;
    assert SumMovements([m1, m2], 1, Sangria) == 3000;
  }
}
