/**
 * The sale records of sales/models.py: `Venda` (a sale, with its status and
 * total) and `ItemVenda` (a line item, whose `save` fixes its subtotal), and
 * what their foreign keys do when a row is deleted.
 *
 * Money is counted in cents: every money field is a DecimalField with two
 * decimal places. Rows refer to each other by primary key.
 */
module SalesModels {
  import opened Wrappers

  // ---------------------------------------------------------------------------
  // Venda.STATUS_CHOICES

  datatype Status = Concluida | Cancelada

  /** The code stored in the `status` column. */
  function StatusCode(s: Status): string {
    match s
    case Concluida => "CONCLUIDA"
    case Cancelada => "CANCELADA"
  }

  /** Reads a stored `status` code; only the two declared choices are accepted. */
  function ParseStatus(code: string): Option<Status> {
    if code == "CONCLUIDA" then Some(Concluida)
    else if code == "CANCELADA" then Some(Cancelada)
    else None
  }

  /** Every status is stored as a code that reads back as itself ... */
  lemma StatusCodeRoundTrip(s: Status)
    ensures ParseStatus(StatusCode(s)) == Some(s)
  {
  }

  /** ... and the only codes that read as a status are those two. */
  lemma ParseStatusOnlyChoices(code: string)
    ensures ParseStatus(code).Some? <==> code == "CONCLUIDA" || code == "CANCELADA"
    ensures ParseStatus(code).Some? ==> StatusCode(ParseStatus(code).value) == code
  {
  }

  // ---------------------------------------------------------------------------
  // Money fields: DecimalField(max_digits=10, decimal_places=2)

  const MaxDigits: nat := 10
  const DecimalPlaces: nat := 2

  /** An amount in cents fits a money column: at most ten digits in all, two of them after the point. */
  predicate FitsMoneyField(cents: int) {
    -10_000_000_000 < cents < 10_000_000_000
  }

  lemma MoneyFieldBounds()
    ensures FitsMoneyField(99_999_999_99) && FitsMoneyField(-99_999_999_99)
    ensures !FitsMoneyField(100_000_000_00) && !FitsMoneyField(-100_000_000_00)
  {
  }

  // ---------------------------------------------------------------------------
  // Venda

  class Venda {
    /** `data_hora`, set once on creation (auto_now_add); the clock is a parameter here. */
    const dataHora: int
    var valorTotal: int
    var status: Status
    /** The seller; `None` once that user is deleted (on_delete=SET_NULL). */
    var usuario: Option<nat>

    /** A new sale: status CONCLUIDA and total 0.00, the field defaults. */
    constructor (now: int, usuario: Option<nat>)
      ensures FitsMoneyField(valorTotal)
      ensures status == Concluida && valorTotal == 0
      ensures dataHora == now && this.usuario == usuario
    {
      dataHora := now;
      valorTotal := 0;
      status := Concluida;
      this.usuario := usuario;
    }
  }

  // ---------------------------------------------------------------------------
  // ItemVenda

  class ItemVenda {
    const venda: nat
    const produto: nat
    /** PositiveIntegerField: never negative (zero is accepted), 1 by default. */
    var quantidade: nat
    var precoUnitario: int
    var subtotal: int

    /** The rule `save` enforces: the subtotal is the unit price times the quantity. */
    ghost predicate Consistent()
      reads this
    {
      subtotal == precoUnitario * quantidade
    }

    /** A line item as created, before it is saved; `subtotal` holds whatever the caller supplied. */
    constructor (venda: nat, produto: nat, precoUnitario: int, subtotal: int, quantidade: nat := 1)
      ensures this.venda == venda && this.produto == produto
      ensures this.precoUnitario == precoUnitario && this.quantidade == quantidade
      ensures this.subtotal == subtotal
    {
      this.venda := venda;
      this.produto := produto;
      this.precoUnitario := precoUnitario;
      this.quantidade := quantidade;
      this.subtotal := subtotal;
    }

    /**
     * `save`: overwrites the subtotal with unit price times quantity, whatever
     * it held, before the row is written.
     */
    method Save()
      modifies this`subtotal
      ensures Consistent()
      ensures precoUnitario == old(precoUnitario) && quantidade == old(quantidade)
    {
      subtotal := precoUnitario * quantidade;
    }
  }

  /** Saving a freshly created item discards the subtotal it was given. */
  method CreateItem(venda: nat, produto: nat, precoUnitario: int, quantidade: nat, subtotal: int)
    returns (item: ItemVenda)
    ensures item.Consistent() && item.subtotal == precoUnitario * quantidade
    ensures item.venda == venda && item.produto == produto
    ensures item.precoUnitario == precoUnitario && item.quantidade == quantidade
  {
    item := new ItemVenda(venda, produto, precoUnitario, subtotal, quantidade);
    item.Save();
  }

  // ---------------------------------------------------------------------------
  // Deleting rows: ItemVenda.venda is CASCADE, ItemVenda.produto is PROTECT,
  // Venda.usuario is SET_NULL.

  datatype ItemRow = ItemRow(venda: nat, produto: nat)

  /** The rows involved: sales with their seller, line items by key, products and users. */
  datatype Store = Store(vendas: map<nat, Option<nat>>, itens: map<nat, ItemRow>, produtos: set<nat>, usuarios: set<nat>)

  /** Every foreign key points at an existing row. */
  predicate Integrity(st: Store) {
    && (forall i :: i in st.itens ==> st.itens[i].venda in st.vendas && st.itens[i].produto in st.produtos)
    && (forall v :: v in st.vendas && st.vendas[v].Some? ==> st.vendas[v].value in st.usuarios)
  }

  /** Deleting a sale deletes its line items with it. */
  function DeleteVenda(st: Store, v: nat): (r: Store)
    ensures r.vendas == st.vendas - {v}
    ensures r.itens.Keys <= st.itens.Keys
    ensures forall i :: i in r.itens ==> r.itens[i].venda != v
    ensures forall i :: i in st.itens && st.itens[i].venda != v ==> i in r.itens && r.itens[i] == st.itens[i]
    ensures r.produtos == st.produtos && r.usuarios == st.usuarios
  {
    Store(map w | w in st.vendas && w != v :: st.vendas[w],
          map i | i in st.itens && st.itens[i].venda != v :: st.itens[i],
          st.produtos, st.usuarios)
  }

  datatype DeleteError = ProtectedError

  /** A product that any line item refers to cannot be deleted. */
  function DeleteProduto(st: Store, p: nat): (r: Result<Store, DeleteError>)
    ensures r.Failure? <==> exists i :: i in st.itens && st.itens[i].produto == p
    ensures r.Success? ==> r.value == st.(produtos := st.produtos - {p})
  {
    if exists i :: i in st.itens && st.itens[i].produto == p then Failure(ProtectedError)
    else Success(st.(produtos := st.produtos - {p}))
  }

  /** Deleting a user keeps that user's sales, with no seller. */
  function DeleteUsuario(st: Store, u: nat): (r: Store)
    ensures r.vendas.Keys == st.vendas.Keys && r.itens == st.itens
    ensures r.usuarios == st.usuarios - {u} && r.produtos == st.produtos
    ensures forall v :: v in r.vendas ==> r.vendas[v] == (if st.vendas[v] == Some(u) then None else st.vendas[v])
  {
    st.(vendas := map v | v in st.vendas :: if st.vendas[v] == Some(u) then None else st.vendas[v],
        usuarios := st.usuarios - {u})
  }

  /** No deletion leaves a dangling foreign key. */
  lemma DeletionsKeepIntegrity(st: Store, v: nat, p: nat, u: nat)
    requires Integrity(st)
    ensures Integrity(DeleteVenda(st, v))
    ensures DeleteProduto(st, p).Success? ==> Integrity(DeleteProduto(st, p).value)
    ensures Integrity(DeleteUsuario(st, u))
  {
  }
}
