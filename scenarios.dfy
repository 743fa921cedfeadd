/**
 * Worked examples driven only through the store's operations: what a caller can conclude from
 * the operations' contracts alone. The user's email is left arbitrary.
 */
module Scenarios {
  import opened Wrappers
  import opened Calendar
  import opened Schema
  import opened Ledger
  import opened Plans
  import opened Store

  /**
   * A 500 plan for "Food" in 2024-06, expenses of 120 and 80 plus an income of 50: the balance
   * is 500 - (120 + 80) = 300 whatever the three transactions' dates are, so also when the
   * expense of 80 falls in another month (dates such as "2024-06-05" and "2024-07-01").
   */
  method CrossMonthScenario(email: string, d1: string, d2: string, d3: string) returns (saldo: Result<int, Failure>)
    requires ParseDate(d1).Some? && ParseDate(d2).Some? && ParseDate(d3).Some?
    ensures saldo == Ok(300)
  {
    var u, food := User(1, "u1", email), Categoria(1, "Food");
    var plano := Orcamento(1, 500, "2024-06", 1, 1);
    var r1 := TransacaoRequest(Some("mercado"), Some(120), Some("despesa"), Some(d1), Some(1));
    var r2 := TransacaoRequest(Some("feira"), Some(80), Some("despesa"), Some(d2), Some(1));
    var r3 := TransacaoRequest(Some("reembolso"), Some(50), Some("receita"), Some(d3), Some(1));
    var t1 := Transacao(1, "mercado", 120, "despesa", ParseDate(d1).value, 1, 1);
    var t2 := Transacao(2, "feira", 80, "despesa", ParseDate(d2).value, 1, 1);
    var t3 := Transacao(3, "reembolso", 50, "receita", ParseDate(d3).value, 1, 1);
    FindUserAfterAppend([], u);
    assert CategoriaById([food], 1) == Some(food);

    var store := StoreWithFood(email);
    var pedido := OrcamentoRequest(Some(500), Some("2024-06"), Some(1));
    PlannedAs([u], [food], [], email, pedido, plano);
    var _ := store.CreateOrcamento(Some(email), pedido);
    RecordedAs([u], [food], [], email, r1, t1);
    var _ := store.CreateTransacao(Some(email), r1);
    assert store.transacoes == [t1];
    RecordedAs([u], [food], [t1], email, r2, t2);
    var _ := store.CreateTransacao(Some(email), r2);
    assert store.transacoes == [t1, t2];
    RecordedAs([u], [food], [t1, t2], email, r3, t3);
    var _ := store.CreateTransacao(Some(email), r3);
    assert store.transacoes == [t1, t2, t3];
    saldo := store.VerificarSaldoOrcamento(Some(email), Some("2024-06"));
    CrossMonthSaldo(plano, t1, t2, t3);
  }

  /**
   * Two plans for the same user, category and month, of 100 and 200, and expenses of 50: each
   * plan counts on its own, so the balance is (100 - 50) + (200 - 50) = 200.
   */
  method DuplicatePlansScenario(email: string, d: string) returns (saldo: Result<int, Failure>)
    requires ParseDate(d).Some?
    ensures saldo == Ok(200)
  {
    var u, food := User(1, "u1", email), Categoria(1, "Food");
    var p1 := Orcamento(1, 100, "2024-06", 1, 1);
    var p2 := Orcamento(2, 200, "2024-06", 1, 1);
    var q1 := OrcamentoRequest(Some(100), Some("2024-06"), Some(1));
    var q2 := OrcamentoRequest(Some(200), Some("2024-06"), Some(1));
    var r := TransacaoRequest(Some("mercado"), Some(50), Some("despesa"), Some(d), Some(1));
    var t := Transacao(1, "mercado", 50, "despesa", ParseDate(d).value, 1, 1);
    FindUserAfterAppend([], u);
    assert CategoriaById([food], 1) == Some(food);

    var store := StoreWithFood(email);
    PlannedAs([u], [food], [], email, q1, p1);
    var _ := store.CreateOrcamento(Some(email), q1);
    PlannedAs([u], [food], [p1], email, q2, p2);
    var _ := store.CreateOrcamento(Some(email), q2);
    assert store.orcamentos == [p1, p2];
    RecordedAs([u], [food], [], email, r, t);
    var _ := store.CreateTransacao(Some(email), r);
    assert store.transacoes == [t];
    saldo := store.VerificarSaldoOrcamento(Some(email), Some("2024-06"));
    DuplicatePlansSaldo(p1, p2, t);
  }

  lemma DuplicatePlansSaldo(p1: Orcamento, p2: Orcamento, t: Transacao)
    requires p1 == Orcamento(1, 100, "2024-06", 1, 1) && p2 == Orcamento(2, 200, "2024-06", 1, 1)
    requires t == Transacao(1, "mercado", 50, "despesa", t.data, 1, 1)
    ensures Balance.Saldo([p1, p2], [t], 1, "2024-06") == 200
  {
    assert [t][..0] == [];
    assert Balance.TotalDespesas([t], 1, 1) == 50;
    assert [p1, p2][..1] == [p1];
    assert [p1][..0] == [];
    assert Balance.Saldo([p1], [t], 1, "2024-06") == 50;
  }

  /** A new store holding one user, with the given email, and one category, "Food". */
  method StoreWithFood(email: string) returns (store: FinanceStore)
    ensures fresh(store) && store.Valid()
    ensures store.users == [User(1, "u1", email)] && store.categorias == [Categoria(1, "Food")]
    ensures store.transacoes == [] && store.orcamentos == []
  {
    store := new FinanceStore();
    var _ := store.SeedUser("u1", email);
    var _ := store.CreateCategoria(Some("Food"));
  }

  /** A plan request that passes every check is stored with the resolved user and category ids. */
  lemma PlannedAs(us: seq<User>, cs: seq<Categoria>, os: seq<Orcamento>, email: string, req: OrcamentoRequest, o: Orcamento)
    requires FindUserByEmail(us, Some(email)) == Some(User(1, "u1", email))
    requires CategoriaById(cs, 1) == Some(Categoria(1, "Food"))
    requires Plans.FieldsPresent(req) && req.categoriaId == Some(1)
    requires o == Orcamento(|os| + 1, req.valor.value, req.mesAno.value, 1, 1)
    ensures NewOrcamento(us, cs, os, Some(email), req) == Ok(o)
  {
  }

  /** A request that passes every check is recorded with the resolved user and category ids. */
  lemma RecordedAs(us: seq<User>, cs: seq<Categoria>, ts: seq<Transacao>, email: string, req: TransacaoRequest, t: Transacao)
    requires FindUserByEmail(us, Some(email)) == Some(User(1, "u1", email))
    requires CategoriaById(cs, 1) == Some(Categoria(1, "Food"))
    requires Ledger.FieldsPresent(req) && req.categoriaId == Some(1)
    requires ParseDate(req.data.value) == Some(t.data)
    requires t == Transacao(|ts| + 1, req.descricao.value, req.valor.value, req.tipo.value, t.data, 1, 1)
    ensures NewTransacao(us, cs, ts, Some(email), req) == Ok(t)
  {
  }

  lemma CrossMonthSaldo(plano: Orcamento, t1: Transacao, t2: Transacao, t3: Transacao)
    requires plano == Orcamento(1, 500, "2024-06", 1, 1)
    requires t1 == Transacao(1, "mercado", 120, "despesa", t1.data, 1, 1)
    requires t2 == Transacao(2, "feira", 80, "despesa", t2.data, 1, 1)
    requires t3 == Transacao(3, "reembolso", 50, "receita", t3.data, 1, 1)
    ensures Balance.Saldo([plano], [t1, t2, t3], 1, "2024-06") == 300
  {
    assert [t1, t2, t3][..2] == [t1, t2];
    assert [t1, t2][..1] == [t1];
    assert [t1][..0] == [];
    assert Balance.IsDespesa(t1, 1, 1) && Balance.IsDespesa(t2, 1, 1) && !Balance.IsDespesa(t3, 1, 1);
    assert Balance.TotalDespesas([t1], 1, 1) == 120;
    assert Balance.TotalDespesas([t1, t2], 1, 1) == 200;
    assert Balance.TotalDespesas([t1, t2, t3], 1, 1) == 200;
    assert [plano][..0] == [];
  }
}
