/**
 * The balance calculator of `verificar_saldo_orcamento`: for a user and a `mes_ano` token, the
 * sum over that user's plans for the token of the plan's value minus the user's expenses in the
 * plan's category. Expenses are the transactions whose `tipo` is exactly "despesa"; they are
 * not filtered by date.
 */
module Balance {
  import opened Schema

  const DESPESA := "despesa"

  /** A transaction of the user, in the category, that counts as an expense. */
  predicate IsDespesa(t: Transacao, uid: int, cid: int) {
    t.userId == uid && t.categoriaId == cid && t.tipo == DESPESA
  }

  /**
   * `total_despesas`: the sum of `valor` over the rows of
   * `Transacao.query.filter_by(user_id=uid, categoria_id=cid)` whose `tipo` is "despesa".
   */
  function TotalDespesas(ts: seq<Transacao>, uid: int, cid: int): int {
    if ts == [] then 0
    else TotalDespesas(ts[..|ts| - 1], uid, cid)
         + (if IsDespesa(ts[|ts| - 1], uid, cid) then ts[|ts| - 1].valor else 0)
  }

  /** With no expense of the user in the category, the total is 0. */
  lemma {:induction false} TotalDespesasWithoutExpenses(ts: seq<Transacao>, uid: int, cid: int)
    requires forall i :: 0 <= i < |ts| ==> !IsDespesa(ts[i], uid, cid)
    ensures TotalDespesas(ts, uid, cid) == 0
  {
    if ts != [] {
      TotalDespesasWithoutExpenses(ts[..|ts| - 1], uid, cid);
    }
  }

  /** Non-negative amounts give a non-negative total. */
  lemma {:induction false} TotalDespesasNonNegative(ts: seq<Transacao>, uid: int, cid: int)
    requires forall i :: 0 <= i < |ts| ==> ts[i].valor >= 0
    ensures TotalDespesas(ts, uid, cid) >= 0
  {
    if ts != [] {
      TotalDespesasNonNegative(ts[..|ts| - 1], uid, cid);
    }
  }

  /** A plan selected by `Orcamento.query.filter_by(user_id=uid, mes_ano=mes)`. */
  predicate PlanoDoMes(o: Orcamento, uid: int, mes: string) {
    o.userId == uid && o.mesAno == mes
  }

  /** `Orcamento.query.filter_by(user_id=uid, mes_ano=mes).all()`, in table order. */
  function Matching(os: seq<Orcamento>, uid: int, mes: string): (r: seq<Orcamento>)
    ensures |r| <= |os|
    ensures forall i :: 0 <= i < |r| ==> r[i] in os && PlanoDoMes(r[i], uid, mes)
  {
    if os == [] then []
    else Matching(os[..|os| - 1], uid, mes) + (if PlanoDoMes(os[|os| - 1], uid, mes) then [os[|os| - 1]] else [])
  }

  /** Every plan of the user for the month is selected, and no other plan. */
  lemma {:induction false} MatchingExactly(os: seq<Orcamento>, uid: int, mes: string, o: Orcamento)
    ensures o in Matching(os, uid, mes) <==> o in os && PlanoDoMes(o, uid, mes)
  {
    if os != [] {
      var init := os[..|os| - 1];
      MatchingExactly(init, uid, mes, o);
      assert os == init + [os[|os| - 1]];
    }
  }

  /** What one plan adds to the balance: its value minus the user's expenses in its category. */
  function Restante(o: Orcamento, ts: seq<Transacao>, uid: int): int {
    o.valor - TotalDespesas(ts, uid, o.categoriaId)
  }

  /** The running `saldo_total` after the loop has visited the plans `ps`. */
  function SaldoOf(ps: seq<Orcamento>, ts: seq<Transacao>, uid: int): int {
    if ps == [] then 0 else SaldoOf(ps[..|ps| - 1], ts, uid) + Restante(ps[|ps| - 1], ts, uid)
  }

  /** The balance: the sum, over every plan of the user for the month, of what the plan adds. */
  function Saldo(os: seq<Orcamento>, ts: seq<Transacao>, uid: int, mes: string): int {
    if os == [] then 0
    else Saldo(os[..|os| - 1], ts, uid, mes)
         + (if PlanoDoMes(os[|os| - 1], uid, mes) then Restante(os[|os| - 1], ts, uid) else 0)
  }

  /** The loop over the filtered plans computes the balance. */
  lemma {:induction false} SaldoOfMatching(os: seq<Orcamento>, ts: seq<Transacao>, uid: int, mes: string)
    ensures SaldoOf(Matching(os, uid, mes), ts, uid) == Saldo(os, ts, uid, mes)
  {
    if os != [] {
      var init, o := os[..|os| - 1], os[|os| - 1];
      SaldoOfMatching(init, ts, uid, mes);
      var m := Matching(init, uid, mes);
      if PlanoDoMes(o, uid, mes) {
        assert (m + [o])[..|m|] == m;
      } else {
        assert m + [] == m;
      }
    }
  }

  /** With no plan for the user and month the balance is exactly 0. */
  lemma {:induction false} SaldoWithoutPlans(os: seq<Orcamento>, ts: seq<Transacao>, uid: int, mes: string)
    requires forall o :: o in os ==> !PlanoDoMes(o, uid, mes)
    ensures Saldo(os, ts, uid, mes) == 0
  {
    if os != [] {
      assert os[|os| - 1] in os;
      assert forall o :: o in os[..|os| - 1] ==> o in os;
      SaldoWithoutPlans(os[..|os| - 1], ts, uid, mes);
    }
  }

  /** The number of the user's plans for the month in category `cid`. */
  function PlanCount(os: seq<Orcamento>, uid: int, mes: string, cid: int): nat {
    if os == [] then 0
    else PlanCount(os[..|os| - 1], uid, mes, cid)
         + (if PlanoDoMes(os[|os| - 1], uid, mes) && os[|os| - 1].categoriaId == cid then 1 else 0)
  }

  /**
   * Recording a transaction lowers the balance by its value once for every plan of the user for
   * the month in its category when it is an expense of that user, whatever its date, and leaves
   * the balance unchanged otherwise.
   */
  lemma {:induction false} SaldoAfterTransacao(os: seq<Orcamento>, ts: seq<Transacao>, t: Transacao, uid: int, mes: string)
    ensures Saldo(os, ts + [t], uid, mes)
         == Saldo(os, ts, uid, mes)
            - (if t.userId == uid && t.tipo == DESPESA then t.valor * PlanCount(os, uid, mes, t.categoriaId) else 0)
  {
    if os != [] {
      var init, o := os[..|os| - 1], os[|os| - 1];
      SaldoAfterTransacao(init, ts, t, uid, mes);
      assert (ts + [t])[..|ts|] == ts;
      var k := PlanCount(init, uid, mes, t.categoriaId);
      assert t.valor * (k + 1) == t.valor * k + t.valor;
    }
  }

  /** Income, or any `tipo` other than "despesa" (including "expense"), never changes the balance. */
  lemma SaldoIgnoresNonDespesa(os: seq<Orcamento>, ts: seq<Transacao>, t: Transacao, uid: int, mes: string)
    requires t.tipo != DESPESA
    ensures Saldo(os, ts + [t], uid, mes) == Saldo(os, ts, uid, mes)
  {
    SaldoAfterTransacao(os, ts, t, uid, mes);
  }

  /** Another user's transactions never change the balance. */
  lemma SaldoIgnoresOtherUsers(os: seq<Orcamento>, ts: seq<Transacao>, t: Transacao, uid: int, mes: string)
    requires t.userId != uid
    ensures Saldo(os, ts + [t], uid, mes) == Saldo(os, ts, uid, mes)
  {
    SaldoAfterTransacao(os, ts, t, uid, mes);
  }

  /**
   * A new plan adds its value minus the category's expenses when it is the user's plan for the
   * month, even if an identical plan already exists, and nothing otherwise.
   */
  lemma SaldoAfterOrcamento(os: seq<Orcamento>, ts: seq<Transacao>, o: Orcamento, uid: int, mes: string)
    ensures Saldo(os + [o], ts, uid, mes)
         == Saldo(os, ts, uid, mes) + (if PlanoDoMes(o, uid, mes) then o.valor - TotalDespesas(ts, uid, o.categoriaId) else 0)
  {
    assert (os + [o])[..|os|] == os;
  }

  /** Two transaction tables that differ only in the dates of their rows. */
  predicate SameButDates(ts: seq<Transacao>, ts': seq<Transacao>) {
    |ts| == |ts'| && forall i :: 0 <= i < |ts| ==> ts'[i] == ts[i].(data := ts'[i].data)
  }

  lemma {:induction false} TotalDespesasIgnoresDates(ts: seq<Transacao>, ts': seq<Transacao>, uid: int, cid: int)
    requires SameButDates(ts, ts')
    ensures TotalDespesas(ts, uid, cid) == TotalDespesas(ts', uid, cid)
  {
    if ts != [] {
      var n := |ts| - 1;
      assert SameButDates(ts[..n], ts'[..n]);
      TotalDespesasIgnoresDates(ts[..n], ts'[..n], uid, cid);
      assert ts'[n] == ts[n].(data := ts'[n].data);
    }
  }

  /** The balance does not depend on when the transactions happened. */
  lemma {:induction false} SaldoIgnoresDates(os: seq<Orcamento>, ts: seq<Transacao>, ts': seq<Transacao>, uid: int, mes: string)
    requires SameButDates(ts, ts')
    ensures Saldo(os, ts, uid, mes) == Saldo(os, ts', uid, mes)
  {
    if os != [] {
      SaldoIgnoresDates(os[..|os| - 1], ts, ts', uid, mes);
      TotalDespesasIgnoresDates(ts, ts', uid, os[|os| - 1].categoriaId);
    }
  }
}
