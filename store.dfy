/**
 * The finance tracker's store: the four tables as sequences that the create handlers append to,
 * and the handlers as methods. The caller's identity reaches each handler as the email of the
 * already verified token (`None` when the token carries none).
 */
module Store {
  import opened Wrappers
  import opened Calendar
  import opened Schema
  import Categories
  import opened Ledger
  import opened Plans
  import opened Balance

  class FinanceStore {
    var users: seq<User>
    var categorias: seq<Categoria>
    var transacoes: seq<Transacao>
    var orcamentos: seq<Orcamento>

    ghost predicate Valid()
      reads this
    {
      Consistent(users, categorias, transacoes, orcamentos)
    }

    /** A freshly created database: all four tables empty. */
    constructor ()
      ensures Valid()
      ensures users == [] && categorias == [] && transacoes == [] && orcamentos == []
    {
      users, categorias, transacoes, orcamentos := [], [], [], [];
    }

    /** Inserts a local user row, as signup does once the identity provider has accepted the account. */
    method SeedUser(username: string, email: string) returns (r: Result<int, Failure>)
      requires Valid()
      modifies this
      ensures Valid()
      ensures categorias == old(categorias) && transacoes == old(transacoes) && orcamentos == old(orcamentos)
      ensures match NewUser(old(users), username, email)
              case Ok(u) => r == Ok(u.id) && users == old(users) + [u]
              case Err(f) => r == Err(f) && users == old(users)
    {
      if exists u :: u in users && (u.username == username || u.email == email) {
        return Err(DuplicateUser);
      }
      var novoUser := User(|users| + 1, username, email);
      NewUserPreservesConsistency(users, categorias, transacoes, orcamentos, username, email);
      users := users + [novoUser];
      r := Ok(novoUser.id);
    }

    /** `create_categoria`. */
    method CreateCategoria(nome: Option<string>) returns (r: Result<int, Failure>)
      requires Valid()
      modifies this
      ensures Valid()
      ensures users == old(users) && transacoes == old(transacoes) && orcamentos == old(orcamentos)
      ensures match Categories.NewCategoria(old(categorias), nome)
              case Ok(c) => r == Ok(c.id) && categorias == old(categorias) + [c]
              case Err(f) => r == Err(f) && categorias == old(categorias)
    {
      if !Filled(nome) {
        return Err(MissingName);
      }
      if CategoriaByName(categorias, nome.value).Some? {
        return Err(DuplicateName);
      }
      var novaCategoria := Categoria(|categorias| + 1, nome.value);
      Categories.NewCategoriaPreservesConsistency(users, categorias, transacoes, orcamentos, nome);
      categorias := categorias + [novaCategoria];
      r := Ok(novaCategoria.id);
    }

    /** `listar_transacoes`: the caller's transactions in table order, with their category names. */
    method ListarTransacoes(email: Option<string>) returns (r: Result<seq<TransacaoView>, Failure>)
      requires Valid()
      ensures match FindUserByEmail(users, email)
              case None => r == Err(UserNotFound)
              case Some(u) =>
                && r.Ok?
                && |r.value| == |Owned(transacoes, u.id)|
                && forall i :: 0 <= i < |r.value| ==> r.value[i] == ViewOf(Owned(transacoes, u.id)[i], categorias)
    {
      var user := FindUserByEmail(users, email);
      if user.None? {
        return Err(UserNotFound);
      }
      var ts := Owned(transacoes, user.value.id);
      var resultado: seq<TransacaoView> := [];
      for i := 0 to |ts|
        invariant |resultado| == i
        invariant forall k :: 0 <= k < i ==> resultado[k] == ViewOf(ts[k], categorias)
      {
        var t := ts[i];
        var categoria := CategoriaById(categorias, t.categoriaId);
        CategoriaByIdIndexed(categorias, t.categoriaId);
        resultado := resultado + [TransacaoView(t.id, t.descricao, t.valor, t.tipo, FormatDate(t.data), categoria.value.nome)];
      }
      r := Ok(resultado);
    }

    /** `create_transacao`. */
    method CreateTransacao(email: Option<string>, req: TransacaoRequest) returns (r: Result<int, Failure>)
      requires Valid()
      modifies this
      ensures Valid()
      ensures users == old(users) && categorias == old(categorias) && orcamentos == old(orcamentos)
      ensures match NewTransacao(old(users), old(categorias), old(transacoes), email, req)
              case Ok(t) => r == Ok(t.id) && transacoes == old(transacoes) + [t]
              case Err(f) => r == Err(f) && transacoes == old(transacoes)
    {
      var user := FindUserByEmail(users, email);
      if user.None? {
        return Err(UserNotFound);
      }
      if !Ledger.FieldsPresent(req) {
        return Err(MissingFields);
      }
      var dataDt := ParseDate(req.data.value);
      if dataDt.None? {
        return Err(InvalidDate);
      }
      var categoria := CategoriaById(categorias, req.categoriaId.value);
      if categoria.None? {
        return Err(CategoryNotFound);
      }
      var transacao := Transacao(|transacoes| + 1, req.descricao.value, req.valor.value, req.tipo.value,
                                 dataDt.value, categoria.value.id, user.value.id);
      NewTransacaoPreservesConsistency(users, categorias, transacoes, orcamentos, email, req);
      transacoes := transacoes + [transacao];
      r := Ok(transacao.id);
    }

    /** `create_orcamento`. */
    method CreateOrcamento(email: Option<string>, req: OrcamentoRequest) returns (r: Result<int, Failure>)
      requires Valid()
      modifies this
      ensures Valid()
      ensures users == old(users) && categorias == old(categorias) && transacoes == old(transacoes)
      ensures match NewOrcamento(old(users), old(categorias), old(orcamentos), email, req)
              case Ok(o) => r == Ok(o.id) && orcamentos == old(orcamentos) + [o]
              case Err(f) => r == Err(f) && orcamentos == old(orcamentos)
    {
      var user := FindUserByEmail(users, email);
      if user.None? {
        return Err(UserNotFound);
      }
      if !Plans.FieldsPresent(req) {
        return Err(MissingFields);
      }
      var categoria := CategoriaById(categorias, req.categoriaId.value);
      if categoria.None? {
        return Err(CategoryNotFound);
      }
      var novoOrcamento := Orcamento(|orcamentos| + 1, req.valor.value, req.mesAno.value,
                                     user.value.id, categoria.value.id);
      NewOrcamentoPreservesConsistency(users, categorias, transacoes, orcamentos, email, req);
      orcamentos := orcamentos + [novoOrcamento];
      r := Ok(novoOrcamento.id);
    }

    /**
     * `verificar_saldo_orcamento`: an unknown user is reported before a missing month; otherwise
     * the balance of the user's plans for the month.
     */
    method VerificarSaldoOrcamento(email: Option<string>, mesAno: Option<string>) returns (r: Result<int, Failure>)
      requires Valid()
      ensures match FindUserByEmail(users, email)
              case None => r == Err(UserNotFound)
              case Some(u) =>
                if !Filled(mesAno) then r == Err(MissingMonth)
                else r == Ok(Saldo(orcamentos, transacoes, u.id, mesAno.value))
    {
      var user := FindUserByEmail(users, email);
      if user.None? {
        return Err(UserNotFound);
      }
      if !Filled(mesAno) {
        return Err(MissingMonth);
      }
      var uid := user.value.id;
      var planos := Matching(orcamentos, uid, mesAno.value);
      var saldoTotal := 0;
      for i := 0 to |planos|
        invariant saldoTotal == SaldoOf(planos[..i], transacoes, uid)
      {
        var orcamento := planos[i];
        var categoria := CategoriaById(categorias, orcamento.categoriaId);
        CategoriaByIdIndexed(categorias, orcamento.categoriaId);
        var totalDespesas := TotalDespesas(transacoes, uid, categoria.value.id);
        saldoTotal := saldoTotal + (orcamento.valor - totalDespesas);
        assert planos[..i + 1][..i] == planos[..i];
      }
      assert planos[..|planos|] == planos;
      SaldoOfMatching(orcamentos, transacoes, uid, mesAno.value);
      r := Ok(saldoTotal);
    }
  }
}
