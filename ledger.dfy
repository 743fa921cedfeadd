/**
 * The transaction ledger: the checks `create_transacao` runs before it appends a row, and the
 * rows and views `listar_transacoes` returns for the calling user.
 */
module Ledger {
  import opened Wrappers
  import opened Calendar
  import opened Schema

  /** The JSON body of a create request; every field may be absent. */
  datatype TransacaoRequest = TransacaoRequest(
    descricao: Option<string>, valor: Option<int>, tipo: Option<string>,
    data: Option<string>, categoriaId: Option<int>)

  /**
   * `not descricao or valor is None or not tipo or not data_str or not categoria_id`, negated:
   * an amount of 0 is present, an empty text or a category id of 0 is not.
   */
  predicate FieldsPresent(req: TransacaoRequest) {
    Filled(req.descricao) && req.valor.Some? && Filled(req.tipo) && Filled(req.data) && NonZero(req.categoriaId)
  }

  /**
   * The decision of `create_transacao` for the user the token's email resolves to. The checks
   * run in this order: user, required fields, date, category.
   */
  function NewTransacao(
    us: seq<User>, cs: seq<Categoria>, ts: seq<Transacao>, email: Option<string>, req: TransacaoRequest)
    : (r: Result<Transacao, Failure>)
    ensures FindUserByEmail(us, email).None? ==> r == Err(UserNotFound)
    ensures FindUserByEmail(us, email).Some? && !FieldsPresent(req) ==> r == Err(MissingFields)
    ensures FindUserByEmail(us, email).Some? && FieldsPresent(req) ==>
              (r == Err(InvalidDate) <==> ParseDate(req.data.value).None?)
    ensures FindUserByEmail(us, email).Some? && FieldsPresent(req) && ParseDate(req.data.value).Some? ==>
              (r == Err(CategoryNotFound) <==> forall c :: c in cs ==> c.id != req.categoriaId.value)
    ensures FindUserByEmail(us, email).Some? && FieldsPresent(req) && ParseDate(req.data.value).Some? ==>
              (r.Ok? <==> exists c :: c in cs && c.id == req.categoriaId.value)
    ensures r.Err? ==> r.error in {UserNotFound, MissingFields, InvalidDate, CategoryNotFound}
    ensures r.Ok? ==>
              && r.value.id == |ts| + 1
              && Some(r.value.descricao) == req.descricao
              && Some(r.value.valor) == req.valor
              && Some(r.value.tipo) == req.tipo
              && req.data.Some? && ParseDate(req.data.value) == Some(r.value.data)
              && Some(r.value.categoriaId) == req.categoriaId
              && (exists c :: c in cs && c.id == r.value.categoriaId)
              && FindUserByEmail(us, email).Some? && FindUserByEmail(us, email).value.id == r.value.userId
  {
    match FindUserByEmail(us, email)
    case None => Err(UserNotFound)
    case Some(user) =>
      if !FieldsPresent(req) then Err(MissingFields)
      else match ParseDate(req.data.value)
        case None => Err(InvalidDate)
        case Some(date) =>
          match CategoriaById(cs, req.categoriaId.value)
          case None => Err(CategoryNotFound)
          case Some(categoria) =>
            Ok(Transacao(|ts| + 1, req.descricao.value, req.valor.value, req.tipo.value,
                         date, categoria.id, user.id))
  }

  /** A successful create keeps every reference resolvable and every stored row well formed. */
  lemma NewTransacaoPreservesConsistency(
    us: seq<User>, cs: seq<Categoria>, ts: seq<Transacao>, os: seq<Orcamento>,
    email: Option<string>, req: TransacaoRequest)
    requires Consistent(us, cs, ts, os)
    requires NewTransacao(us, cs, ts, email, req).Ok?
    ensures Consistent(us, cs, ts + [NewTransacao(us, cs, ts, email, req).value], os)
  {
    var t := NewTransacao(us, cs, ts, email, req).value;
    UserIdInRange(us, FindUserByEmail(us, email).value);
    CategoriaByIdIndexed(cs, t.categoriaId);
  }

  /** A date with month 13 is rejected once the user and the fields have passed. */
  lemma MonthThirteenRejected(
    us: seq<User>, cs: seq<Categoria>, ts: seq<Transacao>, email: Option<string>, req: TransacaoRequest)
    requires FindUserByEmail(us, email).Some? && FieldsPresent(req) && req.data == Some("2024-13-01")
    ensures NewTransacao(us, cs, ts, email, req) == Err(InvalidDate)
  {
    MonthThirteenExample();
  }

  // ---------------------------------------------------------------- listing

  /** `Transacao.query.filter_by(user_id=uid).all()`: the user's rows, in table order. */
  function Owned(ts: seq<Transacao>, uid: int): (r: seq<Transacao>)
    ensures |r| <= |ts|
    ensures forall i :: 0 <= i < |r| ==> r[i] in ts && r[i].userId == uid
  {
    if ts == [] then []
    else Owned(ts[..|ts| - 1], uid) + (if ts[|ts| - 1].userId == uid then [ts[|ts| - 1]] else [])
  }

  /** Exactly the rows of the user, and no other rows, are returned. */
  lemma {:induction false} OwnedExactly(ts: seq<Transacao>, uid: int, t: Transacao)
    ensures t in Owned(ts, uid) <==> t in ts && t.userId == uid
  {
    if ts != [] {
      var init := ts[..|ts| - 1];
      OwnedExactly(init, uid, t);
      assert ts == init + [ts[|ts| - 1]];
    }
  }

  /** A new row of the user shows up at the end of the listing; another user's row never does. */
  lemma OwnedAppend(ts: seq<Transacao>, t: Transacao, uid: int)
    ensures Owned(ts + [t], uid) == Owned(ts, uid) + (if t.userId == uid then [t] else [])
  {
    assert (ts + [t])[..|ts|] == ts;
  }

  /** One element of the `listar_transacoes` response. */
  datatype TransacaoView = TransacaoView(
    id: int, descricao: string, valor: int, tipo: string, data: string, categoria: string)

  /**
   * The response entry for a stored row: its fields, its date as `YYYY-MM-DD` text, and the name
   * of the category it references.
   */
  function ViewOf(t: Transacao, cs: seq<Categoria>): (v: TransacaoView)
    requires CategoriasIndexed(cs) && 1 <= t.categoriaId <= |cs| && ValidDate(t.data)
    ensures v.id == t.id && v.descricao == t.descricao && v.valor == t.valor && v.tipo == t.tipo
    ensures ParseDate(v.data) == Some(t.data)
    ensures exists c :: c in cs && c.id == t.categoriaId && c.nome == v.categoria
  {
    ParseFormat(t.data);
    assert cs[t.categoriaId - 1] in cs;
    TransacaoView(t.id, t.descricao, t.valor, t.tipo, FormatDate(t.data), cs[t.categoriaId - 1].nome)
  }
}
