/** Budget plans: the checks `create_orcamento` runs before it appends a plan. */
module Plans {
  import opened Wrappers
  import opened Schema

  /** The JSON body of a create request; every field may be absent. */
  datatype OrcamentoRequest = OrcamentoRequest(valor: Option<int>, mesAno: Option<string>, categoriaId: Option<int>)

  /** `valor is None or not mes_ano or not categoria_id`, negated. */
  predicate FieldsPresent(req: OrcamentoRequest) {
    req.valor.Some? && Filled(req.mesAno) && NonZero(req.categoriaId)
  }

  /**
   * The decision of `create_orcamento`, checking user, then required fields, then category. The
   * month token is stored as given, and no earlier plan for the same user, category and month
   * prevents a new one.
   */
  function NewOrcamento(
    us: seq<User>, cs: seq<Categoria>, os: seq<Orcamento>, email: Option<string>, req: OrcamentoRequest)
    : (r: Result<Orcamento, Failure>)
    ensures FindUserByEmail(us, email).None? ==> r == Err(UserNotFound)
    ensures FindUserByEmail(us, email).Some? && !FieldsPresent(req) ==> r == Err(MissingFields)
    ensures FindUserByEmail(us, email).Some? && FieldsPresent(req) ==>
              (r.Ok? <==> exists c :: c in cs && c.id == req.categoriaId.value)
    ensures FindUserByEmail(us, email).Some? && FieldsPresent(req) ==>
              (r == Err(CategoryNotFound) <==> forall c :: c in cs ==> c.id != req.categoriaId.value)
    ensures r.Err? ==> r.error in {UserNotFound, MissingFields, CategoryNotFound}
    ensures r.Ok? ==>
              && r.value.id == |os| + 1
              && Some(r.value.valor) == req.valor
              && Some(r.value.mesAno) == req.mesAno
              && Some(r.value.categoriaId) == req.categoriaId
              && FindUserByEmail(us, email).Some? && FindUserByEmail(us, email).value.id == r.value.userId
  {
    match FindUserByEmail(us, email)
    case None => Err(UserNotFound)
    case Some(user) =>
      if !FieldsPresent(req) then Err(MissingFields)
      else match CategoriaById(cs, req.categoriaId.value)
        case None => Err(CategoryNotFound)
        case Some(categoria) => Ok(Orcamento(|os| + 1, req.valor.value, req.mesAno.value, user.id, categoria.id))
  }

  /** A successful create keeps every reference resolvable and every stored plan well formed. */
  lemma NewOrcamentoPreservesConsistency(
    us: seq<User>, cs: seq<Categoria>, ts: seq<Transacao>, os: seq<Orcamento>,
    email: Option<string>, req: OrcamentoRequest)
    requires Consistent(us, cs, ts, os)
    requires NewOrcamento(us, cs, os, email, req).Ok?
    ensures Consistent(us, cs, ts, os + [NewOrcamento(us, cs, os, email, req).value])
  {
    var o := NewOrcamento(us, cs, os, email, req).value;
    UserIdInRange(us, FindUserByEmail(us, email).value);
    CategoriaByIdIndexed(cs, o.categoriaId);
  }

  /**
   * A request that succeeded once succeeds again on the grown table: an existing plan for the
   * same user, category and month never blocks another.
   */
  lemma DuplicatePlansAccepted(
    us: seq<User>, cs: seq<Categoria>, os: seq<Orcamento>, email: Option<string>, req: OrcamentoRequest)
    requires NewOrcamento(us, cs, os, email, req).Ok?
    ensures var o := NewOrcamento(us, cs, os, email, req).value;
            NewOrcamento(us, cs, os + [o], email, req) == Ok(o.(id := |os| + 2))
  {
  }
}
