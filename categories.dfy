/** The category registry: listing categories and creating one with a unique, non-empty name. */
module Categories {
  import opened Wrappers
  import opened Schema

  /** `listar_categorias`: every category as an (id, nome) pair, in table order. */
  function ListarCategorias(cs: seq<Categoria>): (r: seq<(int, string)>)
    ensures |r| == |cs|
    ensures forall i :: 0 <= i < |r| ==> r[i] == (cs[i].id, cs[i].nome)
  {
    seq(|cs|, i requires 0 <= i < |cs| => (cs[i].id, cs[i].nome))
  }

  /**
   * The decision of `create_categoria`: a missing or empty name is rejected first, then a name
   * some category already has; otherwise the new row carries the name and the next id.
   */
  function NewCategoria(cs: seq<Categoria>, nome: Option<string>): (r: Result<Categoria, Failure>)
    ensures !Filled(nome) ==> r == Err(MissingName)
    ensures Filled(nome) ==> (r == Err(DuplicateName) <==> exists c :: c in cs && c.nome == nome.value)
    ensures Filled(nome) && (forall c :: c in cs ==> c.nome != nome.value) ==> r.Ok?
    ensures r.Ok? ==> r.value == Categoria(|cs| + 1, nome.value) && r.value.nome != ""
    ensures r.Ok? ==> forall c :: c in cs ==> c.nome != r.value.nome
  {
    if !Filled(nome) then Err(MissingName)
    else if CategoriaByName(cs, nome.value).Some? then Err(DuplicateName)
    else Ok(Categoria(|cs| + 1, nome.value))
  }

  /** A successful create keeps the store consistent; in particular names stay pairwise distinct. */
  lemma NewCategoriaPreservesConsistency(
    us: seq<User>, cs: seq<Categoria>, ts: seq<Transacao>, os: seq<Orcamento>, nome: Option<string>)
    requires Consistent(us, cs, ts, os)
    requires NewCategoria(cs, nome).Ok?
    ensures Consistent(us, cs + [NewCategoria(cs, nome).value], ts, os)
  {
    var c := NewCategoria(cs, nome).value;
    var cs' := cs + [c];
    forall i, j | 0 <= i < j < |cs'|
      ensures cs'[i].nome != cs'[j].nome
    {
      if j == |cs| {
        assert cs[i] in cs;
      }
    }
  }

  /** Registering the same name twice: the second attempt is rejected as a duplicate. */
  lemma CreateTwiceIsDuplicate(cs: seq<Categoria>, nome: Option<string>)
    requires NewCategoria(cs, nome).Ok?
    ensures NewCategoria(cs + [NewCategoria(cs, nome).value], nome) == Err(DuplicateName)
  {
    var c := NewCategoria(cs, nome).value;
    assert c in cs + [c];
  }

  /** After a successful create the listing is the old listing with the new category at its end. */
  lemma ListingAfterCreate(cs: seq<Categoria>, nome: Option<string>)
    requires NewCategoria(cs, nome).Ok?
    ensures ListarCategorias(cs + [NewCategoria(cs, nome).value])
         == ListarCategorias(cs) + [(|cs| + 1, nome.value)]
  {
  }
}
