/**
 * The four tables of the finance tracker (users, categories, transactions and budget plans),
 * the error responses of its handlers, the lookups the handlers run against the tables, and the
 * invariant that every create operation preserves.
 *
 * Row identifiers are SQLite row ids: the tables start empty and rows are never deleted, so a new
 * row's id is one more than the number of rows before it, and row `i` of a table has id `i + 1`.
 */
module Schema {
  import opened Wrappers
  import opened Calendar

  datatype User = User(id: int, username: string, email: string)

  datatype Categoria = Categoria(id: int, nome: string)

  /** A transaction; `tipo` is free text, conventionally "receita" (income) or "despesa" (expense). */
  datatype Transacao = Transacao(
    id: int, descricao: string, valor: int, tipo: string, data: Date, categoriaId: int, userId: int)

  /** A budget plan for one user, one category and one `mesAno` ("YYYY-MM") token. */
  datatype Orcamento = Orcamento(id: int, valor: int, mesAno: string, userId: int, categoriaId: int)

  /** The error responses of the handlers, one per distinct message. */
  datatype Failure =
    | UserNotFound      // "Usuário não encontrado"
    | MissingName       // "Nome da categoria é obrigatório"
    | DuplicateName     // "Categoria já existe"
    | MissingFields     // "Todos os campos são obrigatórios"
    | InvalidDate       // "Data inválida, use formato YYYY-MM-DD"
    | CategoryNotFound  // "Categoria não encontrada"
    | MissingMonth      // "Parâmetro mes_ano é obrigatório"
    | DuplicateUser     // unique constraint on username or email violated at commit

  /** The HTTP status each error is returned with: 404 for a missing user or category, 400 otherwise. */
  function Status(f: Failure): (code: int)
    ensures code == 404 <==> f.UserNotFound? || f.CategoryNotFound?
    ensures code != 404 ==> code == 400
  {
    match f
    case UserNotFound => 404
    case CategoryNotFound => 404
    case _ => 400
  }

  /** Python truthiness of an optional text field: absent and "" are both false. */
  predicate Filled(s: Option<string>) {
    s.Some? && s.value != ""
  }

  /** Python truthiness of an optional integer field: absent and 0 are both false. */
  predicate NonZero(k: Option<int>) {
    k.Some? && k.value != 0
  }

  // ---------------------------------------------------------------- lookups

  /**
   * `User.query.filter_by(email=...).first()`: the first user, in table order, with the verified
   * email. A token without an email matches no row, since the column is never null.
   */
  function FindUserByEmail(us: seq<User>, email: Option<string>): (r: Option<User>)
    ensures r.Some? ==> email.Some? && r.value in us && r.value.email == email.value
    ensures r.None? ==> email.None? || forall u :: u in us ==> u.email != email.value
    decreases |us|
  {
    if email.None? || us == [] then None
    else if us[0].email == email.value then Some(us[0])
    else FindUserByEmail(us[1..], email)
  }

  /** `Categoria.query.get(id)`: the category with that primary key, if any. */
  function CategoriaById(cs: seq<Categoria>, id: int): (r: Option<Categoria>)
    ensures r.Some? ==> r.value in cs && r.value.id == id
    ensures r.None? ==> forall c :: c in cs ==> c.id != id
    decreases |cs|
  {
    if cs == [] then None
    else if cs[0].id == id then Some(cs[0])
    else CategoriaById(cs[1..], id)
  }

  /** `Categoria.query.filter_by(nome=nome).first()`: exact, case-sensitive name match. */
  function CategoriaByName(cs: seq<Categoria>, nome: string): (r: Option<Categoria>)
    ensures r.Some? ==> r.value in cs && r.value.nome == nome
    ensures r.None? ==> forall c :: c in cs ==> c.nome != nome
    decreases |cs|
  {
    if cs == [] then None
    else if cs[0].nome == nome then Some(cs[0])
    else CategoriaByName(cs[1..], nome)
  }

  // ---------------------------------------------------------------- invariant

  predicate UsersIndexed(us: seq<User>) {
    forall i :: 0 <= i < |us| ==> us[i].id == i + 1
  }

  predicate CategoriasIndexed(cs: seq<Categoria>) {
    forall i :: 0 <= i < |cs| ==> cs[i].id == i + 1
  }

  predicate TransacoesIndexed(ts: seq<Transacao>) {
    forall i :: 0 <= i < |ts| ==> ts[i].id == i + 1
  }

  predicate OrcamentosIndexed(os: seq<Orcamento>) {
    forall i :: 0 <= i < |os| ==> os[i].id == i + 1
  }

  /** The unique constraints on `User.username` and `User.email`. */
  predicate UsersUnique(us: seq<User>) {
    forall i, j :: 0 <= i < j < |us| ==> us[i].username != us[j].username && us[i].email != us[j].email
  }

  /** The unique constraint on `Categoria.nome`, and the non-empty check of its handler. */
  predicate NamesUnique(cs: seq<Categoria>) {
    (forall i, j :: 0 <= i < j < |cs| ==> cs[i].nome != cs[j].nome)
    && forall c :: c in cs ==> c.nome != ""
  }

  /** A stored transaction references an existing user and category and passed validation. */
  predicate TransacaoWellFormed(t: Transacao, userCount: int, categoriaCount: int) {
    && 1 <= t.userId <= userCount
    && 1 <= t.categoriaId <= categoriaCount
    && t.descricao != "" && t.tipo != ""
    && ValidDate(t.data)
  }

  /** A stored budget plan references an existing user and category and has a month token. */
  predicate OrcamentoWellFormed(o: Orcamento, userCount: int, categoriaCount: int) {
    && 1 <= o.userId <= userCount
    && 1 <= o.categoriaId <= categoriaCount
    && o.mesAno != ""
  }

  predicate Consistent(us: seq<User>, cs: seq<Categoria>, ts: seq<Transacao>, os: seq<Orcamento>) {
    && UsersIndexed(us) && CategoriasIndexed(cs) && TransacoesIndexed(ts) && OrcamentosIndexed(os)
    && UsersUnique(us) && NamesUnique(cs)
    && (forall t :: t in ts ==> TransacaoWellFormed(t, |us|, |cs|))
    && (forall o :: o in os ==> OrcamentoWellFormed(o, |us|, |cs|))
  }

  lemma UserIdInRange(us: seq<User>, u: User)
    requires UsersIndexed(us) && u in us
    ensures 1 <= u.id <= |us|
  {
    var i :| 0 <= i < |us| && us[i] == u;
  }

  /** In an indexed table, `Categoria.query.get(id)` finds row `id - 1` exactly when that row exists. */
  lemma CategoriaByIdIndexed(cs: seq<Categoria>, id: int)
    requires CategoriasIndexed(cs)
    ensures CategoriaById(cs, id).Some? <==> 1 <= id <= |cs|
    ensures CategoriaById(cs, id).Some? ==> CategoriaById(cs, id).value == cs[id - 1]
  {
    if 1 <= id <= |cs| {
      assert cs[id - 1] in cs && cs[id - 1].id == id;
    }
    var r := CategoriaById(cs, id);
    if r.Some? {
      var i :| 0 <= i < |cs| && cs[i] == r.value;
      assert i == id - 1;
    }
  }

  /**
   * Every reference a consistent store holds resolves: the category lookup of the balance loop
   * and of the transaction listing always finds the row.
   */
  lemma ReferencesResolve(us: seq<User>, cs: seq<Categoria>, ts: seq<Transacao>, os: seq<Orcamento>)
    requires Consistent(us, cs, ts, os)
    ensures forall t :: t in ts ==> CategoriaById(cs, t.categoriaId) == Some(cs[t.categoriaId - 1])
    ensures forall o :: o in os ==> CategoriaById(cs, o.categoriaId) == Some(cs[o.categoriaId - 1])
    ensures forall t :: t in ts ==> us[t.userId - 1].id == t.userId
    ensures forall o :: o in os ==> us[o.userId - 1].id == o.userId
  {
    forall t | t in ts
      ensures CategoriaById(cs, t.categoriaId) == Some(cs[t.categoriaId - 1])
    {
      CategoriaByIdIndexed(cs, t.categoriaId);
    }
    forall o | o in os
      ensures CategoriaById(cs, o.categoriaId) == Some(cs[o.categoriaId - 1])
    {
      CategoriaByIdIndexed(cs, o.categoriaId);
    }
  }

  // ---------------------------------------------------------------- seeding users

  /**
   * Inserting a local user row: the unique constraints on username and email reject a
   * duplicate; otherwise the row gets the next id.
   */
  function NewUser(us: seq<User>, username: string, email: string): (r: Result<User, Failure>)
    ensures r.Err? <==> exists u :: u in us && (u.username == username || u.email == email)
    ensures r.Err? ==> r.error == DuplicateUser
    ensures r.Ok? ==> r.value == User(|us| + 1, username, email)
  {
    if exists u :: u in us && (u.username == username || u.email == email) then Err(DuplicateUser)
    else Ok(User(|us| + 1, username, email))
  }

  lemma NewUserPreservesConsistency(
    us: seq<User>, cs: seq<Categoria>, ts: seq<Transacao>, os: seq<Orcamento>, username: string, email: string)
    requires Consistent(us, cs, ts, os)
    requires NewUser(us, username, email).Ok?
    ensures Consistent(us + [NewUser(us, username, email).value], cs, ts, os)
  {
    var u := NewUser(us, username, email).value;
    var us' := us + [u];
    forall i, j | 0 <= i < j < |us'|
      ensures us'[i].username != us'[j].username && us'[i].email != us'[j].email
    {
      if j == |us| {
        assert us[i] in us;
      }
    }
  }

  /** A user appended with an email no earlier row has is the one that email resolves to. */
  lemma {:induction false} FindUserAfterAppend(us: seq<User>, u: User)
    requires forall v :: v in us ==> v.email != u.email
    ensures FindUserByEmail(us + [u], Some(u.email)) == Some(u)
  {
    if us != [] {
      assert (us + [u])[1..] == us[1..] + [u];
      FindUserAfterAppend(us[1..], u);
    }
  }

  /** After seeding, the new user is the one the handlers resolve from that email. */
  lemma NewUserIsFound(us: seq<User>, username: string, email: string)
    requires NewUser(us, username, email).Ok?
    ensures FindUserByEmail(us + [NewUser(us, username, email).value], Some(email))
         == Some(NewUser(us, username, email).value)
  {
    FindUserAfterAppend(us, NewUser(us, username, email).value);
  }
}
