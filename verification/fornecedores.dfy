/** The supplier list screen: its search filter and the local effects of deletes. */
module Fornecedores {
  import opened Wrappers
  import opened Text
  import opened Seqs

  /** A supplier's bank account; only its id matters here. */
  datatype Conta = Conta(id: int, banco: string, agencia: string, numero: string)

  datatype Fornecedor = Fornecedor(
    id: int,
    nome: string,
    cpfCnpj: Option<string>,
    telefone: Option<string>,
    email: Option<string>,
    contas: Option<seq<Conta>>)

  /**
   * The search test: name or e-mail contain the term ignoring case, or the
   * raw CNPJ or phone contain it as typed. Missing fields read as "".
   */
  predicate MatchesSearch(f: Fornecedor, term: string)
  {
    || Contains(Lower(f.nome), Lower(term))
    || Contains(f.cpfCnpj.GetOr(""), term)
    || Contains(f.telefone.GetOr(""), term)
    || Contains(Lower(f.email.GetOr("")), Lower(term))
  }

  /** `fornecedoresFiltrados`. */
  function FilterSuppliers(xs: seq<Fornecedor>, term: string): (r: seq<Fornecedor>)
    ensures IsSubsequence(r, xs)
    ensures forall i :: 0 <= i < |r| ==> MatchesSearch(r[i], term)
    ensures forall i :: 0 <= i < |xs| && MatchesSearch(xs[i], term) ==> xs[i] in r
    ensures forall f :: multiset(r)[f] == if MatchesSearch(f, term) then multiset(xs)[f] else 0
    ensures term == "" ==> r == xs
  {
    var keep := (f: Fornecedor) => MatchesSearch(f, term);
    assert forall i :: 0 <= i < |xs| && MatchesSearch(xs[i], term) ==> xs[i] in Filter(xs, keep) by {
      forall i | 0 <= i < |xs| && MatchesSearch(xs[i], term)
        ensures xs[i] in Filter(xs, keep)
      {
        FilterKeeps(xs, keep, xs[i]);
      }
    }
    if term == "" then
      assert forall i :: 0 <= i < |xs| ==> keep(xs[i]) by {
        forall i | 0 <= i < |xs|
          ensures keep(xs[i])
        {
          ContainsEmpty(Lower(xs[i].nome));
        }
      }
      FilterAll(xs, keep);
      Filter(xs, keep)
    else
      Filter(xs, keep)
  }

  /** The list after `excluirFornecedor(id)` succeeds: every entry with that id goes, the rest stay in order. */
  function RemoveSupplier(xs: seq<Fornecedor>, id: int): (r: seq<Fornecedor>)
    ensures IsSubsequence(r, xs)
    ensures forall i :: 0 <= i < |r| ==> r[i].id != id
    ensures forall f: Fornecedor :: f.id != id ==> multiset(r)[f] == multiset(xs)[f]
  {
    Filter(xs, (f: Fornecedor) => f.id != id)
  }

  /** `contas ?? []`. */
  function Accounts(contas: Option<seq<Conta>>): seq<Conta>
  {
    if contas.Some? then contas.value else []
  }

  /** The accounts left once account `idConta` is gone; missing accounts read as none. */
  function RemainingAccounts(contas: Option<seq<Conta>>, idConta: int): (r: seq<Conta>)
    ensures IsSubsequence(r, Accounts(contas))
    ensures forall i :: 0 <= i < |r| ==> r[i].id != idConta
    ensures forall c: Conta :: c.id != idConta ==> multiset(r)[c] == multiset(Accounts(contas))[c]
    ensures contas.None? ==> r == []
  {
    if contas.None? then [] else Filter(contas.value, (c: Conta) => c.id != idConta)
  }

  /**
   * The selected supplier after `excluirContaFornecedor(idConta)` succeeds:
   * only its account list changes, and that list is always present afterwards.
   */
  function RemoveAccount(selected: Option<Fornecedor>, idConta: int): (r: Option<Fornecedor>)
    ensures r.Some? <==> selected.Some?
    ensures r.Some? ==> r.value == selected.value.(contas := r.value.contas)
    ensures r.Some? ==> r.value.contas == Some(RemainingAccounts(selected.value.contas, idConta))
  {
    match selected
    case None => None
    case Some(f) => Some(f.(contas := Some(RemainingAccounts(f.contas, idConta))))
  }

  /** Deleting an id no supplier has changes nothing. */
  lemma RemoveAbsentSupplier(xs: seq<Fornecedor>, id: int)
    requires forall i :: 0 <= i < |xs| ==> xs[i].id != id
    ensures RemoveSupplier(xs, id) == xs
  {
    FilterAll(xs, (f: Fornecedor) => f.id != id);
  }
}
