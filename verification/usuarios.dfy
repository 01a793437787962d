/** The user list screen: search and the two select filters, delete and the active toggle. */
module Usuarios {
  import opened Wrappers
  import opened Text
  import opened Seqs

  datatype Usuario = Usuario(
    id: int,
    nome: string,
    email: string,
    ativo: bool,
    perfil: string,
    departamento: string,
    dataCriacao: string,
    ultimoAcesso: Option<string>)

  /** The value both select filters start with, meaning "no restriction". */
  const Todos: string := "todos"

  predicate MatchesSearch(u: Usuario, searchTerm: string)
  {
    var t := Lower(searchTerm);
    Contains(Lower(u.nome), t) || Contains(Lower(u.email), t) || Contains(Lower(u.departamento), t)
  }

  predicate MatchesPerfil(u: Usuario, perfilFilter: string)
  {
    perfilFilter == Todos || perfilFilter == "" || u.perfil == perfilFilter
  }

  predicate MatchesStatus(u: Usuario, statusFilter: string)
  {
    || statusFilter == Todos
    || statusFilter == ""
    || (statusFilter == "ativo" && u.ativo)
    || (statusFilter == "inativo" && !u.ativo)
  }

  /** The status values the select offers, and the empty one. */
  predicate KnownStatus(statusFilter: string)
  {
    statusFilter == Todos || statusFilter == "" || statusFilter == "ativo" || statusFilter == "inativo"
  }

  predicate Matches(u: Usuario, searchTerm: string, perfilFilter: string, statusFilter: string)
  {
    MatchesSearch(u, searchTerm) && MatchesPerfil(u, perfilFilter) && MatchesStatus(u, statusFilter)
  }

  /** `usuariosFiltrados`. */
  function FilterUsers(users: seq<Usuario>, searchTerm: string, perfilFilter: string, statusFilter: string): (r: seq<Usuario>)
    ensures IsSubsequence(r, users)
    ensures forall u: Usuario :: multiset(r)[u] == if Matches(u, searchTerm, perfilFilter, statusFilter) then multiset(users)[u] else 0
    ensures searchTerm == "" && perfilFilter == Todos && statusFilter == Todos ==> r == users
    ensures !KnownStatus(statusFilter) ==> r == []
  {
    var keep := (u: Usuario) => Matches(u, searchTerm, perfilFilter, statusFilter);
    if searchTerm == "" && perfilFilter == Todos && statusFilter == Todos then
      assert forall i :: 0 <= i < |users| ==> keep(users[i]) by {
        forall i | 0 <= i < |users|
          ensures keep(users[i])
        {
          DefaultsMatch(users[i]);
        }
      }
      FilterAll(users, keep);
      Filter(users, keep)
    else if !KnownStatus(statusFilter) then
      assert forall i :: 0 <= i < |users| ==> !keep(users[i]) by {
        forall i | 0 <= i < |users|
          ensures !keep(users[i])
        {
          UnknownStatusMatchesNone(users[i], searchTerm, perfilFilter, statusFilter);
        }
      }
      FilterNone(users, keep);
      Filter(users, keep)
    else
      Filter(users, keep)
  }

  /** The initial filters (empty search, "todos", "todos") let every user through. */
  lemma DefaultsMatch(u: Usuario)
    ensures Matches(u, "", Todos, Todos)
  {
    ContainsEmpty(Lower(u.nome));
  }

  /** A status value the select does not offer lets nobody through. */
  lemma UnknownStatusMatchesNone(u: Usuario, searchTerm: string, perfilFilter: string, statusFilter: string)
    requires !KnownStatus(statusFilter)
    ensures !Matches(u, searchTerm, perfilFilter, statusFilter)
  {
  }

  /** Every user the list shows passes the search and both select filters. */
  lemma FilterUsersRestricts(users: seq<Usuario>, searchTerm: string, perfilFilter: string, statusFilter: string)
    ensures var r := FilterUsers(users, searchTerm, perfilFilter, statusFilter);
      && (forall i :: 0 <= i < |r| ==> MatchesSearch(r[i], searchTerm))
      && (perfilFilter != Todos && perfilFilter != "" ==> forall i :: 0 <= i < |r| ==> r[i].perfil == perfilFilter)
      && (statusFilter == "ativo" ==> forall i :: 0 <= i < |r| ==> r[i].ativo)
      && (statusFilter == "inativo" ==> forall i :: 0 <= i < |r| ==> !r[i].ativo)
  {
    var r := FilterUsers(users, searchTerm, perfilFilter, statusFilter);
    forall i | 0 <= i < |r|
      ensures Matches(r[i], searchTerm, perfilFilter, statusFilter)
    {
      assert multiset(r)[r[i]] > 0;
    }
  }

  /** `excluirUsuario(id)`: the users with that id go, the rest stay in order. */
  function RemoveUser(users: seq<Usuario>, id: int): (r: seq<Usuario>)
    ensures IsSubsequence(r, users)
    ensures forall i :: 0 <= i < |r| ==> r[i].id != id
    ensures forall u: Usuario :: u.id != id ==> multiset(r)[u] == multiset(users)[u]
  {
    Filter(users, (u: Usuario) => u.id != id)
  }

  /** `toggleStatusUsuario(id)`: flips `ativo` of the users with that id and touches nothing else. */
  function ToggleStatus(users: seq<Usuario>, id: int): (r: seq<Usuario>)
    ensures |r| == |users|
    ensures forall i :: 0 <= i < |r| && users[i].id == id ==> r[i] == users[i].(ativo := !users[i].ativo)
    ensures forall i :: 0 <= i < |r| && users[i].id != id ==> r[i] == users[i]
  {
    seq(|users|, i requires 0 <= i < |users| =>
      if users[i].id == id then users[i].(ativo := !users[i].ativo) else users[i])
  }

  /** Toggling the same user twice restores the list. */
  lemma ToggleStatusTwice(users: seq<Usuario>, id: int)
    ensures ToggleStatus(ToggleStatus(users, id), id) == users
  {
  }

  /** Toggling keeps every id in place, so the list's identities never change. */
  lemma ToggleStatusKeepsIds(users: seq<Usuario>, id: int)
    ensures forall i :: 0 <= i < |users| ==> ToggleStatus(users, id)[i].id == users[i].id
  {
  }
}
