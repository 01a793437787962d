/**
 * The companies screen: the two-step dialog, loading a company into the edit
 * form, the multipart fields sent on add and edit, and the name search.
 */
module Empresas {
  import opened Wrappers
  import opened Text
  import opened Seqs

  /**
   * A company's address as the API may send it. The declared type names the
   * state `estado`; the edit dialog reads a `uf` member, so both are kept.
   */
  datatype Address = Address(
    estado: Option<string>,
    uf: Option<string>,
    cidade: Option<string>,
    bairro: Option<string>,
    logradouro: Option<string>,
    numero: Option<string>,
    complemento: Option<string>,
    cep: Option<string>)

  datatype Empresa = Empresa(
    id: string,
    imgUrl: Option<string>,
    nome: Option<string>,
    cnpj: Option<string>,
    inscricaoEstadual: Option<string>,
    telefone: Option<string>,
    email: Option<string>,
    site: Option<string>,
    endereco: Option<Address>)

  /** The dialog's form values (`FormSchema`). */
  datatype FormValues = FormValues(
    id: string,
    nome: string,
    cnpj: string,
    inscricao: Option<string>,
    cep: string,
    uf: string,
    cidade: string,
    bairro: string,
    logradouro: string,
    numero: string,
    complemento: Option<string>,
    email: string,
    telefone: string,
    site: Option<string>,
    imgUrl: string)

  /** A chosen image file; its contents are not modelled. */
  datatype FileRef = FileRef(name: string)

  /** A multipart entry. */
  datatype Entry = Text(text: string) | Upload(file: FileRef)

  /** The multipart field names the dialogs use. */
  datatype Key =
    | Nome | NumeroCnpj | InscricaoEstadual | Telefone | Fax | EnderecoEmail | Site | Observacao
    | Id | Imagem | Estado | Cidade | Bairro | Logradouro | Numero | Complemento | Cep

  /** The name each field travels under. */
  function WireName(k: Key): string
  {
    match k
    case Nome => "nome"
    case NumeroCnpj => "NumeroCnpj"
    case InscricaoEstadual => "inscricaoEstadual"
    case Telefone => "telefone"
    case Fax => "fax"
    case EnderecoEmail => "enderecoEmail"
    case Site => "site"
    case Observacao => "observacao"
    case Id => "id"
    case Imagem => "imagem"
    case Estado => "estado"
    case Cidade => "cidade"
    case Bairro => "bairro"
    case Logradouro => "logradouro"
    case Numero => "numero"
    case Complemento => "complemento"
    case Cep => "cep"
  }

  type Fields = seq<(Key, Entry)>

  // ---------------------------------------------------------------------
  // Steps

  /** `Math.min(prev + 1, 2)`: the least of the next step and the last one. */
  function NextStep(step: int): (r: int)
    ensures r <= step + 1 && r <= 2
    ensures r == step + 1 || r == 2
  {
    if step + 1 < 2 then step + 1 else 2
  }

  /** `Math.max(prev - 1, 1)`: the greatest of the previous step and the first one. */
  function PrevStep(step: int): (r: int)
    ensures r >= step - 1 && r >= 1
    ensures r == step - 1 || r == 1
  {
    if step - 1 > 1 then step - 1 else 1
  }

  /** The step after a run of button presses: `true` for "next", `false` for "previous". */
  function Steps(step: int, presses: seq<bool>): int
    decreases |presses|
  {
    if presses == [] then step
    else Steps(if presses[0] then NextStep(step) else PrevStep(step), presses[1..])
  }

  /** From a step in [1, 2], any run of presses stays in [1, 2]. */
  lemma {:induction false} StepsStayInRange(step: int, presses: seq<bool>)
    requires 1 <= step <= 2
    ensures 1 <= Steps(step, presses) <= 2
    decreases |presses|
  {
    if presses != [] {
      StepsStayInRange(if presses[0] then NextStep(step) else PrevStep(step), presses[1..]);
    }
  }

  // ---------------------------------------------------------------------
  // Opening the edit dialog

  /** The dialog's state that `handleEdit` sets. */
  datatype Dialog = Dialog(currentStep: int, isEditOpen: bool, form: FormValues, selected: Option<Empresa>)

  /** `x ? x : ""`. */
  function Truthy(x: Option<string>): (r: string)
    ensures x.Some? ==> r == x.value
    ensures x.None? ==> r == ""
  {
    if x.Some? then x.value else ""
  }

  const NoAddress: Address := Address(None, None, None, None, None, None, None, None)

  /** The form values the edit dialog loads, reading the state from `get`. */
  function EditValues(e: Empresa, state: Address -> Option<string>): FormValues
  {
    var a := e.endereco.GetOr(NoAddress);
    FormValues(
      e.id, Truthy(e.nome), Truthy(e.cnpj), Some(Truthy(e.inscricaoEstadual)),
      Truthy(a.cep), Truthy(state(a)), Truthy(a.cidade), Truthy(a.bairro), Truthy(a.logradouro),
      Truthy(a.numero), Some(Truthy(a.complemento)),
      Truthy(e.email), Truthy(e.telefone), Some(Truthy(e.site)), Truthy(e.imgUrl))
  }

  /** `handleEdit` as written: the state field is read from `uf`. */
  function HandleEditAsWritten(d: Dialog, e: Empresa): (r: Dialog)
    ensures r.currentStep == 1 && r.isEditOpen && r.selected == Some(e)
    ensures r.form.id == e.id && r.form.nome == Truthy(e.nome) && r.form.cnpj == Truthy(e.cnpj)
    ensures r.form.uf == Truthy(e.endereco.GetOr(NoAddress).uf)
    ensures r.form.inscricao == Some(Truthy(e.inscricaoEstadual))
    ensures r.form.email == Truthy(e.email) && r.form.telefone == Truthy(e.telefone)
    ensures r.form.site == Some(Truthy(e.site)) && r.form.imgUrl == Truthy(e.imgUrl)
    ensures var a := e.endereco.GetOr(NoAddress);
      && r.form.cep == Truthy(a.cep) && r.form.cidade == Truthy(a.cidade)
      && r.form.bairro == Truthy(a.bairro) && r.form.logradouro == Truthy(a.logradouro)
      && r.form.numero == Truthy(a.numero) && r.form.complemento == Some(Truthy(a.complemento))
  {
    Dialog(1, true, EditValues(e, (a: Address) => a.uf), Some(e))
  }

  /** A company whose address carries its state as `estado`, the declared field. */
  const SaoPaulo: Empresa := Empresa("7", None, Some("Filial SP"), Some("12345678000195"), None, None, None, None,
                                     Some(Address(Some("SP"), None, None, None, None, None, None, Some("01001000"))))

  /** The stored state of a company whose address holds the declared `estado` field is lost when it is loaded. */
  lemma EditAsWrittenDropsState(d: Dialog)
    ensures SaoPaulo.endereco.value.estado == Some("SP")
    ensures HandleEditAsWritten(d, SaoPaulo).form.uf == ""
  {
  }

  /** `handleEdit` reading the declared `estado` field. */
  function HandleEdit(d: Dialog, e: Empresa): (r: Dialog)
    ensures r.currentStep == 1 && r.isEditOpen && r.selected == Some(e)
    ensures r.form.id == e.id && r.form.nome == Truthy(e.nome) && r.form.cnpj == Truthy(e.cnpj)
    ensures r.form.uf == Truthy(e.endereco.GetOr(NoAddress).estado)
    ensures r.form == HandleEditAsWritten(d, e).form.(uf := r.form.uf)
  {
    Dialog(1, true, EditValues(e, (a: Address) => a.estado), Some(e))
  }

  /** Wherever the dialog was, opening an edit starts again at the first step. */
  lemma EditRestartsSteps(d: Dialog, e: Empresa, presses: seq<bool>)
    ensures HandleEdit(d, e).currentStep == 1
    ensures 1 <= Steps(HandleEdit(d, e).currentStep, presses) <= 2
  {
    StepsStayInRange(1, presses);
  }

  // ---------------------------------------------------------------------
  // The multipart fields

  /** The value of the first entry under `key`. */
  function Lookup(fields: Fields, key: Key): Option<Entry>
    decreases |fields|
  {
    if fields == [] then None
    else if fields[0].0 == key then Some(fields[0].1)
    else Lookup(fields[1..], key)
  }

  /** A lookup finds something exactly when some entry has the key. */
  lemma {:induction false} LookupFinds(fields: Fields, key: Key)
    ensures Lookup(fields, key).None? <==> forall i :: 0 <= i < |fields| ==> fields[i].0 != key
    decreases |fields|
  {
    if fields != [] {
      LookupFinds(fields[1..], key);
      assert forall i :: 1 <= i < |fields| ==> fields[i] == fields[1..][i - 1];
    }
  }

  /** The entry at `i` is the first under its key, so it is what a lookup finds. */
  lemma {:induction false} LookupFirst(fields: Fields, i: nat, key: Key)
    requires i < |fields| && fields[i].0 == key
    requires forall j :: 0 <= j < i ==> fields[j].0 != key
    ensures Lookup(fields, key) == Some(fields[i].1)
    decreases i
  {
    if i > 0 {
      LookupFirst(fields[1..], i - 1, key);
    }
  }

  /** A lookup in a concatenation finds the first part's entry if it has one. */
  lemma {:induction false} LookupConcat(a: Fields, b: Fields, key: Key)
    ensures Lookup(a + b, key) == if Lookup(a, key).Some? then Lookup(a, key) else Lookup(b, key)
    decreases |a|
  {
    if a == [] {
      assert a + b == b;
    } else {
      assert (a + b)[0] == a[0];
      assert (a + b)[1..] == a[1..] + b;
      LookupConcat(a[1..], b, key);
    }
  }

  /** The image entry, present exactly when a file is chosen. */
  function ImageField(file: Option<FileRef>): (r: Fields)
    ensures Lookup(r, Imagem) == if file.Some? then Some(Upload(file.value)) else None
    ensures forall k :: k != Imagem ==> Lookup(r, k).None?
    ensures forall j :: 0 <= j < |r| ==> r[j].0 == Imagem
  {
    if file.Some? then [(Imagem, Upload(file.value))] else []
  }

  /** The entries both dialogs send before the image. */
  function CompanyFields(v: FormValues): (r: Fields)
    ensures |r| == 8 && forall i :: 0 <= i < |r| ==> r[i].0 != Id
  {
    [(Nome, Text(v.nome)), (NumeroCnpj, Text(v.cnpj)), (InscricaoEstadual, Text(v.inscricao.GetOr(""))),
     (Telefone, Text(v.telefone)), (Fax, Text("")), (EnderecoEmail, Text(v.email)),
     (Site, Text(v.site.GetOr(""))), (Observacao, Text(""))]
  }

  /** The company's own values travel as typed. */
  lemma CompanyFieldsCopied(v: FormValues)
    ensures var r := CompanyFields(v);
      && Lookup(r, Nome) == Some(Text(v.nome)) && Lookup(r, NumeroCnpj) == Some(Text(v.cnpj))
      && Lookup(r, Telefone) == Some(Text(v.telefone)) && Lookup(r, EnderecoEmail) == Some(Text(v.email))
  {
    var r := CompanyFields(v);
    LookupFirst(r, 3, Telefone);
    LookupFirst(r, 5, EnderecoEmail);
  }

  /** The fax and the notes are always blank; a missing registration or site is sent as "". */
  lemma CompanyFieldsBlanks(v: FormValues)
    ensures var r := CompanyFields(v);
      && Lookup(r, Fax) == Some(Text("")) && Lookup(r, Observacao) == Some(Text(""))
      && Lookup(r, InscricaoEstadual) == Some(Text(v.inscricao.GetOr("")))
      && Lookup(r, Site) == Some(Text(v.site.GetOr("")))
  {
    var r := CompanyFields(v);
    LookupFirst(r, 2, InscricaoEstadual);
    LookupFirst(r, 4, Fax);
    LookupFirst(r, 6, Site);
    LookupFirst(r, 7, Observacao);
  }

  /** The part before the image carries no id, image or address entry. */
  lemma CompanyFieldsOmit(v: FormValues, k: Key)
    requires k == Id || k == Imagem || k == Estado || k == Cep || k == Complemento
    ensures Lookup(CompanyFields(v), k).None?
  {
    LookupFinds(CompanyFields(v), k);
  }

  /** The entries both dialogs send after the image: the address, its state taken from `uf`. */
  function AddressFields(v: FormValues): (r: Fields)
    ensures |r| == 7 && forall i :: 0 <= i < |r| ==> r[i].0 != Id
  {
    [(Estado, Text(v.uf)), (Cidade, Text(v.cidade)), (Bairro, Text(v.bairro)),
     (Logradouro, Text(v.logradouro)), (Numero, Text(v.numero)),
     (Complemento, Text(v.complemento.GetOr(""))), (Cep, Text(v.cep))]
  }

  /** The state goes out under `estado`; a missing complement is sent as "". */
  lemma AddressFieldsSent(v: FormValues)
    ensures var r := AddressFields(v);
      && Lookup(r, Estado) == Some(Text(v.uf)) && Lookup(r, Cep) == Some(Text(v.cep))
      && Lookup(r, Complemento) == Some(Text(v.complemento.GetOr("")))
  {
    var r := AddressFields(v);
    LookupFirst(r, 5, Complemento);
    LookupFirst(r, 6, Cep);
  }

  /** The address part carries no id or image entry. */
  lemma AddressFieldsOmit(v: FormValues, k: Key)
    requires k == Id || k == Imagem
    ensures Lookup(AddressFields(v), k).None?
  {
    LookupFinds(AddressFields(v), k);
  }

  /** The first of three parts that has the key decides. */
  function FirstOf(a: Fields, b: Fields, c: Fields, key: Key): Option<Entry>
  {
    if Lookup(a, key).Some? then Lookup(a, key) else if Lookup(b, key).Some? then Lookup(b, key) else Lookup(c, key)
  }

  /** A lookup in three parts in a row. */
  lemma LookupConcat3(a: Fields, b: Fields, c: Fields, key: Key)
    ensures Lookup(a + b + c, key) == FirstOf(a, b, c, key)
  {
    LookupConcat(a + b, c, key);
    LookupConcat(a, b, key);
  }

  /** The multipart body of `onSubmit` (add). */
  function AddFields(v: FormValues, file: Option<FileRef>): (r: Fields)
    ensures forall k :: Lookup(r, k) == FirstOf(CompanyFields(v), ImageField(file), AddressFields(v), k)
  {
    var c, i, a := CompanyFields(v), ImageField(file), AddressFields(v);
    assert forall k :: Lookup(c + i + a, k) == FirstOf(c, i, a, k) by {
      forall k {
        LookupConcat3(c, i, a, k);
      }
    }
    c + i + a
  }

  /** What adding sends from the company part: the blank fax and notes, and "" for a missing registration or site. */
  lemma AddFieldsContent(v: FormValues, file: Option<FileRef>)
    ensures var r := AddFields(v, file);
      && Lookup(r, Fax) == Some(Text("")) && Lookup(r, Observacao) == Some(Text(""))
      && Lookup(r, InscricaoEstadual) == Some(Text(v.inscricao.GetOr("")))
      && Lookup(r, Site) == Some(Text(v.site.GetOr("")))
  {
    CompanyFieldsBlanks(v);
  }

  /** What adding sends after the company part: the state from `uf`, the complement, an image exactly when chosen, and no id. */
  lemma AddFieldsAddressAndImage(v: FormValues, file: Option<FileRef>)
    ensures var r := AddFields(v, file);
      && Lookup(r, Complemento) == Some(Text(v.complemento.GetOr("")))
      && Lookup(r, Estado) == Some(Text(v.uf))
      && Lookup(r, Imagem) == (if file.Some? then Some(Upload(file.value)) else None)
      && Lookup(r, Id).None?
  {
    AddressFieldsSent(v);
    CompanyFieldsOmit(v, Complemento);
    CompanyFieldsOmit(v, Estado);
    CompanyFieldsOmit(v, Imagem);
    CompanyFieldsOmit(v, Id);
    AddressFieldsOmit(v, Imagem);
    AddressFieldsOmit(v, Id);
  }

  /** The multipart body of `onEditSubmit`: the add body with the company id after `observacao`. */
  function EditFields(v: FormValues, file: Option<FileRef>): (r: Fields)
    ensures Lookup(r, Id) == Some(Text(v.id))
  {
    var c, id, i, a := CompanyFields(v), [(Id, Text(v.id))], ImageField(file), AddressFields(v);
    CompanyFieldsOmit(v, Id);
    LookupConcat3(c, id, i, Id);
    LookupConcat(c + id + i, a, Id);
    c + id + i + a
  }

  /** Under every key but the id, editing sends what adding sends. */
  lemma EditLooksUpAsAdd(v: FormValues, file: Option<FileRef>)
    ensures forall k :: k != Id ==> Lookup(EditFields(v, file), k) == Lookup(AddFields(v, file), k)
  {
    var c, id, i, a := CompanyFields(v), [(Id, Text(v.id))], ImageField(file), AddressFields(v);
    forall k | k != Id
      ensures Lookup(EditFields(v, file), k) == Lookup(AddFields(v, file), k)
    {
      LookupFinds(id, k);
      LookupConcat(c + id + i, a, k);
      LookupConcat3(c, id, i, k);
      LookupConcat3(c, i, a, k);
    }
  }

  /** The entries other than those under `key`. */
  function Without(fields: Fields, key: Key): (r: Fields)
    ensures Lookup(r, key).None?
    ensures IsSubsequence(r, fields)
  {
    var r := Filter(fields, (f: (Key, Entry)) => f.0 != key);
    LookupFinds(r, key);
    r
  }

  /** Dropping a key that only the second of four parts carries leaves the other three. */
  lemma {:induction false} WithoutMiddle(c: Fields, id: Fields, i: Fields, a: Fields, key: Key)
    requires forall j :: 0 <= j < |c| ==> c[j].0 != key
    requires forall j :: 0 <= j < |id| ==> id[j].0 == key
    requires forall j :: 0 <= j < |i| ==> i[j].0 != key
    requires forall j :: 0 <= j < |a| ==> a[j].0 != key
    ensures Without(c + id + i + a, key) == c + i + a
  {
    var keep := (f: (Key, Entry)) => f.0 != key;
    FilterAll(c, keep);
    FilterAll(i, keep);
    FilterAll(a, keep);
    FilterNone(id, keep);
    FilterConcat(c + id + i, a, keep);
    FilterConcat(c + id, i, keep);
    FilterConcat(c, id, keep);
    assert c + [] == c;
  }

  /** Apart from the id, editing sends exactly what adding sends, in the same order. */
  lemma EditIsAddPlusId(v: FormValues, file: Option<FileRef>)
    ensures Without(EditFields(v, file), Id) == AddFields(v, file)
  {
    WithoutMiddle(CompanyFields(v), [(Id, Text(v.id))], ImageField(file), AddressFields(v), Id);
  }

  // ---------------------------------------------------------------------
  // The schema

  /** `FormSchema`; the e-mail syntax is a parameter. */
  predicate SchemaAccepts(v: FormValues, isEmail: string -> bool)
  {
    && |v.nome| >= 2 && 14 <= |v.cnpj| <= 18 && 8 <= |v.cep| <= 10
    && |v.cidade| >= 2 && |v.bairro| >= 2 && |v.logradouro| >= 2 && |v.numero| >= 1
    && isEmail(v.email) && |v.telefone| >= 10
  }

  /** What a validated form puts in the body it sends. */
  lemma SchemaBoundsInFields(v: FormValues, file: Option<FileRef>, isEmail: string -> bool)
    requires SchemaAccepts(v, isEmail)
    ensures var r := AddFields(v, file);
      && SentText(r, Nome).Some? && |SentText(r, Nome).value| >= 2
      && SentText(r, NumeroCnpj).Some? && 14 <= |SentText(r, NumeroCnpj).value| <= 18
      && SentText(r, Cep).Some? && 8 <= |SentText(r, Cep).value| <= 10
      && SentText(r, Telefone).Some? && |SentText(r, Telefone).value| >= 10
      && SentText(r, EnderecoEmail).Some? && isEmail(SentText(r, EnderecoEmail).value)
  {
    CompanyFieldsCopied(v);
    AddressFieldsSent(v);
    CompanyFieldsOmit(v, Cep);
  }

  /** The text sent under `key`, if any. */
  function SentText(fields: Fields, key: Key): Option<string>
  {
    var e := Lookup(fields, key);
    if e.Some? && e.value.Text? then Some(e.value.text) else None
  }

  /**
   * Opening a company in the edit dialog and saving it unchanged sends its
   * stored fields back (missing ones as ""), its id, and its stored state.
   */
  lemma EditUnchangedResendsCompany(d: Dialog, e: Empresa)
    ensures var r := EditFields(HandleEdit(d, e).form, None);
      && Lookup(r, Id) == Some(Text(e.id))
      && Lookup(r, Nome) == Some(Text(Truthy(e.nome)))
      && Lookup(r, NumeroCnpj) == Some(Text(Truthy(e.cnpj)))
      && Lookup(r, Estado) == Some(Text(Truthy(e.endereco.GetOr(NoAddress).estado)))
      && Lookup(r, Cep) == Some(Text(Truthy(e.endereco.GetOr(NoAddress).cep)))
  {
    var v := HandleEdit(d, e).form;
    EditLooksUpAsAdd(v, None);
    CompanyFieldsCopied(v);
    AddressFieldsSent(v);
    CompanyFieldsOmit(v, Estado);
    CompanyFieldsOmit(v, Cep);
  }

  // ---------------------------------------------------------------------
  // The name search

  predicate NameMatches(e: Empresa, term: string)
    requires e.nome.Some?
  {
    Contains(Lower(e.nome.value), Lower(term))
  }

  /** Every shown company has a name, so `nome.toLowerCase()` does not throw. */
  predicate AllNamed(shown: seq<Empresa>)
  {
    forall i :: 0 <= i < |shown| ==> shown[i].nome.Some?
  }

  /**
   * `handleBuscaEmpresas` as written: an empty box reloads the server's list;
   * otherwise the list on screen is replaced by the companies in it, not in
   * the loaded list, whose name contains the term. A company without a name
   * makes the filter throw, and the list stays as it is.
   */
  function SearchAsWritten(shown: seq<Empresa>, server: seq<Empresa>, value: string): (r: seq<Empresa>)
    ensures value == "" ==> r == server
    ensures value != "" && !AllNamed(shown) ==> r == shown
    ensures value != "" ==> IsSubsequence(r, shown)
    ensures value != "" && AllNamed(shown) ==>
              && (forall i :: 0 <= i < |r| ==> r[i].nome.Some? && NameMatches(r[i], value))
              && (forall i :: 0 <= i < |shown| && NameMatches(shown[i], value) ==> shown[i] in r)
              && (forall e :: multiset(r)[e] == if e.nome.Some? && NameMatches(e, value) then multiset(shown)[e] else 0)
  {
    if value == "" then server
    else if !AllNamed(shown) then
      SubsequenceReflexive(shown);
      shown
    else
      var keep := (e: Empresa) => e.nome.Some? && NameMatches(e, value);
      var r := Filter(shown, keep);
      assert forall i :: 0 <= i < |shown| && keep(shown[i]) ==> shown[i] in r by {
        forall i | 0 <= i < |shown| && keep(shown[i])
          ensures shown[i] in r
        {
          FilterKeeps(shown, keep, shown[i]);
        }
      }
      assert forall e :: multiset(r)[e] == if keep(e) then multiset(shown)[e] else 0;
      r
  }

  function Named(nome: string): Empresa
  {
    Empresa(nome, None, Some(nome), None, None, None, None, None, None)
  }

  /** The names in the example below, lower-case already, and which contains which. */
  lemma ExampleNames()
    ensures Lower("a") == "a" && Lower("ab") == "ab"
    ensures Contains("ab", "ab") && Contains("ab", "a") && Contains("a", "a") && !Contains("a", "ab")
  {
    assert IsPrefix("ab", "ab") && IsPrefix("a", "ab") && IsPrefix("a", "a");
    assert !Contains("", "ab");
  }

  /** Typing "ab" over the two example companies leaves the second. */
  lemma ExampleFirstSearch()
    ensures SearchAsWritten([Named("a"), Named("ab")], [Named("a"), Named("ab")], "ab") == [Named("ab")]
  {
    ExampleNames();
    var xs := [Named("a"), Named("ab")];
    var keep := (e: Empresa) => e.nome.Some? && NameMatches(e, "ab");
    assert !keep(xs[0]) && keep(xs[1]);
    assert xs[1..] == [Named("ab")] && [Named("ab")][1..] == [];
    assert Filter(xs, keep) == Filter([Named("ab")], keep) == [Named("ab")] + Filter([], keep);
  }

  /** Deleting the "b" then filters only what is on screen. */
  lemma ExampleSecondSearch()
    ensures SearchAsWritten([Named("ab")], [Named("a"), Named("ab")], "a") == [Named("ab")]
  {
    ExampleNames();
    FilterAll([Named("ab")], (e: Empresa) => e.nome.Some? && NameMatches(e, "a"));
  }

  /**
   * Typing "ab" and then deleting the "b" leaves one company on screen
   * although two companies' names contain "a".
   */
  lemma SearchAsWrittenNarrowsCumulatively()
    ensures var server := [Named("a"), Named("ab")];
      && SearchAsWritten(SearchAsWritten(server, server, "ab"), server, "a") == [Named("ab")]
      && SearchCorrected(server, "a") == server
  {
    ExampleFirstSearch();
    ExampleSecondSearch();
    ExampleNames();
    FilterAll([Named("a"), Named("ab")], (e: Empresa) => NameMatchesOrBlank(e, "a"));
  }

  /** A name test that treats a missing name as "". */
  predicate NameMatchesOrBlank(e: Empresa, term: string)
  {
    Contains(Lower(e.nome.GetOr("")), Lower(term))
  }

  /**
   * The search as intended: always filter the loaded list, so the companies
   * shown depend only on the current term.
   */
  function SearchCorrected(loaded: seq<Empresa>, value: string): (r: seq<Empresa>)
    ensures IsSubsequence(r, loaded)
    ensures forall i :: 0 <= i < |r| ==> NameMatchesOrBlank(r[i], value)
    ensures forall i :: 0 <= i < |loaded| && NameMatchesOrBlank(loaded[i], value) ==> loaded[i] in r
    ensures forall e :: multiset(r)[e] == if NameMatchesOrBlank(e, value) then multiset(loaded)[e] else 0
    ensures value == "" ==> r == loaded
  {
    var keep := (e: Empresa) => NameMatchesOrBlank(e, value);
    assert forall i :: 0 <= i < |loaded| && keep(loaded[i]) ==> loaded[i] in Filter(loaded, keep) by {
      forall i | 0 <= i < |loaded| && keep(loaded[i])
        ensures loaded[i] in Filter(loaded, keep)
      {
        FilterKeeps(loaded, keep, loaded[i]);
      }
    }
    if value == "" then
      assert forall i :: 0 <= i < |loaded| ==> keep(loaded[i]) by {
        forall i | 0 <= i < |loaded|
          ensures keep(loaded[i])
        {
          ContainsEmpty(Lower(loaded[i].nome.GetOr("")));
        }
      }
      FilterAll(loaded, keep);
      loaded
    else
      Filter(loaded, keep)
  }

  /** The list on screen after typing each of `terms` in turn, with the corrected search. */
  function TypeTerms(loaded: seq<Empresa>, shown: seq<Empresa>, terms: seq<string>): seq<Empresa>
    decreases |terms|
  {
    if terms == [] then shown
    else TypeTerms(loaded, SearchCorrected(loaded, terms[0]), terms[1..])
  }

  /** With the corrected search, what is shown depends only on the last term typed. */
  lemma {:induction false} CorrectedSearchForgetsHistory(loaded: seq<Empresa>, shown: seq<Empresa>, terms: seq<string>)
    requires terms != []
    ensures TypeTerms(loaded, shown, terms) == SearchCorrected(loaded, terms[|terms| - 1])
    decreases |terms|
  {
    var next := SearchCorrected(loaded, terms[0]);
    assert TypeTerms(loaded, shown, terms) == TypeTerms(loaded, next, terms[1..]);
    if |terms| > 1 {
      CorrectedSearchForgetsHistory(loaded, next, terms[1..]);
    }
  }
}
