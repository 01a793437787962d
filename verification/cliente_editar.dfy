/**
 * `ClienteEditar` loading a stored client into the form, and what saving
 * that form unchanged sends back.
 */
module ClienteEditar {
  import opened Wrappers
  import opened Text
  import opened ClienteForm

  /** A stored address as the API returns it; any part may be null. */
  datatype ApiAddress = ApiAddress(
    logradouro: Option<string>,
    numero: Option<string>,
    complemento: Option<string>,
    bairro: Option<string>,
    cidade: Option<string>,
    estado: Option<string>,
    cep: Option<string>)

  datatype ApiJuridico = ApiJuridico(
    cnpj: Option<string>,
    inscricaoEstadual: Option<string>,
    nomeFantasia: Option<string>,
    nomeContato: Option<string>,
    dataNascimentoContato: Option<string>,
    celularContato: Option<string>)

  /** A JSON member that may be missing, `null`, or set; `!== null` only tells `null` apart. */
  datatype Field<T> = Missing | Null | Present(value: T)

  /** The client record `GET /v1/clientes/{id}` returns. */
  datatype ApiCliente = ApiCliente(
    nome: Option<string>,
    idRamo: Option<nat>,
    telefone: Option<string>,
    email: Option<string>,
    site: Option<string>,
    endereco: Option<ApiAddress>,
    mesmoEndereco: Option<string>,
    enderecoCobranca: Option<ApiAddress>,
    telefoneCobranca: Option<string>,
    mesmoEnderecoEntrega: Option<string>,
    enderecoEntrega: Option<ApiAddress>,
    telefoneEntrega: Option<string>,
    observacao: Option<string>,
    limiteCredito: Option<Amount>,
    consumidorFinal: Option<string>,
    idTransportador: Option<nat>,
    idTransportadorRedespacho: Option<nat>,
    emailComercial: Option<string>,
    emailFiscal: Option<string>,
    emailFinanceiro: Option<string>,
    clienteJuridico: Field<ApiJuridico>)

  const NoAddress: ApiAddress := ApiAddress(None, None, None, None, None, None, None)

  /** The stored address with its missing parts as "": what the API holds, in payload shape. */
  function Stored(a: Option<ApiAddress>): (p: AddressPayload)
    ensures a.None? ==> p == EmptyAddress
  {
    var v := a.GetOr(NoAddress);
    AddressPayload(OrEmpty(v.estado), OrEmpty(v.cidade), OrEmpty(v.bairro), OrEmpty(v.logradouro),
                   OrEmpty(v.numero), OrEmpty(v.complemento), OrEmpty(v.cep))
  }

  /** An address block of the form, read through `?.` and `|| ""`. */
  function AddressField(a: Option<ApiAddress>): (f: AddressForm)
    ensures MainAddress(f) == Stored(a)
  {
    var v := a.GetOr(NoAddress);
    AddressForm(OrEmpty(v.logradouro), OrEmpty(v.numero), Some(OrEmpty(v.complemento)), Some(OrEmpty(v.bairro)),
                Some(OrEmpty(v.cidade)), Some(OrEmpty(v.estado)), OrEmpty(v.cep))
  }

  /** A stored carrier id as the form's select holds it: a missing or zero id shows as "0". */
  function CarrierField(id: Option<nat>): (s: string)
    ensures id.None? || id == Some(0) ==> s == "0"
    ensures id.Some? && id.value != 0 ==> ParseInt(s) == id
  {
    if id.None? || id.value == 0 then "0"
    else
      ParseIntOfNatToString(id.value);
      NatToString(id.value)
  }

  /**
   * The contact birth date as the form holds it: "" when none is stored,
   * otherwise the date part of its ISO form; `None` when the stored text is
   * not a date, which throws.
   */
  function BirthField(stored: Option<string>, dateOnly: string -> Option<string>): Option<string>
  {
    if stored.None? || stored.value == "" then Some("") else dateOnly(stored.value)
  }

  /**
   * The form values `form.reset` receives; `None` when loading throws and
   * the screen returns to the list: a null `idRamo`, or a stored birth date
   * that is not a date. A missing `clienteJuridico` counts as a legal entity.
   */
  function Load(api: ApiCliente, dateOnly: string -> Option<string>): (r: Option<FormData>)
    ensures r.None? <==>
              || api.idRamo.None?
              || (!api.clienteJuridico.Null? && BirthField(JuridicoPart(api.clienteJuridico).dataNascimentoContato, dateOnly).None?)
    ensures r.Some? ==> (r.value.isPessoaJuridica <==> !api.clienteJuridico.Null?)
    ensures r.Some? ==> r.value.idRamo == NatToString(api.idRamo.value)
    ensures r.Some? ==> (r.value.mesmoEndereco <==> api.mesmoEndereco == Some("1"))
    ensures r.Some? ==> (r.value.consumidorFinal <==> api.consumidorFinal == Some("1"))
    ensures r.Some? ==> (r.value.mesmoEnderecoEntrega <==> api.mesmoEnderecoEntrega == Some("1"))
    ensures r.Some? && api.clienteJuridico.Null? ==> r.value.clienteJuridico == Some(BlankJuridico)
    // every text loads as `x || ""`
    ensures r.Some? ==> r.value.nome == OrEmpty(api.nome) && r.value.telefone == OrEmpty(api.telefone)
    ensures r.Some? ==> r.value.email == OrEmpty(api.email) && r.value.site == Some(OrEmpty(api.site))
    ensures r.Some? ==> r.value.observacao == Some(OrEmpty(api.observacao))
    ensures r.Some? ==>
              && r.value.telefoneCobranca == Some(OrEmpty(api.telefoneCobranca))
              && r.value.telefoneEntrega == Some(OrEmpty(api.telefoneEntrega))
    ensures r.Some? ==>
              && r.value.emailComercial == OrEmpty(api.emailComercial) && r.value.emailFiscal == OrEmpty(api.emailFiscal)
              && r.value.emailFinanceiro == OrEmpty(api.emailFinanceiro)
    // a block that is not null loads its texts the same way
    ensures r.Some? && !api.clienteJuridico.Null? ==>
              var j := JuridicoPart(api.clienteJuridico);
              && r.value.clienteJuridico.Some?
              && r.value.clienteJuridico.value.cnpj == OrEmpty(j.cnpj)
              && r.value.clienteJuridico.value.inscricaoEstadual == Some(OrEmpty(j.inscricaoEstadual))
              && r.value.clienteJuridico.value.nomeFantasia == Some(OrEmpty(j.nomeFantasia))
              && r.value.clienteJuridico.value.nomeContato == Some(OrEmpty(j.nomeContato))
              && r.value.clienteJuridico.value.celularContato == Some(OrEmpty(j.celularContato))
              && r.value.clienteJuridico.value.dataNascimentoContato == BirthField(j.dataNascimentoContato, dateOnly)
  {
    if api.idRamo.None? then None
    else
      var juridico :=
        if api.clienteJuridico.Null? then Some(BlankJuridico)
        else
          var j := JuridicoPart(api.clienteJuridico);
          var birth := BirthField(j.dataNascimentoContato, dateOnly);
          if birth.None? then None
          else Some(JuridicoForm(OrEmpty(j.cnpj), Some(OrEmpty(j.inscricaoEstadual)), Some(OrEmpty(j.nomeFantasia)),
                                 Some(OrEmpty(j.nomeContato)), birth, Some(OrEmpty(j.celularContato))));
      if juridico.None? then None
      else
        Some(FormData(
          OrEmpty(api.nome), NatToString(api.idRamo.value), OrEmpty(api.telefone), OrEmpty(api.email), Some(OrEmpty(api.site)),
          AddressField(api.endereco),
          api.mesmoEndereco == Some("1"), Some(AddressField(api.enderecoCobranca)), Some(OrEmpty(api.telefoneCobranca)),
          api.mesmoEnderecoEntrega == Some("1"), Some(AddressField(api.enderecoEntrega)), Some(OrEmpty(api.telefoneEntrega)),
          Some(OrEmpty(api.observacao)), api.limiteCredito,
          api.consumidorFinal == Some("1"),
          Some(CarrierField(api.idTransportador)), Some(CarrierField(api.idTransportadorRedespacho)),
          OrEmpty(api.emailComercial), OrEmpty(api.emailFiscal), OrEmpty(api.emailFinanceiro),
          !api.clienteJuridico.Null?, juridico))
  }

  /** The legal-entity record read through `?.`: a missing one reads as all-null. */
  function JuridicoPart(f: Field<ApiJuridico>): ApiJuridico
  {
    if f.Present? then f.value else ApiJuridico(None, None, None, None, None, None)
  }

  /** `"1"` or `"0"` read as a flag and written back as a flag; anything else comes back as `"0"`. */
  function Resaved(stored: Option<string>): (s: string)
    ensures stored == Some("1") || stored == Some("0") ==> s == stored.value
    ensures stored != Some("1") ==> s == "0"
  {
    FlagRoundTrip(stored == Some("1"), if stored.Some? then stored.value else "0");
    EncodeFlag(stored == Some("1"))
  }

  /**
   * Saving a loaded client without touching the form sends what was stored:
   * the same ramo, flags and carriers (a zero carrier as none), each address
   * with missing parts as "" (billing and delivery replaced by the main
   * address when flagged "same"), and a legal-entity block exactly when one
   * was not null.
   */
  lemma {:induction false} SaveUnchanged(api: ApiCliente, dateOnly: string -> Option<string>, form: FormData)
    requires Load(api, dateOnly) == Some(form)
    ensures var p := BuildPayload(form, EditClient);
      && p.idRamo == api.idRamo
      && p.nome == OrEmpty(api.nome) && p.telefone == OrEmpty(api.telefone)
      && p.mesmoEndereco == Resaved(api.mesmoEndereco)
      && p.consumidorFinal == Resaved(api.consumidorFinal)
      && p.mesmoEnderecoEntrega == Resaved(api.mesmoEnderecoEntrega)
      && p.idTransportador == (if api.idTransportador == Some(0) then None else api.idTransportador)
      && p.idTransportadorRedespacho == (if api.idTransportadorRedespacho == Some(0) then None else api.idTransportadorRedespacho)
      && p.endereco == Stored(api.endereco)
      && p.enderecoCobranca == (if api.mesmoEndereco == Some("1") then Stored(api.endereco) else Stored(api.enderecoCobranca))
      && p.enderecoEntrega == (if api.mesmoEnderecoEntrega == Some("1") then Stored(api.endereco) else Stored(api.enderecoEntrega))
      && (p.clienteJuridico.None? <==> api.clienteJuridico.Null?)
      && p.dataCadastro.None?
      && p.limiteCredito == api.limiteCredito
  {
    ParseIntOfNatToString(api.idRamo.value);
    var p := BuildPayload(form, EditClient);
    assert form.idTransportador == Some(CarrierField(api.idTransportador));
    assert form.idTransportadorRedespacho == Some(CarrierField(api.idTransportadorRedespacho));
    assert form.endereco == AddressField(api.endereco);
    assert form.enderecoCobranca == Some(AddressField(api.enderecoCobranca));
    assert form.enderecoEntrega == Some(AddressField(api.enderecoEntrega));
  }

  /**
   * Saving a loaded client unchanged sends back every stored text, a null
   * one as "", and the stored legal-entity record, a missing birth date as
   * the minimum date.
   */
  lemma SaveUnchangedTexts(api: ApiCliente, dateOnly: string -> Option<string>, form: FormData)
    requires Load(api, dateOnly) == Some(form)
    ensures var p := BuildPayload(form, EditClient);
      && p.email == OrEmpty(api.email) && p.site == OrEmpty(api.site) && p.observacao == OrEmpty(api.observacao)
      && p.telefoneCobranca == OrEmpty(api.telefoneCobranca) && p.telefoneEntrega == OrEmpty(api.telefoneEntrega)
      && p.emailComercial == OrEmpty(api.emailComercial) && p.emailFiscal == OrEmpty(api.emailFiscal)
      && p.emailFinanceiro == OrEmpty(api.emailFinanceiro)
    ensures var p := BuildPayload(form, EditClient);
      var j := JuridicoPart(api.clienteJuridico);
      !api.clienteJuridico.Null? ==>
        && p.clienteJuridico.Some?
        && p.clienteJuridico.value.cnpj == OrEmpty(j.cnpj)
        && p.clienteJuridico.value.inscricaoEstadual == OrEmpty(j.inscricaoEstadual)
        && p.clienteJuridico.value.nomeFantasia == OrEmpty(j.nomeFantasia)
        && p.clienteJuridico.value.nomeContato == OrEmpty(j.nomeContato)
        && p.clienteJuridico.value.celularContato == OrEmpty(j.celularContato)
        && (j.dataNascimentoContato.None? || j.dataNascimentoContato == Some("") ==>
              p.clienteJuridico.value.dataNascimentoContato == MinDate)
  {
  }

  /**
   * Every stored private client loads with a blank legal-entity block, which
   * the schema as written rejects: such a client cannot be saved.
   */
  lemma PrivateClientRejectedOnEdit(api: ApiCliente, dateOnly: string -> Option<string>, form: FormData, isEmail: string -> bool)
    requires Load(api, dateOnly) == Some(form)
    requires api.clienteJuridico.Null?
    ensures !SchemaAccepts(form, isEmail)
    ensures !form.isPessoaJuridica
  {
  }
}
