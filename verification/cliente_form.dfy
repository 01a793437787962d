/**
 * The client form shared by `ClienteNovo` and `ClienteEditar`: its zod
 * schema and the `clienteData` payload `onSubmit` builds for the API. The two
 * screens build the same payload except for the registration date and how a
 * "0" carrier id is read, so one builder serves both.
 */
module ClienteForm {
  import opened Wrappers
  import opened Text

  /** The date the API reads as "no date": sent for the block date and a missing contact birth date. */
  const MinDate: string := "0001-01-01T00:00:00.000Z"

  /** `limiteCredito`, a floating-point number carried through untouched. */
  datatype Amount = Amount(raw: string)

  /** The form's address block; zod's `.optional()` fields may be undefined. */
  datatype AddressForm = AddressForm(
    logradouro: string,
    numero: string,
    complemento: Option<string>,
    bairro: Option<string>,
    cidade: Option<string>,
    estado: Option<string>,
    cep: string)

  datatype JuridicoForm = JuridicoForm(
    cnpj: string,
    inscricaoEstadual: Option<string>,
    nomeFantasia: Option<string>,
    nomeContato: Option<string>,
    dataNascimentoContato: Option<string>,
    celularContato: Option<string>)

  /** The values `onSubmit` receives. */
  datatype FormData = FormData(
    nome: string,
    idRamo: string,
    telefone: string,
    email: string,
    site: Option<string>,
    endereco: AddressForm,
    mesmoEndereco: bool,
    enderecoCobranca: Option<AddressForm>,
    telefoneCobranca: Option<string>,
    mesmoEnderecoEntrega: bool,
    enderecoEntrega: Option<AddressForm>,
    telefoneEntrega: Option<string>,
    observacao: Option<string>,
    limiteCredito: Option<Amount>,
    consumidorFinal: bool,
    idTransportador: Option<string>,
    idTransportadorRedespacho: Option<string>,
    emailComercial: string,
    emailFiscal: string,
    emailFinanceiro: string,
    isPessoaJuridica: bool,
    clienteJuridico: Option<JuridicoForm>)

  datatype AddressPayload = AddressPayload(
    estado: string,
    cidade: string,
    bairro: string,
    logradouro: string,
    numero: string,
    complemento: string,
    cep: string)

  datatype JuridicoPayload = JuridicoPayload(
    cnpj: string,
    inscricaoEstadual: string,
    nomeFantasia: string,
    nomeContato: string,
    dataNascimentoContato: string,
    celularContato: string)

  /** `clienteData`. Ids are `None` where the API receives `null` (a `NaN` id also travels as `null`). */
  datatype Payload = Payload(
    nome: string,
    idRamo: Option<nat>,
    telefone: string,
    email: string,
    site: string,
    bloqueado: string,
    idMotivoBloqueio: Option<nat>,
    dataBloqueio: string,
    idEndereco: nat,
    endereco: AddressPayload,
    mesmoEndereco: string,
    idEnderecoCobranca: nat,
    enderecoCobranca: AddressPayload,
    telefoneCobranca: string,
    observacao: string,
    limiteCredito: Option<Amount>,
    dataCadastro: Option<string>,
    consumidorFinal: string,
    idTransportador: Option<nat>,
    idEnderecoEntrega: nat,
    enderecoEntrega: AddressPayload,
    telefoneEntrega: string,
    emailComercial: string,
    emailFiscal: string,
    emailFinanceiro: string,
    idTransportadorRedespacho: Option<nat>,
    mesmoEnderecoEntrega: string,
    clienteJuridico: Option<JuridicoPayload>)

  /** Which screen submits: a new client stamps the current time, an edit sends no date. */
  datatype Screen = NewClient(now: string) | EditClient

  // ---------------------------------------------------------------------
  // Field conversions

  /** `x || ""` for an optional string. */
  function OrEmpty(x: Option<string>): (r: string)
    ensures x.Some? ==> r == x.value
    ensures x.None? ==> r == ""
  {
    x.GetOr("")
  }

  /** How a boolean travels: `b ? "1" : "0"`. */
  function EncodeFlag(b: bool): (s: string)
    ensures s == "1" || s == "0"
    ensures s == "1" <==> b
  {
    if b then "1" else "0"
  }

  /** How a stored flag is read back: `s === "1"`. */
  predicate DecodeFlag(s: string)
  {
    s == "1"
  }

  lemma FlagRoundTrip(b: bool, s: string)
    ensures DecodeFlag(EncodeFlag(b)) == b
    ensures s == "1" || s == "0" ==> EncodeFlag(DecodeFlag(s)) == s
  {
  }

  /** The carrier id sent by the new-client screen: `x ? parseInt(x) : null`. */
  function NewCarrierId(x: Option<string>): (r: Option<nat>)
    ensures x.None? || x == Some("") ==> r.None?
    ensures x.Some? && x.value != "" ==> r == ParseInt(x.value)
  {
    if x.None? || x.value == "" then None else ParseInt(x.value)
  }

  /** The carrier id sent by the edit screen: `x && x !== "0" ? parseInt(x) : null`. */
  function EditCarrierId(x: Option<string>): (r: Option<nat>)
    ensures x.None? || x == Some("") || x == Some("0") ==> r.None?
    ensures x.Some? && x.value != "" && x.value != "0" ==> r == ParseInt(x.value)
  {
    if x.None? || x.value == "" || x.value == "0" then None else ParseInt(x.value)
  }

  /** The carrier rule of the submitting screen. */
  function CarrierId(screen: Screen, x: Option<string>): Option<nat>
  {
    if screen.NewClient? then NewCarrierId(x) else EditCarrierId(x)
  }

  /** `p` is the address `a` with its missing optional parts as "". */
  predicate Normalises(p: AddressPayload, a: AddressForm)
  {
    && p.logradouro == a.logradouro && p.numero == a.numero && p.cep == a.cep
    && p.complemento == OrEmpty(a.complemento) && p.bairro == OrEmpty(a.bairro)
    && p.cidade == OrEmpty(a.cidade) && p.estado == OrEmpty(a.estado)
  }

  const EmptyAddress: AddressPayload := AddressPayload("", "", "", "", "", "", "")

  /** The main address block of the payload. */
  function MainAddress(a: AddressForm): (p: AddressPayload)
    ensures Normalises(p, a)
  {
    AddressPayload(OrEmpty(a.estado), OrEmpty(a.cidade), OrEmpty(a.bairro), a.logradouro, a.numero, OrEmpty(a.complemento), a.cep)
  }

  /** A billing or delivery block read through `?.` and `|| ""`. */
  function OtherAddress(a: Option<AddressForm>): (p: AddressPayload)
    ensures a.Some? ==> Normalises(p, a.value)
    ensures a.None? ==> p == EmptyAddress
  {
    if a.None? then EmptyAddress else MainAddress(a.value)
  }

  /** The legal-entity block; a missing contact birth date becomes `MinDate`. */
  function JuridicoBlock(j: Option<JuridicoForm>): (p: JuridicoPayload)
    ensures j.Some? ==> p.cnpj == j.value.cnpj
    ensures j.None? ==> p.cnpj == ""
    ensures j.Some? ==>
              && p.inscricaoEstadual == OrEmpty(j.value.inscricaoEstadual) && p.nomeFantasia == OrEmpty(j.value.nomeFantasia)
              && p.nomeContato == OrEmpty(j.value.nomeContato) && p.celularContato == OrEmpty(j.value.celularContato)
    ensures j.None? ==> p.inscricaoEstadual == "" && p.nomeFantasia == "" && p.nomeContato == "" && p.celularContato == ""
    ensures j.None? || j.value.dataNascimentoContato.None? || j.value.dataNascimentoContato == Some("") ==>
              p.dataNascimentoContato == MinDate
    ensures j.Some? && j.value.dataNascimentoContato.Some? && j.value.dataNascimentoContato.value != "" ==>
              p.dataNascimentoContato == j.value.dataNascimentoContato.value
  {
    match j
    case None => JuridicoPayload("", "", "", "", MinDate, "")
    case Some(v) =>
      var birth := if v.dataNascimentoContato.None? || v.dataNascimentoContato.value == "" then MinDate
                   else v.dataNascimentoContato.value;
      JuridicoPayload(v.cnpj, OrEmpty(v.inscricaoEstadual), OrEmpty(v.nomeFantasia), OrEmpty(v.nomeContato),
                      birth, OrEmpty(v.celularContato))
  }

  // ---------------------------------------------------------------------
  // The payload

  /** `clienteData` as `onSubmit` builds it on either screen. */
  function BuildPayload(d: FormData, screen: Screen): (p: Payload)
    ensures p.nome == d.nome && p.telefone == d.telefone && p.email == d.email
    ensures p.idRamo == ParseInt(d.idRamo)
    // the optional texts travel as `x || ""`, the extra e-mails as typed
    ensures p.site == OrEmpty(d.site) && p.observacao == OrEmpty(d.observacao)
    ensures p.telefoneCobranca == OrEmpty(d.telefoneCobranca) && p.telefoneEntrega == OrEmpty(d.telefoneEntrega)
    ensures p.emailComercial == d.emailComercial && p.emailFiscal == d.emailFiscal && p.emailFinanceiro == d.emailFinanceiro
    // carriers are read by the screen's own rule
    ensures p.idTransportador == CarrierId(screen, d.idTransportador)
    ensures p.idTransportadorRedespacho == CarrierId(screen, d.idTransportadorRedespacho)
    // a submitted client is never blocked, and the address records are new
    ensures p.bloqueado == "0" && p.idMotivoBloqueio.None? && p.dataBloqueio == MinDate
    ensures p.idEndereco == 0 && p.idEnderecoCobranca == 0 && p.idEnderecoEntrega == 0
    // addresses: "same as main" copies the normalised main address
    ensures Normalises(p.endereco, d.endereco)
    ensures d.mesmoEndereco ==> p.enderecoCobranca == p.endereco
    ensures !d.mesmoEndereco ==> p.enderecoCobranca == OtherAddress(d.enderecoCobranca)
    ensures d.mesmoEnderecoEntrega ==> p.enderecoEntrega == p.endereco
    ensures !d.mesmoEnderecoEntrega ==> p.enderecoEntrega == OtherAddress(d.enderecoEntrega)
    // the legal-entity block is sent exactly for a legal entity
    ensures p.clienteJuridico.None? <==> !d.isPessoaJuridica
    ensures d.isPessoaJuridica ==> p.clienteJuridico == Some(JuridicoBlock(d.clienteJuridico))
    // registration date: the clock on creation, left alone on edit
    ensures screen.NewClient? ==> p.dataCadastro == Some(screen.now)
    ensures screen.EditClient? ==> p.dataCadastro.None?
    ensures p.limiteCredito == d.limiteCredito
  {
    var main := MainAddress(d.endereco);
    Payload(
      d.nome, ParseInt(d.idRamo), d.telefone, d.email, OrEmpty(d.site),
      "0", None, MinDate,
      0, main,
      EncodeFlag(d.mesmoEndereco),
      0, if d.mesmoEndereco then main else OtherAddress(d.enderecoCobranca),
      OrEmpty(d.telefoneCobranca), OrEmpty(d.observacao), d.limiteCredito,
      if screen.NewClient? then Some(screen.now) else None,
      EncodeFlag(d.consumidorFinal),
      CarrierId(screen, d.idTransportador),
      0, if d.mesmoEnderecoEntrega then main else OtherAddress(d.enderecoEntrega),
      OrEmpty(d.telefoneEntrega), d.emailComercial, d.emailFiscal, d.emailFinanceiro,
      CarrierId(screen, d.idTransportadorRedespacho),
      EncodeFlag(d.mesmoEnderecoEntrega),
      if d.isPessoaJuridica then Some(JuridicoBlock(d.clienteJuridico)) else None)
  }

  /** The three checkboxes travel as "1" or "0", and reading them back gives the boxes as ticked. */
  lemma PayloadFlags(d: FormData, screen: Screen)
    ensures var p := BuildPayload(d, screen);
      && (p.mesmoEndereco == "1" || p.mesmoEndereco == "0") && (DecodeFlag(p.mesmoEndereco) <==> d.mesmoEndereco)
      && (p.consumidorFinal == "1" || p.consumidorFinal == "0") && (DecodeFlag(p.consumidorFinal) <==> d.consumidorFinal)
      && (p.mesmoEnderecoEntrega == "1" || p.mesmoEnderecoEntrega == "0")
      && (DecodeFlag(p.mesmoEnderecoEntrega) <==> d.mesmoEnderecoEntrega)
  {
  }

  /** Carrier ids: empty means none on both screens; "0" means none only when editing. */
  lemma PayloadCarriers(d: FormData, screen: Screen)
    ensures var p := BuildPayload(d, screen);
      && (d.idTransportador.None? || d.idTransportador == Some("") ==> p.idTransportador.None?)
      && (d.idTransportadorRedespacho.None? || d.idTransportadorRedespacho == Some("") ==> p.idTransportadorRedespacho.None?)
      && (screen.EditClient? && d.idTransportador == Some("0") ==> p.idTransportador.None?)
      && (screen.EditClient? && d.idTransportadorRedespacho == Some("0") ==> p.idTransportadorRedespacho.None?)
      && (screen.NewClient? && d.idTransportador == Some("0") ==> p.idTransportador == Some(0))
      && (screen.NewClient? && d.idTransportadorRedespacho == Some("0") ==> p.idTransportadorRedespacho == Some(0))
  {
  }

  /** Creating and editing send the same payload apart from the date, unless a carrier id is "0". */
  lemma NewAndEditAgree(d: FormData, now: string)
    requires d.idTransportador != Some("0") && d.idTransportadorRedespacho != Some("0")
    ensures BuildPayload(d, EditClient) == BuildPayload(d, NewClient(now)).(dataCadastro := None)
  {
  }

  // ---------------------------------------------------------------------
  // The schema

  predicate ValidAddress(a: AddressForm)
  {
    |a.logradouro| >= 1 && |a.numero| >= 1 && 8 <= |a.cep| <= 10
  }

  predicate ValidJuridico(j: JuridicoForm)
  {
    14 <= |j.cnpj| <= 18
  }

  /** `z.string().email().or(z.string().length(0))`; the e-mail syntax itself is a parameter. */
  predicate EmailOrEmpty(e: string, isEmail: string -> bool)
  {
    isEmail(e) || e == ""
  }

  /** The fields every client must have, whatever blocks are shown. */
  predicate ValidCore(d: FormData, isEmail: string -> bool)
  {
    && |d.nome| >= 3 && |d.idRamo| >= 1 && |d.telefone| >= 8
    && ValidAddress(d.endereco)
    && EmailOrEmpty(d.email, isEmail) && EmailOrEmpty(d.emailComercial, isEmail)
    && EmailOrEmpty(d.emailFiscal, isEmail) && EmailOrEmpty(d.emailFinanceiro, isEmail)
  }

  /**
   * `clienteSchema` as written: the billing, delivery and legal-entity blocks
   * are checked whenever they are present in the form values, whether or not
   * the form shows them.
   */
  predicate SchemaAccepts(d: FormData, isEmail: string -> bool)
  {
    && ValidCore(d, isEmail)
    && (d.enderecoCobranca.Some? ==> ValidAddress(d.enderecoCobranca.value))
    && (d.enderecoEntrega.Some? ==> ValidAddress(d.enderecoEntrega.value))
    && (d.clienteJuridico.Some? ==> ValidJuridico(d.clienteJuridico.value))
  }

  /**
   * The schema as the form evidently means it: a block is checked only when
   * the form shows it (billing and delivery unless "same as main", the
   * legal-entity block for a legal entity).
   */
  predicate IntendedAccepts(d: FormData, isEmail: string -> bool)
  {
    && ValidCore(d, isEmail)
    && (!d.mesmoEndereco && d.enderecoCobranca.Some? ==> ValidAddress(d.enderecoCobranca.value))
    && (!d.mesmoEnderecoEntrega && d.enderecoEntrega.Some? ==> ValidAddress(d.enderecoEntrega.value))
    && (d.isPessoaJuridica && d.clienteJuridico.Some? ==> ValidJuridico(d.clienteJuridico.value))
  }

  /** Whatever the schema as written accepts, the intended schema accepts too. */
  lemma SchemaAcceptsIsStricter(d: FormData, isEmail: string -> bool)
    requires SchemaAccepts(d, isEmail)
    ensures IntendedAccepts(d, isEmail)
  {
  }

  const BlankAddress: AddressForm := AddressForm("", "", Some(""), Some(""), Some(""), Some(""), "")
  const BlankJuridico: JuridicoForm := JuridicoForm("", Some(""), Some(""), Some(""), Some(""), Some(""))

  /**
   * A private client filled in completely, with "same address" on for both
   * blocks, and the hidden blocks still holding the form's blank defaults.
   */
  const PrivateClient: FormData := FormData(
    "Ana Souza", "3", "1133334444", "", Some(""),
    AddressForm("Rua A", "10", Some(""), Some(""), Some(""), Some(""), "01001000"),
    true, Some(BlankAddress), Some(""),
    true, Some(BlankAddress), Some(""),
    Some(""), None, false, Some(""), Some(""), "", "", "",
    false, Some(BlankJuridico))

  /**
   * The schema as written rejects that client because of blocks the form
   * hides, while the intended schema accepts it.
   */
  lemma HiddenBlocksRejectPrivateClient(isEmail: string -> bool)
    ensures !SchemaAccepts(PrivateClient, isEmail)
    ensures IntendedAccepts(PrivateClient, isEmail)
  {
  }

  /**
   * What the intended schema guarantees about the payload: the length bounds
   * of the validated fields hold in what is sent, in every address block that
   * is sent as a copy or a validated block, and in the CNPJ of a legal entity.
   */
  lemma PayloadRespectsSchema(d: FormData, screen: Screen, isEmail: string -> bool)
    requires IntendedAccepts(d, isEmail)
    ensures var p := BuildPayload(d, screen);
      && |p.nome| >= 3 && |p.telefone| >= 8
      && |p.endereco.logradouro| >= 1 && |p.endereco.numero| >= 1 && 8 <= |p.endereco.cep| <= 10
      && (d.mesmoEndereco || d.enderecoCobranca.Some? ==> 8 <= |p.enderecoCobranca.cep| <= 10)
      && (d.mesmoEnderecoEntrega || d.enderecoEntrega.Some? ==> 8 <= |p.enderecoEntrega.cep| <= 10)
      && (d.isPessoaJuridica && d.clienteJuridico.Some? ==> 14 <= |p.clienteJuridico.value.cnpj| <= 18)
  {
  }
}
