/**
 * The user hierarchy: `Usuario` with its three concrete kinds `Cliente`,
 * `DonoRestaurante` and `Entregador`, as one datatype tagged by `Papel`.
 * The id is handed out by the registry's counter (see `Sistema`).
 */
module Usuarios {
  import opened Erros
  import opened Texto

  datatype Papel =
    | Cliente
    | DonoRestaurante(cpf: string)
    | Entregador(veiculo: string, placa: string)

  datatype Usuario = Usuario(id: int, nome: string, email: string, senha: string, endereco: string, papel: Papel)

  /** `podeCriarEmpresa()`: only restaurant owners may register companies. */
  predicate PodeCriarEmpresa(u: Usuario) {
    u.papel.DonoRestaurante?
  }

  /** `ehEntregador()`: true exactly for couriers. */
  predicate EhEntregador(u: Usuario) {
    u.papel.Entregador?
  }

  /** Clients, owners and couriers: every user is exactly one of them. */
  lemma PapeisExclusivos(u: Usuario)
    ensures PodeCriarEmpresa(u) ==> !EhEntregador(u) && !u.papel.Cliente?
    ensures EhEntregador(u) ==> !PodeCriarEmpresa(u) && !u.papel.Cliente?
    ensures u.papel.Cliente? <==> !PodeCriarEmpresa(u) && !EhEntregador(u)
  {
  }

  /** The attribute names the base class answers, matched case-sensitively. */
  predicate AtributoBase(atributo: string) {
    atributo == "nome" || atributo == "email" || atributo == "senha" || atributo == "endereco"
  }

  /** `Usuario.getAtributo`: the four common fields, anything else is invalid. */
  function GetAtributoBase(u: Usuario, atributo: string): (r: Result<string>)
    ensures r.Ok? <==> AtributoBase(atributo)
    ensures r.Err? ==> r.erro == AtributoInvalido
    ensures atributo == "nome" ==> r == Ok(u.nome)
    ensures atributo == "email" ==> r == Ok(u.email)
    ensures atributo == "senha" ==> r == Ok(u.senha)
    ensures atributo == "endereco" ==> r == Ok(u.endereco)
  {
    match atributo
    case "nome" => Ok(u.nome)
    case "email" => Ok(u.email)
    case "senha" => Ok(u.senha)
    case "endereco" => Ok(u.endereco)
    case _ => Err(AtributoInvalido)
  }

  /** The names a kind answers itself before deferring to the base class. */
  predicate AtributoDoPapel(p: Papel, atributo: string) {
    match p
    case Cliente => false
    case DonoRestaurante(_) => IgualIgnorandoCaixa("cpf", atributo)
    case Entregador(_, _) => Minusculas(atributo) == "placa" || Minusculas(atributo) == "veiculo"
  }

  /**
   * `getAtributo` with the subclass overrides: an owner answers "cpf" and a
   * courier "placa"/"veiculo" in any letter case; every other name goes to the
   * case-sensitive base table unchanged.
   */
  function GetAtributo(u: Usuario, atributo: string): (r: Result<string>)
    ensures !AtributoDoPapel(u.papel, atributo) ==> r == GetAtributoBase(u, atributo)
    ensures u.papel.DonoRestaurante? && IgualIgnorandoCaixa("cpf", atributo) ==> r == Ok(u.papel.cpf)
    ensures u.papel.Entregador? && Minusculas(atributo) == "placa" ==> r == Ok(u.papel.placa)
    ensures u.papel.Entregador? && Minusculas(atributo) == "veiculo" ==> r == Ok(u.papel.veiculo)
    ensures r.Err? <==> !AtributoDoPapel(u.papel, atributo) && !AtributoBase(atributo)
  {
    match u.papel
    case Cliente => GetAtributoBase(u, atributo)
    case DonoRestaurante(cpf) =>
      if IgualIgnorandoCaixa("cpf", atributo) then Ok(cpf) else GetAtributoBase(u, atributo)
    case Entregador(veiculo, placa) =>
      var chave := Minusculas(atributo);
      if chave == "placa" then Ok(placa)
      else if chave == "veiculo" then Ok(veiculo)
      else GetAtributoBase(u, atributo)
  }

  /** Two spellings of an attribute name that differ only in letter case get the same answer from the overrides. */
  lemma GetAtributoIgnoraCaixaNoPapel(u: Usuario, a: string, b: string)
    requires Minusculas(a) == Minusculas(b)
    requires AtributoDoPapel(u.papel, a)
    ensures AtributoDoPapel(u.papel, b)
    ensures GetAtributo(u, a) == GetAtributo(u, b)
  {
    MinusculasIdempotente(a);
    MinusculasIdempotente(b);
  }

  /** The base table is case-sensitive: "Nome" is not an attribute of a client. */
  lemma BaseSensivelACaixa(u: Usuario)
    requires u.papel.Cliente?
    ensures GetAtributo(u, "nome") == Ok(u.nome)
    ensures GetAtributo(u, "Nome") == Err(AtributoInvalido)
  {
  }

  /** `Entregador.setVeiculo`: the vehicle becomes `v`; every other attribute reads as before. */
  function SetVeiculo(u: Usuario, v: string): (r: Usuario)
    requires EhEntregador(u)
    ensures EhEntregador(r) && r.id == u.id
    ensures GetAtributo(r, "veiculo") == Ok(v)
    ensures forall a :: Minusculas(a) != "veiculo" ==> GetAtributo(r, a) == GetAtributo(u, a)
  {
    u.(papel := u.papel.(veiculo := v))
  }

  /** `Entregador.setPlaca`: the plate becomes `p`; every other attribute reads as before. */
  function SetPlaca(u: Usuario, p: string): (r: Usuario)
    requires EhEntregador(u)
    ensures EhEntregador(r) && r.id == u.id
    ensures GetAtributo(r, "placa") == Ok(p)
    ensures forall a :: Minusculas(a) != "placa" ==> GetAtributo(r, a) == GetAtributo(u, a)
  {
    u.(papel := u.papel.(placa := p))
  }

  /**
   * The field checks shared by the three `criarUsuario` overloads, in the
   * order they are made: a blank name, an e-mail without '@', a blank
   * password, a blank address.
   */
  function ValidarDados(nome: string, email: string, senha: string, endereco: string): (r: Option<Erro>)
    ensures r.None? <==> !EmBranco(nome) && '@' in email && !EmBranco(senha) && !EmBranco(endereco)
    ensures r == Some(NomeInvalido) <==> EmBranco(nome)
    ensures r == Some(EmailInvalido) <==> !EmBranco(nome) && '@' !in email
    ensures r == Some(SenhaInvalida) <==> !EmBranco(nome) && '@' in email && EmBranco(senha)
    ensures r == Some(EnderecoInvalido) <==> !EmBranco(nome) && '@' in email && !EmBranco(senha) && EmBranco(endereco)
    ensures r.Some? ==> r.value in {NomeInvalido, EmailInvalido, SenhaInvalida, EnderecoInvalido}
  {
    if EmBranco(nome) then Some(NomeInvalido)
    else if '@' !in email then Some(EmailInvalido)
    else if EmBranco(senha) then Some(SenhaInvalida)
    else if EmBranco(endereco) then Some(EnderecoInvalido)
    else None
  }

  /** `cpf.length() != 14`: a CPF is accepted when it has exactly 14 characters ("000.000.000-00"). */
  predicate CpfValido(cpf: string) {
    |cpf| == 14
  }
}
