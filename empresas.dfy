/**
 * The company hierarchy: `Empresa` with its concrete kinds `Restaurante`,
 * `Mercado` and `Farmacia`, as one datatype tagged by `Variante`. The id is
 * handed out by the registry's counter (see `Sistema`); the courier list
 * holds courier ids and starts unset, as the Java field starts null.
 */
module Empresas {
  import opened Erros
  import opened Texto
  import opened Horas
  import opened Colecoes

  datatype Variante =
    | Restaurante(tipoCozinha: string)
    | Mercado(abre: string, fecha: string, tipoMercado: string)
    | Farmacia(aberto24Horas: bool, numeroFuncionarios: int)

  datatype Empresa = Empresa(
    id: int,
    tipoEmpresa: string,
    nome: string,
    endereco: string,
    entregadores: Option<seq<int>>,
    variante: Variante)

  /** A freshly constructed company: no courier list yet. */
  function Nova(id: int, tipoEmpresa: string, nome: string, endereco: string, variante: Variante): (e: Empresa)
    ensures e.id == id && e.variante == variante && e.entregadores.None?
    ensures GetAtributoBase(e, "nome") == Ok(nome)
    ensures GetAtributoBase(e, "endereco") == Ok(endereco)
    ensures GetAtributoBase(e, "tipoEmpresa") == Ok(tipoEmpresa)
  {
    Empresa(id, tipoEmpresa, nome, endereco, None, variante)
  }

  /** `isMercado()`. */
  predicate IsMercado(e: Empresa) {
    e.variante.Mercado?
  }

  /** `isFarmacia()`. */
  predicate IsFarmacia(e: Empresa) {
    e.variante.Farmacia?
  }

  /** A company is a market, a pharmacy or neither (a restaurant), never both. */
  lemma FlagsExclusivas(e: Empresa)
    ensures !(IsMercado(e) && IsFarmacia(e))
    ensures e.variante.Restaurante? <==> !IsMercado(e) && !IsFarmacia(e)
  {
  }

  /**
   * A restaurant's `equalsIgnoreCase("tipoCozinha")` test is a comparison of
   * the lower-cased name with "tipocozinha".
   */
  lemma TipoCozinhaIgnoraCaixa(atributo: string)
    ensures IgualIgnorandoCaixa("tipoCozinha", atributo) <==> Minusculas(atributo) == "tipocozinha"
  {
    MinusculasPorCaractere("tipoCozinha", "tipocozinha");
  }

  /** `Empresa.getAtributo`: name, address and type, matched case-sensitively. */
  function GetAtributoBase(e: Empresa, atributo: string): (r: Result<string>)
    ensures r.Ok? <==> atributo == "nome" || atributo == "endereco" || atributo == "tipoEmpresa"
    ensures r.Err? ==> r.erro == AtributoInvalido
    ensures atributo == "nome" ==> r == Ok(e.nome)
    ensures atributo == "endereco" ==> r == Ok(e.endereco)
    ensures atributo == "tipoEmpresa" ==> r == Ok(e.tipoEmpresa)
  {
    match atributo
    case "nome" => Ok(e.nome)
    case "endereco" => Ok(e.endereco)
    case "tipoEmpresa" => Ok(e.tipoEmpresa)
    case _ => Err(AtributoInvalido)
  }

  /** The names a kind answers itself, in any letter case, before deferring to the base class. */
  predicate AtributoDaVariante(v: Variante, atributo: string) {
    match v
    case Restaurante(_) => Minusculas(atributo) == "tipocozinha"
    case Mercado(_, _, _) =>
      var chave := Minusculas(atributo);
      chave == "abre" || chave == "fecha" || chave == "tipomercado"
    case Farmacia(_, _) =>
      var chave := Minusculas(atributo);
      chave == "aberto24horas" || chave == "numerofuncionarios"
  }

  /**
   * `getAtributo` with the overrides of `Restaurante`, `Mercado` and
   * `Farmacia`; names a kind does not answer reach the base table unchanged.
   */
  function GetAtributo(e: Empresa, atributo: string): (r: Result<string>)
    ensures !AtributoDaVariante(e.variante, atributo) ==> r == GetAtributoBase(e, atributo)
    ensures e.variante.Restaurante? && Minusculas(atributo) == "tipocozinha" ==> r == Ok(e.variante.tipoCozinha)
    ensures e.variante.Mercado? && Minusculas(atributo) == "abre" ==> r == Ok(e.variante.abre)
    ensures e.variante.Mercado? && Minusculas(atributo) == "fecha" ==> r == Ok(e.variante.fecha)
    ensures e.variante.Mercado? && Minusculas(atributo) == "tipomercado" ==> r == Ok(e.variante.tipoMercado)
    ensures e.variante.Farmacia? && Minusculas(atributo) == "aberto24horas" ==>
              r == Ok(if e.variante.aberto24Horas then "true" else "false")
    ensures e.variante.Farmacia? && Minusculas(atributo) == "numerofuncionarios" ==>
              r.Ok? && r.value == IntParaTexto(e.variante.numeroFuncionarios)
    ensures r.Err? ==> r.erro == AtributoInvalido
  {
    match e.variante
    case Restaurante(tipoCozinha) =>
      if Minusculas(atributo) == "tipocozinha" then Ok(tipoCozinha) else GetAtributoBase(e, atributo)
    case Mercado(abre, fecha, tipoMercado) =>
      var chave := Minusculas(atributo);
      if chave == "abre" then Ok(abre)
      else if chave == "fecha" then Ok(fecha)
      else if chave == "tipomercado" then Ok(tipoMercado)
      else GetAtributoBase(e, atributo)
    case Farmacia(aberto24Horas, numeroFuncionarios) =>
      var chave := Minusculas(atributo);
      if chave == "aberto24horas" then Ok(if aberto24Horas then "true" else "false")
      else if chave == "numerofuncionarios" then Ok(IntParaTexto(numeroFuncionarios))
      else GetAtributoBase(e, atributo)
  }

  /** The employee count a pharmacy reports reads back as the stored number. */
  lemma NumeroFuncionariosIdaVolta(e: Empresa, atributo: string)
    requires e.variante.Farmacia? && e.variante.numeroFuncionarios >= 0
    requires Minusculas(atributo) == "numerofuncionarios"
    ensures GetAtributo(e, atributo).Ok?
    ensures SoDigitos(GetAtributo(e, atributo).value)
    ensures ValorDecimal(GetAtributo(e, atributo).value) == e.variante.numeroFuncionarios
  {
  }

  /**
   * `setAtributo`: a market replaces its opening ("abre") or closing
   * ("fecha") hour, the name matched in any letter case; every other name,
   * and every name on a restaurant or a pharmacy, changes nothing.
   */
  function SetAtributo(e: Empresa, atributo: string, valor: string): (r: Empresa)
    ensures !(IsMercado(e) && (Minusculas(atributo) == "abre" || Minusculas(atributo) == "fecha")) ==> r == e
    ensures r.id == e.id && r.nome == e.nome && r.endereco == e.endereco && r.tipoEmpresa == e.tipoEmpresa
    ensures r.entregadores == e.entregadores && IsMercado(r) == IsMercado(e)
  {
    match e.variante
    case Mercado(_, _, _) =>
      var chave := Minusculas(atributo);
      if chave == "abre" then e.(variante := e.variante.(abre := valor))
      else if chave == "fecha" then e.(variante := e.variante.(fecha := valor))
      else e
    case _ => e
  }

  /**
   * On a market, setting "abre" (in any letter case) makes the opening hour
   * read back as the new value and leaves every other attribute as it was.
   */
  lemma SetAtributoAbre(e: Empresa, atributo: string, valor: string)
    requires IsMercado(e) && Minusculas(atributo) == "abre"
    ensures GetAtributo(SetAtributo(e, atributo, valor), "abre") == Ok(valor)
    ensures forall a :: Minusculas(a) != "abre" ==> GetAtributo(SetAtributo(e, atributo, valor), a) == GetAtributo(e, a)
  {
    var r := SetAtributo(e, atributo, valor);
    assert r == e.(variante := Mercado(valor, e.variante.fecha, e.variante.tipoMercado));
    MinusculasSemMaiusculas("abre");
    forall a | Minusculas(a) != "abre" ensures GetAtributo(r, a) == GetAtributo(e, a) {
      assert GetAtributoBase(r, a) == GetAtributoBase(e, a);
    }
  }

  /** The same for "fecha" and the closing hour. */
  lemma SetAtributoFecha(e: Empresa, atributo: string, valor: string)
    requires IsMercado(e) && Minusculas(atributo) == "fecha"
    ensures GetAtributo(SetAtributo(e, atributo, valor), "fecha") == Ok(valor)
    ensures forall a :: Minusculas(a) != "fecha" ==> GetAtributo(SetAtributo(e, atributo, valor), a) == GetAtributo(e, a)
  {
    var r := SetAtributo(e, atributo, valor);
    assert r == e.(variante := Mercado(e.variante.abre, valor, e.variante.tipoMercado));
    MinusculasSemMaiusculas("fecha");
    forall a | Minusculas(a) != "fecha" ensures GetAtributo(r, a) == GetAtributo(e, a) {
      assert GetAtributoBase(r, a) == GetAtributoBase(e, a);
    }
  }

  /**
   * The update `alterarFuncionamento` makes to a market: `setAtributo("abre", …)`
   * and then `setAtributo("fecha", …)`. The company stays the same market
   * (see `NovoHorarioAtributos` for what it then answers).
   */
  function NovoHorario(e: Empresa, abre: string, fecha: string): (r: Empresa)
    requires IsMercado(e)
    ensures r.id == e.id && r.nome == e.nome && r.endereco == e.endereco && r.tipoEmpresa == e.tipoEmpresa
    ensures r.entregadores == e.entregadores && IsMercado(r)
  {
    SetAtributo(SetAtributo(e, "abre", abre), "fecha", fecha)
  }

  /** After the update both hours read back as given, and every other attribute reads as before. */
  lemma NovoHorarioAtributos(e: Empresa, abre: string, fecha: string)
    requires IsMercado(e)
    ensures GetAtributo(NovoHorario(e, abre, fecha), "abre") == Ok(abre)
    ensures GetAtributo(NovoHorario(e, abre, fecha), "fecha") == Ok(fecha)
    ensures forall a :: Minusculas(a) != "abre" && Minusculas(a) != "fecha" ==>
              GetAtributo(NovoHorario(e, abre, fecha), a) == GetAtributo(e, a)
  {
    MinusculasSemMaiusculas("abre");
    MinusculasSemMaiusculas("fecha");
    SetAtributoAbre(e, "abre", abre);
    SetAtributoFecha(SetAtributo(e, "abre", abre), "fecha", fecha);
  }

  /**
   * `getEntregadores`: the courier list, created empty on first use. The
   * result pairs the list with the company as it is after the call.
   */
  function GetEntregadores(e: Empresa): (r: (seq<int>, Empresa))
    ensures r.1.entregadores == Some(r.0)
    ensures e.entregadores.Some? ==> r.0 == e.entregadores.value && r.1 == e
    ensures e.entregadores.None? ==> r.0 == []
    ensures r.1 == e.(entregadores := Some(r.0))
  {
    match e.entregadores
    case Some(lista) => (lista, e)
    case None => ([], e.(entregadores := Some([])))
  }

  /** After the first call the list is set: calling again returns the same list and changes nothing. */
  lemma GetEntregadoresIdempotente(e: Empresa)
    ensures GetEntregadores(GetEntregadores(e).1) == GetEntregadores(e)
  {
  }

  /** `setEntregadores`: replaces the courier list and nothing else. */
  function SetEntregadores(e: Empresa, lista: seq<int>): (r: Empresa)
    ensures GetEntregadores(r) == (lista, r)
    ensures r.(entregadores := e.entregadores) == e
  {
    e.(entregadores := Some(lista))
  }

  /** Replacing the courier list changes no attribute the company answers. */
  lemma SetEntregadoresPreservaAtributos(e: Empresa, lista: seq<int>, a: string)
    ensures GetAtributo(SetEntregadores(e, lista), a) == GetAtributo(e, a)
  {
    var r := SetEntregadores(e, lista);
    assert r.variante == e.variante && r.nome == e.nome && r.endereco == e.endereco && r.tipoEmpresa == e.tipoEmpresa;
    assert GetAtributoBase(r, a) == GetAtributoBase(e, a);
  }

  /**
   * The scan `for (Empresa r : empresas.values()) if (r.getNome().equals(n))`
   * that resolves the company an order names. The first company met in a
   * hash map is not specified; the model takes the lowest id.
   */
  function BuscarPorNome(empresas: map<int, Empresa>, nome: string): (r: Option<int>)
    ensures r.None? <==> forall id :: id in empresas ==> empresas[id].nome != nome
    ensures r.Some? ==> r.value in empresas && empresas[r.value].nome == nome
    ensures r.Some? ==> forall id :: id in empresas && empresas[id].nome == nome ==> r.value <= id
  {
    var comNome := set id | id in empresas && empresas[id].nome == nome;
    assert forall id :: id in comNome <==> id in empresas && empresas[id].nome == nome;
    MenorOpcional(comNome)
  }

  /**
   * The checks of the market overload of `criarEmpresa` made before the
   * registry is consulted, in their order: the type ("mercado" or
   * "restaurante"), a blank name, a blank address, a missing opening or
   * closing hour, the "HH:MM" format, a blank market type, the range of
   * the hours and their order.
   */
  function ValidarMercado(tipoEmpresa: string, nome: string, endereco: string,
                          abre: Option<string>, fecha: Option<string>, tipoMercado: string): (r: Option<Erro>)
    ensures r.None? <==>
              (tipoEmpresa == "mercado" || tipoEmpresa == "restaurante") &&
              !EmBranco(nome) && !EmBranco(endereco) && !EmBranco(tipoMercado) &&
              ValidarFuncionamento(abre, fecha).None?
    ensures r == Some(TipoEmpresaInvalido) <==> tipoEmpresa != "mercado" && tipoEmpresa != "restaurante"
    ensures r == Some(NomeInvalido) <==> (tipoEmpresa == "mercado" || tipoEmpresa == "restaurante") && EmBranco(nome)
    ensures r == Some(EnderecoEmpresaInvalido) <==>
              (tipoEmpresa == "mercado" || tipoEmpresa == "restaurante") && !EmBranco(nome) && EmBranco(endereco)
    ensures r == Some(FormatoHoraInvalido) <==>
              (tipoEmpresa == "mercado" || tipoEmpresa == "restaurante") && !EmBranco(nome) && !EmBranco(endereco) &&
              ValidarFuncionamento(abre, fecha) == Some(FormatoHoraInvalido)
    ensures r == Some(TipoMercadoInvalido) <==>
              (tipoEmpresa == "mercado" || tipoEmpresa == "restaurante") && !EmBranco(nome) && !EmBranco(endereco) &&
              abre.Some? && fecha.Some? && FormatoValido(abre.value) && FormatoValido(fecha.value) && EmBranco(tipoMercado)
    ensures r == Some(HorarioInvalido) <==>
              (tipoEmpresa == "mercado" || tipoEmpresa == "restaurante") && !EmBranco(nome) && !EmBranco(endereco) &&
              (abre.None? || fecha.None? ||
               (!EmBranco(tipoMercado) && ValidarFuncionamento(abre, fecha) == Some(HorarioInvalido)))
  {
    if tipoEmpresa != "mercado" && tipoEmpresa != "restaurante" then Some(TipoEmpresaInvalido)
    else if EmBranco(nome) then Some(NomeInvalido)
    else if EmBranco(endereco) then Some(EnderecoEmpresaInvalido)
    else if abre.None? || fecha.None? then Some(HorarioInvalido)
    else if !FormatoValido(abre.value) || !FormatoValido(fecha.value) then Some(FormatoHoraInvalido)
    else if EmBranco(tipoMercado) then Some(TipoMercadoInvalido)
    else if !DentroLimite(abre.value) || !DentroLimite(fecha.value) then Some(HorarioInvalido)
    else if !OrdemValida(abre.value, fecha.value) then Some(HorarioInvalido)
    else None
  }

  /**
   * The checks of the pharmacy overload of `criarEmpresa` made before the
   * registry is consulted: the type must be exactly "farmacia", then a
   * blank name and a blank address are refused.
   */
  function ValidarFarmacia(tipoEmpresa: string, nome: string, endereco: string): (r: Option<Erro>)
    ensures r.None? <==> tipoEmpresa == "farmacia" && !EmBranco(nome) && !EmBranco(endereco)
    ensures r == Some(TipoEmpresaInvalido) <==> tipoEmpresa != "farmacia"
    ensures r == Some(NomeInvalido) <==> tipoEmpresa == "farmacia" && EmBranco(nome)
    ensures r == Some(EnderecoEmpresaInvalido) <==> tipoEmpresa == "farmacia" && !EmBranco(nome) && EmBranco(endereco)
    ensures r.Some? ==> r.value in {TipoEmpresaInvalido, NomeInvalido, EnderecoEmpresaInvalido}
  {
    if tipoEmpresa != "farmacia" then Some(TipoEmpresaInvalido)
    else if EmBranco(nome) then Some(NomeInvalido)
    else if EmBranco(endereco) then Some(EnderecoEmpresaInvalido)
    else None
  }

  /** A pharmacy that passed its checks never has the type "Farmacia" that the dispatch tier looks for. */
  lemma FarmaciaValidaNaoEhMaiuscula(tipoEmpresa: string, nome: string, endereco: string)
    requires ValidarFarmacia(tipoEmpresa, nome, endereco).None?
    ensures tipoEmpresa != "Farmacia"
  {
  }

  /** The ids in an owner's list whose company has the given name, in list order (`idsCorrespondentes`). */
  function IdsComNome(lista: seq<int>, empresas: map<int, Empresa>, nome: string): (r: seq<int>)
    ensures forall id :: id in r <==> id in lista && id in empresas && empresas[id].nome == nome
    ensures |r| <= |lista|
  {
    if lista == [] then []
    else
      var resto := IdsComNome(lista[..|lista| - 1], empresas, nome);
      var id := lista[|lista| - 1];
      if id in empresas && empresas[id].nome == nome then resto + [id] else resto
  }

  /**
   * `getIdEmpresa`: the `indice`-th of the owner's companies with that name,
   * counted in the owner's list order.
   */
  method GetIdEmpresa(empresasPorDono: map<int, seq<int>>, empresas: map<int, Empresa>,
                      idDono: int, nome: string, indice: int) returns (r: Result<int>)
    ensures EmBranco(nome) ==> r == Err(NomeInvalido)
    ensures !EmBranco(nome) && Lista(empresasPorDono, idDono) == [] ==> r == Err(NomeEmpresaNaoExiste)
    ensures !EmBranco(nome) && Lista(empresasPorDono, idDono) != [] && indice < 0 ==> r == Err(IndiceInvalido)
    ensures !EmBranco(nome) && Lista(empresasPorDono, idDono) != [] && indice >= 0 ==>
              var ids := IdsComNome(Lista(empresasPorDono, idDono), empresas, nome);
              r == if ids == [] then Err(NomeEmpresaNaoExiste)
                   else if indice >= |ids| then Err(IndiceMaior)
                   else Ok(ids[indice])
    ensures r.Ok? ==> r.value in Lista(empresasPorDono, idDono) && r.value in empresas && empresas[r.value].nome == nome
  {
    if EmBranco(nome) {
      return Err(NomeInvalido);
    }
    var lista := Lista(empresasPorDono, idDono);
    if lista == [] {
      return Err(NomeEmpresaNaoExiste);
    }
    if indice < 0 {
      return Err(IndiceInvalido);
    }
    var idsCorrespondentes: seq<int> := [];
    var i := 0;
    while i < |lista|
      invariant 0 <= i <= |lista|
      invariant idsCorrespondentes == IdsComNome(lista[..i], empresas, nome)
    {
      var id := lista[i];
      if id in empresas && empresas[id].nome == nome {
        idsCorrespondentes := idsCorrespondentes + [id];
      }
      assert lista[..i + 1][..i] == lista[..i];
      i := i + 1;
    }
    assert lista[..i] == lista;
    if idsCorrespondentes == [] {
      return Err(NomeEmpresaNaoExiste);
    }
    if indice >= |idsCorrespondentes| {
      return Err(IndiceMaior);
    }
    r := Ok(idsCorrespondentes[indice]);
  }

  /** `"[" + nome + ", " + endereco + "]"`: one entry of `getEmpresasDoUsuario`. */
  function Descrever(e: Empresa): (s: string)
    ensures |s| == |e.nome| + |e.endereco| + 4
    ensures s[0] == '[' && s[|s| - 1] == ']'
  {
    "[" + e.nome + ", " + e.endereco + "]"
  }
}
