/**
 * The MyFood registry (`Sistema`): the user, company, product, order and
 * delivery tables that the operations update in place, with the four id
 * counters that the Java classes keep as static fields. Lists that hold
 * objects in Java hold ids here (an order's number, a company's id); every
 * id is the key of its object, so the two say the same.
 */
module MyFood {
  import opened Erros
  import opened Texto
  import opened Colecoes
  import opened Horas
  import opened Usuarios
  import opened Empresas
  import opened Produtos
  import opened Pedidos
  import opened Entregas

  /** Every id listed in the lists of `m` is one of `s`. */
  ghost predicate ListasEm(m: map<int, seq<int>>, s: set<int>) {
    forall k, i :: k in m && 0 <= i < |m[k]| ==> m[k][i] in s
  }

  /** The e-mail index holds exactly the users' e-mails, each mapped to its user. */
  ghost predicate IndiceDeEmails(usuarios: map<int, Usuario>, porEmail: map<string, int>) {
    porEmail.Keys == (set id | id in usuarios :: usuarios[id].email) &&
    (forall id :: id in usuarios ==> porEmail[usuarios[id].email] == id)
  }

  /** With the index kept, each indexed e-mail leads to the user who has it, and no two users share an e-mail. */
  lemma EmailsUnicos(usuarios: map<int, Usuario>, porEmail: map<string, int>, a: int, b: int, email: string)
    requires IndiceDeEmails(usuarios, porEmail)
    requires a in usuarios && b in usuarios && usuarios[a].email == usuarios[b].email
    ensures a == b
    ensures email in porEmail ==> porEmail[email] in usuarios && usuarios[porEmail[email]].email == email
  {
    assert porEmail[usuarios[a].email] == a;
    if email in porEmail {
      var id :| id in usuarios && usuarios[id].email == email;
      assert porEmail[usuarios[id].email] == id;
    }
  }

  /** Registering a user under a fresh id and an unused e-mail keeps the index. */
  lemma RegistrarPreservaIndice(usuarios: map<int, Usuario>, porEmail: map<string, int>, u: Usuario)
    requires IndiceDeEmails(usuarios, porEmail)
    requires u.id !in usuarios && u.email !in porEmail
    ensures IndiceDeEmails(usuarios[u.id := u], porEmail[u.email := u.id])
  {
    var us := usuarios[u.id := u];
    var antes := set id | id in usuarios :: usuarios[id].email;
    var depois := set id | id in us :: us[id].email;
    forall x | x in depois ensures x in antes + {u.email} {
      var id :| id in us && us[id].email == x;
      if id != u.id {
        assert usuarios[id].email == x;
      }
    }
    forall x | x in antes ensures x in depois {
      var id :| id in usuarios && usuarios[id].email == x;
      assert us[id].email == x;
    }
    assert us[u.id].email == u.email;
    assert depois == antes + {u.email};
  }

  /** A company belongs to at most one owner's list, and at most once. */
  ghost predicate DonoUnico(porDono: map<int, seq<int>>) {
    forall d1, d2, i, j :: d1 in porDono && d2 in porDono && 0 <= i < |porDono[d1]| && 0 <= j < |porDono[d2]| &&
      porDono[d1][i] == porDono[d2][j]
      ==> d1 == d2 && i == j
  }

  /** Appending a company id that no list holds to one owner's list keeps every company with a single owner. */
  lemma NovaEmpresaPreservaDonoUnico(porDono: map<int, seq<int>>, dono: int, id: int)
    requires DonoUnico(porDono)
    requires forall d, i :: d in porDono && 0 <= i < |porDono[d]| ==> porDono[d][i] != id
    ensures DonoUnico(porDono[dono := Lista(porDono, dono) + [id]])
  {
  }

  /** The owner of a listed company is the one whose list holds it. */
  lemma DonoUnicoDeterminaDono(porDono: map<int, seq<int>>, empresa: int, d1: int, d2: int)
    requires DonoUnico(porDono)
    requires d1 in porDono && empresa in porDono[d1]
    requires d2 in porDono && empresa in porDono[d2]
    ensures d1 == d2
  {
    var i :| 0 <= i < |porDono[d1]| && porDono[d1][i] == empresa;
    var j :| 0 <= j < |porDono[d2]| && porDono[d2][j] == empresa;
  }

  /** The delivery ids are exactly 1 .. the number of deliveries, each the key of its delivery. */
  ghost predicate EntregasNumeradas(entregas: map<int, Entrega>) {
    (forall k :: k in entregas <==> 1 <= k <= |entregas|) &&
    (forall k :: k in entregas ==> entregas[k].id == k)
  }

  /** `entregas.size() + 1` is an unused id, and storing the new delivery under it keeps the numbering. */
  lemma NovaEntregaNumerada(entregas: map<int, Entrega>, e: Entrega)
    requires EntregasNumeradas(entregas)
    requires e.id == |entregas| + 1
    ensures e.id !in entregas
    ensures |entregas[e.id := e]| == |entregas| + 1
    ensures EntregasNumeradas(entregas[e.id := e])
  {
  }

  /** The user table: ids are keys below the next id, and the e-mail index is kept. */
  ghost predicate UsuariosValidos(usuarios: map<int, Usuario>, porEmail: map<string, int>, proximo: int) {
    1 <= proximo &&
    (forall id :: id in usuarios ==> usuarios[id].id == id && 1 <= id < proximo) &&
    IndiceDeEmails(usuarios, porEmail)
  }

  /** Registering a user under the next id and an unused e-mail keeps the user table valid. */
  lemma RegistrarPreservaUsuarios(usuarios: map<int, Usuario>, porEmail: map<string, int>, proximo: int, u: Usuario)
    requires UsuariosValidos(usuarios, porEmail, proximo)
    requires u.id == proximo && u.email !in porEmail
    ensures u.id !in usuarios
    ensures UsuariosValidos(usuarios[u.id := u], porEmail[u.email := u.id], proximo + 1)
  {
    RegistrarPreservaIndice(usuarios, porEmail, u);
  }

  /**
   * The company table: ids are keys below the next id, a pharmacy is typed
   * "farmacia", owners list only existing companies and each company has
   * one owner.
   */
  ghost predicate EmpresasValidas(empresas: map<int, Empresa>, porDono: map<int, seq<int>>, proxima: int) {
    1 <= proxima &&
    (forall id :: id in empresas ==> empresas[id].id == id && 1 <= id < proxima) &&
    (forall id :: id in empresas && empresas[id].variante.Farmacia? ==> empresas[id].tipoEmpresa == "farmacia") &&
    ListasEm(porDono, empresas.Keys) &&
    DonoUnico(porDono)
  }

  /** Adding a company under the next id to one owner's list keeps the company table valid. */
  lemma NovaEmpresaPreservaEmpresas(empresas: map<int, Empresa>, porDono: map<int, seq<int>>, proxima: int,
                                    dono: int, e: Empresa)
    requires EmpresasValidas(empresas, porDono, proxima)
    requires e.id == proxima && (e.variante.Farmacia? ==> e.tipoEmpresa == "farmacia")
    ensures e.id !in empresas
    ensures EmpresasValidas(empresas[e.id := e], porDono[dono := Lista(porDono, dono) + [e.id]], proxima + 1)
  {
    NovaEmpresaPreservaDonoUnico(porDono, dono, e.id);
  }

  /** Replacing a company by one with the same id and an allowed type keeps the company table valid. */
  lemma AtualizarEmpresaPreservaEmpresas(empresas: map<int, Empresa>, porDono: map<int, seq<int>>, proxima: int, e: Empresa)
    requires EmpresasValidas(empresas, porDono, proxima)
    requires e.id in empresas && (e.variante.Farmacia? ==> e.tipoEmpresa == "farmacia")
    ensures EmpresasValidas(empresas[e.id := e], porDono, proxima)
  {
    assert empresas[e.id := e].Keys == empresas.Keys;
  }

  /** The product table: ids are keys up to the counter, prices are positive, catalogues list existing products. */
  ghost predicate ProdutosValidos(produtos: map<int, Produto>, porRestaurante: map<int, seq<int>>, contador: int) {
    0 <= contador &&
    (forall id :: id in produtos ==> produtos[id].id == id && 1 <= id <= contador && produtos[id].valor > 0) &&
    ListasEm(porRestaurante, produtos.Keys)
  }

  /** Storing a product of positive price under the counter plus one, listed under one company, keeps the product table valid. */
  lemma NovoProdutoPreservaProdutos(produtos: map<int, Produto>, porRestaurante: map<int, seq<int>>, contador: int,
                                    empresa: int, p: Produto)
    requires ProdutosValidos(produtos, porRestaurante, contador)
    requires p.id == contador + 1 && p.valor > 0
    ensures p.id !in produtos
    ensures ProdutosValidos(produtos[p.id := p], porRestaurante[empresa := Lista(porRestaurante, empresa) + [p.id]], contador + 1)
  {
    var novos := produtos[p.id := p];
    var listas := porRestaurante[empresa := Lista(porRestaurante, empresa) + [p.id]];
    forall k, i | k in listas && 0 <= i < |listas[k]| ensures listas[k][i] in novos.Keys {
      if k != empresa || i < |Lista(porRestaurante, empresa)| {
        assert listas[k][i] in produtos.Keys;
      }
    }
  }

  /**
   * The order table: numbers are keys up to the counter, every total is the
   * sum of its basket, company lists name existing orders, and no client
   * has two "aberto" orders in one company's list.
   */
  ghost predicate PedidosValidos(pedidos: map<int, PedidoV>, porRestaurante: map<int, seq<int>>, contador: int) {
    0 <= contador &&
    (forall n :: n in pedidos ==> pedidos[n].numero == n && 1 <= n <= contador && pedidos[n].valor == Soma(pedidos[n].produtos)) &&
    ListasEm(porRestaurante, pedidos.Keys) &&
    UmAbertoPorCliente(porRestaurante, pedidos)
  }

  /** A new empty "aberto" order under the next number, for a client with no open order there, keeps the order table valid. */
  lemma NovoPedidoPreservaPedidos(pedidos: map<int, PedidoV>, porRestaurante: map<int, seq<int>>, contador: int,
                                  empresa: int, v: PedidoV)
    requires PedidosValidos(pedidos, porRestaurante, contador)
    requires v.numero == contador + 1 && v.estado == ABERTO && v.produtos == [] && v.valor == 0
    requires !TemAberto(Lista(porRestaurante, empresa), pedidos, v.cliente)
    ensures v.numero !in pedidos
    ensures PedidosValidos(pedidos[v.numero := v], porRestaurante[empresa := Lista(porRestaurante, empresa) + [v.numero]], contador + 1)
  {
    NovoPedidoPreservaUmAberto(porRestaurante, pedidos, empresa, Lista(porRestaurante, empresa), v);
  }

  /**
   * Changing an order's basket or state keeps the order table valid as long
   * as the number, the client and the total-is-sum rule stay, and the order
   * does not move back into "aberto".
   */
  lemma AtualizarPreservaPedidos(pedidos: map<int, PedidoV>, porRestaurante: map<int, seq<int>>, contador: int,
                                 n: int, v: PedidoV)
    requires PedidosValidos(pedidos, porRestaurante, contador)
    requires n in pedidos && v.numero == n && v.cliente == pedidos[n].cliente && v.valor == Soma(v.produtos)
    requires v.estado == ABERTO ==> pedidos[n].estado == ABERTO
    ensures PedidosValidos(pedidos[n := v], porRestaurante, contador)
  {
    AtualizarPreservaUmAberto(porRestaurante, pedidos, n, v);
  }

  /** Empty tables satisfy every table invariant, whatever the counters have reached. */
  lemma TabelasVaziasValidas(proximoUsuario: int, proximaEmpresa: int, contadorProdutos: int, contadorPedidos: int)
    requires 1 <= proximoUsuario && 1 <= proximaEmpresa && 0 <= contadorProdutos && 0 <= contadorPedidos
    ensures UsuariosValidos(map[], map[], proximoUsuario)
    ensures EmpresasValidas(map[], map[], proximaEmpresa)
    ensures ProdutosValidos(map[], map[], contadorProdutos)
    ensures PedidosValidos(map[], map[], contadorPedidos)
  {
    var vazio: map<int, Usuario> := map[];
    assert (set id | id in vazio :: vazio[id].email) == {};
  }

  /** A company with this name and address in the owner's list (`EnderecoDuplicado`). */
  predicate DuplicadaDoDono(lista: seq<int>, empresas: map<int, Empresa>, nome: string, endereco: string) {
    exists i :: 0 <= i < |lista| && lista[i] in empresas &&
      empresas[lista[i]].nome == nome && empresas[lista[i]].endereco == endereco
  }

  /** A company with this name in the list of an owner other than `dono` (`NomeEmpresaExistente` for markets and pharmacies). */
  predicate NomeDeOutroDono(porDono: map<int, seq<int>>, empresas: map<int, Empresa>, dono: int, nome: string) {
    exists d, i :: d in porDono && d != dono && 0 <= i < |porDono[d]| &&
      porDono[d][i] in empresas && empresas[porDono[d][i]].nome == nome
  }

  /** Some courier already uses this plate (`PlacaInvalida`). */
  predicate PlacaEmUso(usuarios: map<int, Usuario>, placa: string) {
    exists id :: id in usuarios && usuarios[id].papel.Entregador? && usuarios[id].papel.placa == placa
  }

  /** A product with this name in the company's catalogue (`NomeProdutoExiste`). */
  predicate NomeNoCatalogo(lista: seq<int>, produtos: map<int, Produto>, nome: string) {
    exists i :: 0 <= i < |lista| && lista[i] in produtos && produtos[lista[i]].nome == nome
  }

  /**
   * The checks of `alterarFuncionamento`, in their order: the company must
   * exist, the hours must pass `ValidarFuncionamento`, and only then must
   * the company be a market.
   */
  function ValidarAlteracao(empresas: map<int, Empresa>, mercadoId: int, abre: Option<string>, fecha: Option<string>)
    : (r: Option<Erro>)
    ensures r.None? <==>
              mercadoId in empresas && IsMercado(empresas[mercadoId]) &&
              abre.Some? && fecha.Some? && HorarioAceito(abre.value, fecha.value)
    ensures r == Some(MercadoInvalido) <==>
              mercadoId !in empresas || (ValidarFuncionamento(abre, fecha).None? && !IsMercado(empresas[mercadoId]))
    ensures mercadoId in empresas && ValidarFuncionamento(abre, fecha).Some? ==> r == ValidarFuncionamento(abre, fecha)
    ensures r.Some? ==> r.value in {MercadoInvalido, HorarioInvalido, FormatoHoraInvalido}
  {
    if mercadoId !in empresas then Some(MercadoInvalido)
    else if ValidarFuncionamento(abre, fecha).Some? then ValidarFuncionamento(abre, fecha)
    else if !IsMercado(empresas[mercadoId]) then Some(MercadoInvalido)
    else None
  }

  /**
   * The checks of `criarPedido`, in their order: the client and the company
   * must exist, the client must not own the company, and the client's name
   * must not have an "aberto" order in the company's list.
   */
  function ValidarPedido(usuarios: map<int, Usuario>, empresas: map<int, Empresa>, empresasPorDono: map<int, seq<int>>,
                         porRestaurante: map<int, seq<int>>, pedidos: map<int, PedidoV>, clienteId: int, empresaId: int)
    : (r: Option<Erro>)
    ensures r.None? <==>
              clienteId in usuarios && empresaId in empresas &&
              !(clienteId in empresasPorDono && empresaId in empresasPorDono[clienteId]) &&
              !TemAberto(Lista(porRestaurante, empresaId), pedidos, usuarios[clienteId].nome)
    ensures r == Some(PedidoEmAberto) <==>
              clienteId in usuarios && empresaId in empresas &&
              !(clienteId in empresasPorDono && empresaId in empresasPorDono[clienteId]) &&
              TemAberto(Lista(porRestaurante, empresaId), pedidos, usuarios[clienteId].nome)
    ensures r.Some? ==> r.value in {DonoNaoPodePedido, PedidoEmAberto}
  {
    if clienteId !in usuarios || empresaId !in empresas then Some(DonoNaoPodePedido)
    else if clienteId in empresasPorDono && empresaId in empresasPorDono[clienteId] then Some(DonoNaoPodePedido)
    else if TemAberto(Lista(porRestaurante, empresaId), pedidos, usuarios[clienteId].nome) then Some(PedidoEmAberto)
    else None
  }

  /**
   * The checks of `adicionarProduto` once the order is found, in their
   * order: the order is "preparando", the product does not exist, the
   * order's company does not resolve, the product is not in that company's
   * catalogue.
   */
  function ValidarAdicao(v: PedidoV, produtos: map<int, Produto>, porRestaurante: map<int, seq<int>>,
                         empresas: map<int, Empresa>, idProduto: int): (r: Option<Erro>)
    ensures r.None? <==>
              v.estado != PREPARANDO && idProduto in produtos && BuscarPorNome(empresas, v.empresa).Some? &&
              idProduto in Lista(porRestaurante, BuscarPorNome(empresas, v.empresa).value)
    ensures r == Some(PedidoFechado) <==> v.estado == PREPARANDO
    ensures r == Some(ProdutoNaoEncontrado) <==> v.estado != PREPARANDO && idProduto !in produtos
    ensures r == Some(EmpresaNaoEncontrada) <==>
              v.estado != PREPARANDO && idProduto in produtos && BuscarPorNome(empresas, v.empresa).None?
    ensures r == Some(ProdutoNaoPertenceEmpresa) <==>
              v.estado != PREPARANDO && idProduto in produtos && BuscarPorNome(empresas, v.empresa).Some? &&
              idProduto !in Lista(porRestaurante, BuscarPorNome(empresas, v.empresa).value)
    ensures r.Some? ==> r.value in {PedidoFechado, ProdutoNaoEncontrado, EmpresaNaoEncontrada, ProdutoNaoPertenceEmpresa}
  {
    if v.estado == PREPARANDO then Some(PedidoFechado)
    else if idProduto !in produtos then Some(ProdutoNaoEncontrado)
    else
      var e := BuscarPorNome(empresas, v.empresa);
      if e.None? then Some(EmpresaNaoEncontrada)
      else if idProduto !in Lista(porRestaurante, e.value) then Some(ProdutoNaoPertenceEmpresa)
      else None
  }

  /**
   * The checks of `criarEntrega`, in their order: the order must exist, must
   * not be already being delivered, must be ready; the user must be a
   * courier; the order's company must resolve; the courier must have a
   * company list at all (without one the Java code fails on a null
   * reference) and the company must be on it.
   */
  function ValidarEntrega(pedidos: map<int, PedidoV>, idPedido: int, usuarios: map<int, Usuario>,
                          empresas: map<int, Empresa>, empresasPorEntregador: map<int, seq<int>>, idEntregador: int)
    : (r: Option<Erro>)
    ensures r == Some(PedidoNaoEncontrado) <==> idPedido !in pedidos
    ensures r.None? <==>
              idPedido in pedidos && pedidos[idPedido].estado == PRONTO &&
              idEntregador in usuarios && EhEntregador(usuarios[idEntregador]) &&
              BuscarPorNome(empresas, pedidos[idPedido].empresa).Some? && idEntregador in empresasPorEntregador &&
              BuscarPorNome(empresas, pedidos[idPedido].empresa).value in empresasPorEntregador[idEntregador]
    ensures r == Some(EntregadorEmEntrega) <==> idPedido in pedidos && pedidos[idPedido].estado == ENTREGANDO
    ensures r == Some(PedidoNaoPronto) <==>
              idPedido in pedidos && pedidos[idPedido].estado != ENTREGANDO && pedidos[idPedido].estado != PRONTO
    ensures r == Some(EntregadorNaoValido) <==>
              idPedido in pedidos && pedidos[idPedido].estado == PRONTO &&
              (idEntregador !in usuarios || !EhEntregador(usuarios[idEntregador]) ||
               BuscarPorNome(empresas, pedidos[idPedido].empresa).None? ||
               (idEntregador in empresasPorEntregador &&
                BuscarPorNome(empresas, pedidos[idPedido].empresa).value !in empresasPorEntregador[idEntregador]))
    ensures r == Some(ReferenciaNula) <==>
              idPedido in pedidos && pedidos[idPedido].estado == PRONTO &&
              idEntregador in usuarios && EhEntregador(usuarios[idEntregador]) &&
              BuscarPorNome(empresas, pedidos[idPedido].empresa).Some? && idEntregador !in empresasPorEntregador
    ensures r.Some? ==> r.value in {PedidoNaoEncontrado, EntregadorEmEntrega, PedidoNaoPronto, EntregadorNaoValido, ReferenciaNula}
  {
    if idPedido !in pedidos then Some(PedidoNaoEncontrado)
    else
      var v := pedidos[idPedido];
      if v.estado == ENTREGANDO then Some(EntregadorEmEntrega)
      else if v.estado != PRONTO then Some(PedidoNaoPronto)
      else if idEntregador !in usuarios || !EhEntregador(usuarios[idEntregador]) then Some(EntregadorNaoValido)
      else
        var e := BuscarPorNome(empresas, v.empresa);
        if e.None? then Some(EntregadorNaoValido)
        else if idEntregador !in empresasPorEntregador then Some(ReferenciaNula)
        else if e.value !in empresasPorEntregador[idEntregador] then Some(EntregadorNaoValido)
        else None
  }

  /** The effect of `entregar` on the orders: the carried order becomes "entregue". */
  function EfeitoEntregar(pedidos: map<int, PedidoV>, entregas: map<int, Entrega>, idEntrega: int)
    : (r: (Option<Erro>, map<int, PedidoV>))
    ensures idEntrega !in entregas ==> r == (Some(EntregadorEmEntrega), pedidos)
    ensures idEntrega in entregas && entregas[idEntrega].idPedido !in pedidos ==> r == (Some(PedidoNaoEncontrado), pedidos)
    ensures r.0.None? ==> var n := entregas[idEntrega].idPedido;
              n in pedidos && r.1.Keys == pedidos.Keys && r.1[n].estado == ENTREGUE &&
              r.1[n] == pedidos[n].(estado := ENTREGUE) &&
              forall k :: k in pedidos && k != n ==> r.1[k] == pedidos[k]
  {
    if idEntrega !in entregas then (Some(EntregadorEmEntrega), pedidos)
    else
      var n := entregas[idEntrega].idPedido;
      if n !in pedidos then (Some(PedidoNaoEncontrado), pedidos)
      else (None, pedidos[n := pedidos[n].(estado := ENTREGUE)])
  }

  /** Delivering twice is delivering once: the second call succeeds again and changes nothing more. */
  lemma EntregarIdempotente(pedidos: map<int, PedidoV>, entregas: map<int, Entrega>, idEntrega: int)
    ensures var primeiro := EfeitoEntregar(pedidos, entregas, idEntrega);
            EfeitoEntregar(primeiro.1, entregas, idEntrega) == primeiro
  {
    var primeiro := EfeitoEntregar(pedidos, entregas, idEntrega);
    if primeiro.0.None? {
      var n := entregas[idEntrega].idPedido;
      assert primeiro.1[n := primeiro.1[n].(estado := ENTREGUE)] == primeiro.1;
    }
  }

  /** The entries of `getEmpresasDoUsuario`, one per company of the owner, in list order. */
  function Descricoes(lista: seq<int>, empresas: map<int, Empresa>): (r: seq<string>)
    requires forall i :: 0 <= i < |lista| ==> lista[i] in empresas
    ensures |r| == |lista|
    ensures forall i :: 0 <= i < |lista| ==> r[i] == Descrever(empresas[lista[i]])
  {
    seq(|lista|, i requires 0 <= i < |lista| => Descrever(empresas[lista[i]]))
  }

  /** The names of the products listed, in list order. */
  function NomesDoCatalogo(lista: seq<int>, produtos: map<int, Produto>): (r: seq<string>)
    requires forall i :: 0 <= i < |lista| ==> lista[i] in produtos
    ensures |r| == |lista|
    ensures forall i :: 0 <= i < |lista| ==> r[i] == produtos[lista[i]].nome
  {
    seq(|lista|, i requires 0 <= i < |lista| => produtos[lista[i]].nome)
  }

  class Sistema {
    var usuarios: map<int, Usuario>
    var usuariosPorEmail: map<string, int>
    var empresas: map<int, Empresa>
    var empresasPorDono: map<int, seq<int>>
    var produtos: map<int, Produto>
    var produtosPorRestaurante: map<int, seq<int>>
    var pedidos: map<int, Pedido>
    var pedidosPorRestaurante: map<int, seq<int>>
    var empresasPorEntregador: map<int, seq<int>>
    var entregas: map<int, Entrega>
    // the static counters of Usuario, Empresa, Produto and Pedido
    var proximoUsuario: int
    var proximaEmpresa: int
    var contadorProdutos: int
    var contadorPedidos: int

    /** The orders as values, by number. */
    function Vistas(): (m: map<int, PedidoV>)
      reads this`pedidos, pedidos.Values
      ensures m.Keys == pedidos.Keys
      ensures forall n :: n in pedidos ==> m[n] == pedidos[n].Vista()
    {
      map n | n in pedidos :: pedidos[n].Vista()
    }

    ghost predicate UsuariosConsistentes()
      reads this`usuarios, this`usuariosPorEmail, this`proximoUsuario
    {
      UsuariosValidos(usuarios, usuariosPorEmail, proximoUsuario)
    }

    ghost predicate EmpresasConsistentes()
      reads this`empresas, this`empresasPorDono, this`proximaEmpresa
    {
      EmpresasValidas(empresas, empresasPorDono, proximaEmpresa)
    }

    ghost predicate ProdutosConsistentes()
      reads this`produtos, this`produtosPorRestaurante, this`contadorProdutos
    {
      ProdutosValidos(produtos, produtosPorRestaurante, contadorProdutos)
    }

    ghost predicate PedidosConsistentes()
      reads this`pedidos, this`pedidosPorRestaurante, this`contadorPedidos, pedidos.Values
    {
      (forall n :: n in pedidos ==> pedidos[n].numero == n) &&
      PedidosValidos(Vistas(), pedidosPorRestaurante, contadorPedidos)
    }

    /** Changing neither the order fields of the registry nor any order keeps the views and the order invariant. */
    twostate lemma PedidosIntactos()
      requires unchanged(this`pedidos) && unchanged(this`pedidosPorRestaurante) && unchanged(this`contadorPedidos)
      requires forall o :: o in pedidos.Values ==> unchanged(o)
      ensures Vistas() == old(Vistas())
      ensures old(PedidosConsistentes()) ==> PedidosConsistentes()
    {
    }

    /** Storing a new order object under a new number adds its view and changes no other. */
    twostate lemma PedidoAcrescentado(new p: Pedido)
      requires p.numero !in old(pedidos) && pedidos == old(pedidos)[p.numero := p]
      requires forall o :: o in old(pedidos.Values) ==> unchanged(o)
      ensures Vistas() == old(Vistas())[p.numero := p.Vista()]
    {
      forall k | k in old(pedidos) ensures Vistas()[k] == old(Vistas())[k] {
        assert old(pedidos)[k] in old(pedidos.Values);
      }
    }

    /**
     * Orders are distinct objects (each is stored under its own number), so
     * when only the object of order `n` changed, only `n`'s view changed.
     */
    twostate lemma SoUmPedidoMudou(n: int)
      requires unchanged(this) && n in pedidos
      requires forall k :: k in pedidos ==> pedidos[k].numero == k
      requires forall o :: o in pedidos.Values && o != pedidos[n] ==> unchanged(o)
      ensures Vistas() == old(Vistas())[n := pedidos[n].Vista()]
    {
      forall k | k in pedidos && k != n
        ensures Vistas()[k] == old(Vistas())[k]
      {
        assert pedidos[k] in pedidos.Values && pedidos[k].numero != pedidos[n].numero;
      }
    }

    /** The four id counters have at least their initial values. */
    ghost predicate ContadoresIniciados()
      reads this`proximoUsuario, this`proximaEmpresa, this`contadorProdutos, this`contadorPedidos
    {
      1 <= proximoUsuario && 1 <= proximaEmpresa && 0 <= contadorProdutos && 0 <= contadorPedidos
    }

    ghost predicate EntregasConsistentes()
      reads this`entregas
    {
      EntregasNumeradas(entregas)
    }

    /**
     * The registry invariant, one part per table. Each operation states the
     * part for the tables it changes; its `modifies` frame keeps the others.
     */
    ghost predicate Valid()
      reads this, pedidos.Values
    {
      UsuariosConsistentes() && EmpresasConsistentes() && ProdutosConsistentes() &&
      PedidosConsistentes() && EntregasConsistentes()
    }

    /** A registry with every table empty; the first user and company get id 1, the first product and order number 1. */
    constructor ()
      ensures Valid()
      ensures usuarios == map[] && usuariosPorEmail == map[] && empresas == map[] && empresasPorDono == map[]
      ensures produtos == map[] && produtosPorRestaurante == map[] && pedidos == map[] && pedidosPorRestaurante == map[]
      ensures empresasPorEntregador == map[] && entregas == map[]
      ensures proximoUsuario == 1 && proximaEmpresa == 1 && contadorProdutos == 0 && contadorPedidos == 0
    {
      usuarios := map[];
      usuariosPorEmail := map[];
      empresas := map[];
      empresasPorDono := map[];
      produtos := map[];
      produtosPorRestaurante := map[];
      pedidos := map[];
      pedidosPorRestaurante := map[];
      empresasPorEntregador := map[];
      entregas := map[];
      proximoUsuario := 1;
      proximaEmpresa := 1;
      contadorProdutos := 0;
      contadorPedidos := 0;
    }

    /**
     * `zerarSistema`: empties the user, company, product and order tables.
     * The courier affiliations, the deliveries and the id counters are kept.
     */
    method ZerarSistema()
      modifies this`usuarios, this`usuariosPorEmail, this`empresas, this`empresasPorDono,
               this`produtos, this`produtosPorRestaurante, this`pedidos, this`pedidosPorRestaurante
      requires ContadoresIniciados()
      ensures UsuariosConsistentes() && EmpresasConsistentes() && ProdutosConsistentes() && PedidosConsistentes()
      ensures usuarios == map[] && usuariosPorEmail == map[] && empresas == map[] && empresasPorDono == map[]
      ensures produtos == map[] && produtosPorRestaurante == map[] && pedidos == map[] && pedidosPorRestaurante == map[]
    {
      usuarios := map[];
      usuariosPorEmail := map[];
      empresas := map[];
      empresasPorDono := map[];
      produtos := map[];
      produtosPorRestaurante := map[];
      pedidos := map[];
      pedidosPorRestaurante := map[];
      TabelasVaziasValidas(proximoUsuario, proximaEmpresa, contadorProdutos, contadorPedidos);
      assert Vistas() == map[];
    }

    /** Stores a new user under the next id. */
    method Registrar(nome: string, email: string, senha: string, endereco: string, papel: Papel)
      requires UsuariosConsistentes() && email !in usuariosPorEmail
      modifies this`usuarios, this`usuariosPorEmail, this`proximoUsuario
      ensures UsuariosConsistentes()
      ensures proximoUsuario == old(proximoUsuario) + 1
      ensures usuarios == old(usuarios)[old(proximoUsuario) := Usuario(old(proximoUsuario), nome, email, senha, endereco, papel)]
      ensures usuariosPorEmail == old(usuariosPorEmail)[email := old(proximoUsuario)]
    {
      var u := Usuario(proximoUsuario, nome, email, senha, endereco, papel);
      RegistrarPreservaUsuarios(usuarios, usuariosPorEmail, proximoUsuario, u);
      usuarios := usuarios[u.id := u];
      usuariosPorEmail := usuariosPorEmail[email := u.id];
      proximoUsuario := proximoUsuario + 1;
    }

    /** `criarUsuario` for a client: the field checks, then an e-mail already in use. */
    method CriarCliente(nome: string, email: string, senha: string, endereco: string) returns (erro: Option<Erro>)
      requires UsuariosConsistentes()
      modifies this`usuarios, this`usuariosPorEmail, this`proximoUsuario
      ensures UsuariosConsistentes()
      ensures erro == if ValidarDados(nome, email, senha, endereco).Some? then ValidarDados(nome, email, senha, endereco)
                      else if email in old(usuariosPorEmail) then Some(EmailExistente)
                      else None
      ensures erro.Some? ==> usuarios == old(usuarios) && usuariosPorEmail == old(usuariosPorEmail) && proximoUsuario == old(proximoUsuario)
      ensures erro.None? ==> usuarios == old(usuarios)[old(proximoUsuario) := Usuario(old(proximoUsuario), nome, email, senha, endereco, Cliente)]
      ensures erro.None? ==> usuariosPorEmail == old(usuariosPorEmail)[email := old(proximoUsuario)] && proximoUsuario == old(proximoUsuario) + 1
    {
      erro := ValidarDados(nome, email, senha, endereco);
      if erro.Some? {
        return;
      }
      if email in usuariosPorEmail {
        return Some(EmailExistente);
      }
      Registrar(nome, email, senha, endereco, Cliente);
    }

    /** `criarUsuario` for a restaurant owner: the field checks, a CPF that is not 14 characters long, an e-mail already in use. */
    method CriarDono(nome: string, email: string, senha: string, endereco: string, cpf: string) returns (erro: Option<Erro>)
      requires UsuariosConsistentes()
      modifies this`usuarios, this`usuariosPorEmail, this`proximoUsuario
      ensures UsuariosConsistentes()
      ensures erro == if ValidarDados(nome, email, senha, endereco).Some? then ValidarDados(nome, email, senha, endereco)
                      else if !CpfValido(cpf) then Some(CpfInvalido)
                      else if email in old(usuariosPorEmail) then Some(EmailExistente)
                      else None
      ensures erro.Some? ==> usuarios == old(usuarios) && usuariosPorEmail == old(usuariosPorEmail) && proximoUsuario == old(proximoUsuario)
      ensures erro.None? ==> usuarios == old(usuarios)[old(proximoUsuario) := Usuario(old(proximoUsuario), nome, email, senha, endereco, DonoRestaurante(cpf))]
      ensures erro.None? ==> usuariosPorEmail == old(usuariosPorEmail)[email := old(proximoUsuario)] && proximoUsuario == old(proximoUsuario) + 1
    {
      erro := ValidarDados(nome, email, senha, endereco);
      if erro.Some? {
        return;
      }
      if !CpfValido(cpf) {
        return Some(CpfInvalido);
      }
      if email in usuariosPorEmail {
        return Some(EmailExistente);
      }
      Registrar(nome, email, senha, endereco, DonoRestaurante(cpf));
    }

    /**
     * `criarUsuario` for a courier: the field checks, a plate some courier
     * already has, a blank vehicle, a blank plate, an e-mail already in use.
     */
    method CriarEntregador(nome: string, email: string, senha: string, endereco: string, veiculo: string, placa: string)
      returns (erro: Option<Erro>)
      requires UsuariosConsistentes()
      modifies this`usuarios, this`usuariosPorEmail, this`proximoUsuario
      ensures UsuariosConsistentes()
      ensures erro == if ValidarDados(nome, email, senha, endereco).Some? then ValidarDados(nome, email, senha, endereco)
                      else if PlacaEmUso(old(usuarios), placa) then Some(PlacaInvalida)
                      else if EmBranco(veiculo) then Some(VeiculoInvalido)
                      else if EmBranco(placa) then Some(PlacaInvalida)
                      else if email in old(usuariosPorEmail) then Some(EmailExistente)
                      else None
      ensures erro.Some? ==> usuarios == old(usuarios) && usuariosPorEmail == old(usuariosPorEmail) && proximoUsuario == old(proximoUsuario)
      ensures erro.None? ==> usuarios == old(usuarios)[old(proximoUsuario) := Usuario(old(proximoUsuario), nome, email, senha, endereco, Entregador(veiculo, placa))]
      ensures erro.None? ==> usuariosPorEmail == old(usuariosPorEmail)[email := old(proximoUsuario)] && proximoUsuario == old(proximoUsuario) + 1
      ensures erro.None? ==> !PlacaEmUso(old(usuarios), placa)
    {
      erro := ValidarDados(nome, email, senha, endereco);
      if erro.Some? {
        return;
      }
      if PlacaEmUso(usuarios, placa) {
        return Some(PlacaInvalida);
      }
      if EmBranco(veiculo) {
        return Some(VeiculoInvalido);
      }
      if EmBranco(placa) {
        return Some(PlacaInvalida);
      }
      if email in usuariosPorEmail {
        return Some(EmailExistente);
      }
      Registrar(nome, email, senha, endereco, Entregador(veiculo, placa));
    }

    /**
     * `cadastrarEntregador`: the company must exist, the user must be a
     * courier not yet on the company's list; the courier is appended to the
     * company's list and the company to the courier's.
     */
    method CadastrarEntregador(idEmpresa: int, idEntregador: int) returns (erro: Option<Erro>)
      requires EmpresasConsistentes()
      modifies this`empresas, this`empresasPorEntregador
      ensures EmpresasConsistentes()
      ensures idEmpresa !in old(empresas) ==> erro == Some(EmpresaNaoEncontrada)
      ensures idEmpresa in old(empresas) && (idEntregador !in usuarios || !EhEntregador(usuarios[idEntregador])) ==>
                erro == Some(UsuarioNaoEntregador)
      ensures idEmpresa in old(empresas) && idEntregador in usuarios && EhEntregador(usuarios[idEntregador]) ==>
                var lista := GetEntregadores(old(empresas)[idEmpresa]).0;
                (erro.Some? <==> idEntregador in lista) &&
                (erro.Some? ==> erro == Some(UsuarioNaoEntregador)) &&
                (erro.None? ==> empresas == old(empresas)[idEmpresa := SetEntregadores(old(empresas)[idEmpresa], lista + [idEntregador])] &&
                                empresasPorEntregador == old(empresasPorEntregador)[idEntregador := Lista(old(empresasPorEntregador), idEntregador) + [idEmpresa]])
      ensures erro.Some? ==> empresas == old(empresas) && empresasPorEntregador == old(empresasPorEntregador)
    {
      if idEmpresa !in empresas {
        return Some(EmpresaNaoEncontrada);
      }
      if idEntregador !in usuarios || !EhEntregador(usuarios[idEntregador]) {
        return Some(UsuarioNaoEntregador);
      }
      var (lista, empresa) := GetEntregadores(empresas[idEmpresa]);
      if idEntregador in lista {
        return Some(UsuarioNaoEntregador);
      }
      empresas := empresas[idEmpresa := SetEntregadores(empresa, lista + [idEntregador])];
      empresasPorEntregador := empresasPorEntregador[idEntregador := Lista(empresasPorEntregador, idEntregador) + [idEmpresa]];
      erro := None;
    }

    /** Stores a new company under the next id and appends it to the owner's list. */
    method RegistrarEmpresa(idDono: int, tipoEmpresa: string, nome: string, endereco: string, variante: Variante)
      returns (id: int)
      requires EmpresasConsistentes()
      requires variante.Farmacia? ==> tipoEmpresa == "farmacia"
      modifies this`empresas, this`empresasPorDono, this`proximaEmpresa
      ensures EmpresasConsistentes()
      ensures id == old(proximaEmpresa) && proximaEmpresa == id + 1
      ensures empresas == old(empresas)[id := Nova(id, tipoEmpresa, nome, endereco, variante)]
      ensures empresasPorDono == old(empresasPorDono)[idDono := Lista(old(empresasPorDono), idDono) + [id]]
    {
      id := proximaEmpresa;
      var empresa := Nova(id, tipoEmpresa, nome, endereco, variante);
      NovaEmpresaPreservaEmpresas(empresas, empresasPorDono, proximaEmpresa, idDono, empresa);
      empresas := empresas[id := empresa];
      empresasPorDono := empresasPorDono[idDono := Lista(empresasPorDono, idDono) + [id]];
      proximaEmpresa := proximaEmpresa + 1;
    }

    /**
     * `criarEmpresa` for a restaurant: the user must be an owner; the owner
     * must not already have a company with this name and address, and no
     * company at all may have them. The type is not checked.
     */
    method CriarRestaurante(tipoEmpresa: string, idDono: int, nome: string, endereco: string, tipoCozinha: string)
      returns (r: Result<int>)
      requires EmpresasConsistentes()
      modifies this`empresas, this`empresasPorDono, this`proximaEmpresa
      ensures EmpresasConsistentes()
      ensures r == if idDono !in usuarios || !PodeCriarEmpresa(usuarios[idDono]) then Err(UsuarioNaoAutorizado)
                   else if DuplicadaDoDono(Lista(old(empresasPorDono), idDono), old(empresas), nome, endereco) then Err(EnderecoDuplicado)
                   else if exists id :: id in old(empresas) && old(empresas)[id].nome == nome && old(empresas)[id].endereco == endereco
                     then Err(NomeEmpresaExistente)
                   else Ok(old(proximaEmpresa))
      ensures r.Err? ==> empresas == old(empresas) && empresasPorDono == old(empresasPorDono) && proximaEmpresa == old(proximaEmpresa)
      ensures r.Ok? ==> (proximaEmpresa == old(proximaEmpresa) + 1 &&
                empresas == old(empresas)[r.value := Nova(r.value, tipoEmpresa, nome, endereco, Restaurante(tipoCozinha))] &&
                empresasPorDono == old(empresasPorDono)[idDono := Lista(old(empresasPorDono), idDono) + [r.value]])
    {
      if idDono !in usuarios || !PodeCriarEmpresa(usuarios[idDono]) {
        return Err(UsuarioNaoAutorizado);
      }
      if DuplicadaDoDono(Lista(empresasPorDono, idDono), empresas, nome, endereco) {
        return Err(EnderecoDuplicado);
      }
      if exists id :: id in empresas && empresas[id].nome == nome && empresas[id].endereco == endereco {
        return Err(NomeEmpresaExistente);
      }
      var id := RegistrarEmpresa(idDono, tipoEmpresa, nome, endereco, Restaurante(tipoCozinha));
      r := Ok(id);
    }

    /**
     * `criarEmpresa` for a market: the user must be an owner, the fields
     * must pass `ValidarMercado`; the owner must not already have a company
     * with this name and address, and no other owner a company with this name.
     */
    method CriarMercado(tipoEmpresa: string, idDono: int, nome: string, endereco: string,
                        abre: Option<string>, fecha: Option<string>, tipoMercado: string)
      returns (r: Result<int>)
      requires EmpresasConsistentes()
      modifies this`empresas, this`empresasPorDono, this`proximaEmpresa
      ensures EmpresasConsistentes()
      ensures r == if idDono !in usuarios || !PodeCriarEmpresa(usuarios[idDono]) then Err(UsuarioNaoAutorizado)
                   else if ValidarMercado(tipoEmpresa, nome, endereco, abre, fecha, tipoMercado).Some?
                     then Err(ValidarMercado(tipoEmpresa, nome, endereco, abre, fecha, tipoMercado).value)
                   else if DuplicadaDoDono(Lista(old(empresasPorDono), idDono), old(empresas), nome, endereco) then Err(EnderecoDuplicado)
                   else if NomeDeOutroDono(old(empresasPorDono), old(empresas), idDono, nome) then Err(NomeEmpresaExistente)
                   else Ok(old(proximaEmpresa))
      ensures r.Err? ==> empresas == old(empresas) && empresasPorDono == old(empresasPorDono) && proximaEmpresa == old(proximaEmpresa)
      ensures r.Ok? ==> (abre.Some? && fecha.Some? && HorarioAceito(abre.value, fecha.value) &&
                proximaEmpresa == old(proximaEmpresa) + 1 &&
                empresas == old(empresas)[r.value := Nova(r.value, tipoEmpresa, nome, endereco, Mercado(abre.value, fecha.value, tipoMercado))] &&
                empresasPorDono == old(empresasPorDono)[idDono := Lista(old(empresasPorDono), idDono) + [r.value]])
    {
      if idDono !in usuarios || !PodeCriarEmpresa(usuarios[idDono]) {
        return Err(UsuarioNaoAutorizado);
      }
      var invalido := ValidarMercado(tipoEmpresa, nome, endereco, abre, fecha, tipoMercado);
      if invalido.Some? {
        return Err(invalido.value);
      }
      if DuplicadaDoDono(Lista(empresasPorDono, idDono), empresas, nome, endereco) {
        return Err(EnderecoDuplicado);
      }
      if NomeDeOutroDono(empresasPorDono, empresas, idDono, nome) {
        return Err(NomeEmpresaExistente);
      }
      var id := RegistrarEmpresa(idDono, tipoEmpresa, nome, endereco, Mercado(abre.value, fecha.value, tipoMercado));
      r := Ok(id);
    }

    /**
     * `criarEmpresa` for a pharmacy: the user must be an owner, the fields
     * must pass `ValidarFarmacia`; then the same duplicate checks as for a market.
     */
    method CriarFarmacia(tipoEmpresa: string, idDono: int, nome: string, endereco: string,
                         aberto24Horas: bool, numeroFuncionarios: int)
      returns (r: Result<int>)
      requires EmpresasConsistentes()
      modifies this`empresas, this`empresasPorDono, this`proximaEmpresa
      ensures EmpresasConsistentes()
      ensures r == if idDono !in usuarios || !PodeCriarEmpresa(usuarios[idDono]) then Err(UsuarioNaoAutorizado)
                   else if ValidarFarmacia(tipoEmpresa, nome, endereco).Some? then Err(ValidarFarmacia(tipoEmpresa, nome, endereco).value)
                   else if DuplicadaDoDono(Lista(old(empresasPorDono), idDono), old(empresas), nome, endereco) then Err(EnderecoDuplicado)
                   else if NomeDeOutroDono(old(empresasPorDono), old(empresas), idDono, nome) then Err(NomeEmpresaExistente)
                   else Ok(old(proximaEmpresa))
      ensures r.Err? ==> empresas == old(empresas) && empresasPorDono == old(empresasPorDono) && proximaEmpresa == old(proximaEmpresa)
      ensures r.Ok? ==> (proximaEmpresa == old(proximaEmpresa) + 1 &&
                empresas == old(empresas)[r.value := Nova(r.value, tipoEmpresa, nome, endereco, Farmacia(aberto24Horas, numeroFuncionarios))] &&
                empresasPorDono == old(empresasPorDono)[idDono := Lista(old(empresasPorDono), idDono) + [r.value]])
    {
      if idDono !in usuarios || !PodeCriarEmpresa(usuarios[idDono]) {
        return Err(UsuarioNaoAutorizado);
      }
      var invalido := ValidarFarmacia(tipoEmpresa, nome, endereco);
      if invalido.Some? {
        return Err(invalido.value);
      }
      if DuplicadaDoDono(Lista(empresasPorDono, idDono), empresas, nome, endereco) {
        return Err(EnderecoDuplicado);
      }
      if NomeDeOutroDono(empresasPorDono, empresas, idDono, nome) {
        return Err(NomeEmpresaExistente);
      }
      var id := RegistrarEmpresa(idDono, tipoEmpresa, nome, endereco, Farmacia(aberto24Horas, numeroFuncionarios));
      r := Ok(id);
    }

    /**
     * `alterarFuncionamento`: the company must exist, the hours must pass
     * `ValidarFuncionamento`, and only then must the company be a market;
     * its opening and closing hours are replaced.
     */
    method AlterarFuncionamento(mercadoId: int, abre: Option<string>, fecha: Option<string>) returns (erro: Option<Erro>)
      requires EmpresasConsistentes()
      modifies this`empresas
      ensures EmpresasConsistentes()
      ensures erro == ValidarAlteracao(old(empresas), mercadoId, abre, fecha)
      ensures erro.Some? ==> empresas == old(empresas)
      ensures erro.None? ==>
                empresas == old(empresas)[mercadoId := NovoHorario(old(empresas)[mercadoId], abre.value, fecha.value)]
    {
      erro := ValidarAlteracao(empresas, mercadoId, abre, fecha);
      if erro.None? {
        var atualizado := NovoHorario(empresas[mercadoId], abre.value, fecha.value);
        AtualizarEmpresaPreservaEmpresas(empresas, empresasPorDono, proximaEmpresa, atualizado);
        empresas := empresas[mercadoId := atualizado];
      }
    }

    /** `getEmpresasDoUsuario`: the owner's companies as "{[[nome, endereco], ...]}", in list order. */
    method GetEmpresasDoUsuario(idDono: int) returns (r: Result<string>)
      requires EmpresasConsistentes()
      ensures idDono !in usuarios || !PodeCriarEmpresa(usuarios[idDono]) ==> r == Err(UsuarioNaoAutorizado)
      ensures idDono in usuarios && PodeCriarEmpresa(usuarios[idDono]) ==>
                var lista := Lista(empresasPorDono, idDono);
                (forall i :: 0 <= i < |lista| ==> lista[i] in empresas) &&
                r == Ok("{[" + Juntar(Descricoes(lista, empresas)) + "]}")
      ensures idDono in usuarios && PodeCriarEmpresa(usuarios[idDono]) && Lista(empresasPorDono, idDono) == [] ==> r == Ok("{[]}")
    {
      if idDono !in usuarios || !PodeCriarEmpresa(usuarios[idDono]) {
        return Err(UsuarioNaoAutorizado);
      }
      var lista := Lista(empresasPorDono, idDono);
      var texto := Serializar(Descricoes(lista, empresas));
      r := Ok(texto);
    }

    /**
     * `criarProduto`: the field checks of `ValidarProduto`, then a product
     * with the same name in the company's catalogue. The company itself is
     * not looked up. The new product gets the counter plus one.
     */
    method CriarProduto(empresa: int, nome: string, valor: int, categoria: string) returns (r: Result<int>)
      requires ProdutosConsistentes()
      modifies this`produtos, this`produtosPorRestaurante, this`contadorProdutos
      ensures ProdutosConsistentes()
      ensures r == if ValidarProduto(nome, valor, categoria).Some? then Err(ValidarProduto(nome, valor, categoria).value)
                   else if NomeNoCatalogo(Lista(old(produtosPorRestaurante), empresa), old(produtos), nome) then Err(NomeProdutoExiste)
                   else Ok(old(contadorProdutos) + 1)
      ensures r.Err? ==> produtos == old(produtos) && produtosPorRestaurante == old(produtosPorRestaurante) && contadorProdutos == old(contadorProdutos)
      ensures r.Ok? ==> (contadorProdutos == r.value &&
                produtos == old(produtos)[r.value := Produto(r.value, nome, valor, categoria)] &&
                produtosPorRestaurante == old(produtosPorRestaurante)[empresa := Lista(old(produtosPorRestaurante), empresa) + [r.value]])
    {
      var invalido := ValidarProduto(nome, valor, categoria);
      if invalido.Some? {
        return Err(invalido.value);
      }
      if NomeNoCatalogo(Lista(produtosPorRestaurante, empresa), produtos, nome) {
        return Err(NomeProdutoExiste);
      }
      var id := contadorProdutos + 1;
      var p := Produto(id, nome, valor, categoria);
      NovoProdutoPreservaProdutos(produtos, produtosPorRestaurante, contadorProdutos, empresa, p);
      contadorProdutos := id;
      produtos := produtos[id := p];
      produtosPorRestaurante := produtosPorRestaurante[empresa := Lista(produtosPorRestaurante, empresa) + [id]];
      r := Ok(id);
    }

    /**
     * `editarProduto`: the field checks come first, then the product must
     * exist; its name, price and category are replaced. Baskets keep the
     * product as it was when it was added.
     */
    method EditarProduto(produto: int, nome: string, valor: int, categoria: string) returns (erro: Option<Erro>)
      requires ProdutosConsistentes()
      modifies this`produtos
      ensures ProdutosConsistentes()
      ensures erro == if ValidarProduto(nome, valor, categoria).Some? then ValidarProduto(nome, valor, categoria)
                      else if produto !in old(produtos) then Some(ProdutoNaoCadastrado)
                      else None
      ensures erro.Some? ==> produtos == old(produtos)
      ensures erro.None? ==> produtos == old(produtos)[produto := Produto(produto, nome, valor, categoria)]
    {
      erro := ValidarProduto(nome, valor, categoria);
      if erro.Some? {
        return;
      }
      if produto !in produtos {
        return Some(ProdutoNaoCadastrado);
      }
      var p := produtos[produto];
      produtos := produtos[produto := SetCategoria(SetValor(SetNome(p, nome), valor), categoria)];
    }

    /** `listarProdutos`: the company's product names as "{[a, b]}", in catalogue order. */
    method ListarProdutos(empresa: int) returns (r: Result<string>)
      requires ProdutosConsistentes()
      ensures empresa !in empresas ==> r == Err(EmpresaNaoEncontrada)
      ensures empresa in empresas ==>
                var lista := Lista(produtosPorRestaurante, empresa);
                (forall i :: 0 <= i < |lista| ==> lista[i] in produtos) &&
                r == Ok("{[" + Juntar(NomesDoCatalogo(lista, produtos)) + "]}")
      ensures empresa in empresas && Lista(produtosPorRestaurante, empresa) == [] ==> r == Ok("{[]}")
    {
      if empresa !in empresas {
        return Err(EmpresaNaoEncontrada);
      }
      var lista := Lista(produtosPorRestaurante, empresa);
      var texto := Serializar(NomesDoCatalogo(lista, produtos));
      r := Ok(texto);
    }

    /**
     * `criarPedido`: the client and the company must exist and the client
     * must not own the company; the client's name must not already have an
     * "aberto" order in the company's list. The new order takes the order
     * counter plus one, starts "aberto" and empty, and is listed under the
     * company.
     */
    method CriarPedido(clienteId: int, empresaId: int) returns (r: Result<int>)
      requires PedidosConsistentes()
      modifies this`pedidos, this`pedidosPorRestaurante, this`contadorPedidos
      ensures PedidosConsistentes()
      ensures var erro := old(ValidarPedido(usuarios, empresas, empresasPorDono, pedidosPorRestaurante, Vistas(),
                                            clienteId, empresaId));
              r == if erro.Some? then Err(erro.value) else Ok(old(contadorPedidos) + 1)
      ensures r.Err? ==> pedidos == old(pedidos) && pedidosPorRestaurante == old(pedidosPorRestaurante) && contadorPedidos == old(contadorPedidos)
      ensures r.Ok? ==> (contadorPedidos == r.value && r.value in pedidos && fresh(pedidos[r.value]) &&
                Vistas() == old(Vistas())[r.value := PedidoV(r.value, usuarios[clienteId].nome, empresas[empresaId].nome, ABERTO, [], 0)] &&
                pedidosPorRestaurante == old(pedidosPorRestaurante)[empresaId := Lista(old(pedidosPorRestaurante), empresaId) + [r.value]])
    {
      var erro := ValidarPedido(usuarios, empresas, empresasPorDono, pedidosPorRestaurante, Vistas(), clienteId, empresaId);
      if erro.Some? {
        return Err(erro.value);
      }
      var cliente := usuarios[clienteId].nome;
      var empresa := empresas[empresaId].nome;
      ghost var v := PedidoV(contadorPedidos + 1, cliente, empresa, ABERTO, [], 0);
      NovoPedidoPreservaPedidos(Vistas(), pedidosPorRestaurante, contadorPedidos, empresaId, v);
      var pedido := new Pedido(contadorPedidos, cliente, empresa);
      contadorPedidos := contadorPedidos + 1;
      pedidos := pedidos[pedido.numero := pedido];
      pedidosPorRestaurante := pedidosPorRestaurante[empresaId := Lista(pedidosPorRestaurante, empresaId) + [pedido.numero]];
      PedidoAcrescentado(pedido);
      r := Ok(pedido.numero);
    }

    /**
     * `adicionarProduto`: the order must exist and not be "preparando" (any
     * other state accepts products), the product must exist, the company the
     * order names must resolve, and the product must be in its catalogue.
     * The product is appended to the basket and its price added to the total.
     */
    method AdicionarProduto(numeroPedido: int, idProduto: int) returns (erro: Option<Erro>)
      requires PedidosConsistentes()
      modifies pedidos.Values
      ensures PedidosConsistentes()
      ensures numeroPedido !in pedidos ==> erro == Some(NaoExistePedidoAberto)
      ensures numeroPedido in pedidos ==>
                erro == old(ValidarAdicao(Vistas()[numeroPedido], produtos, produtosPorRestaurante, empresas, idProduto))
      ensures erro.Some? ==> Vistas() == old(Vistas())
      ensures erro.None? ==>
                Vistas() == old(Vistas())[numeroPedido := ComProduto(old(Vistas())[numeroPedido], produtos[idProduto])]
    {
      if numeroPedido !in pedidos {
        return Some(NaoExistePedidoAberto);
      }
      var pedido := pedidos[numeroPedido];
      assert pedido.Vista() == Vistas()[numeroPedido];
      erro := ValidarAdicao(pedido.Vista(), produtos, produtosPorRestaurante, empresas, idProduto);
      if erro.None? {
        ghost var vistas := Vistas();
        pedido.AdicionarProduto(produtos[idProduto]);
        AtualizarPreservaPedidos(vistas, pedidosPorRestaurante, contadorPedidos, numeroPedido, pedido.Vista());
        SoUmPedidoMudou(numeroPedido);
      }
    }

    /**
     * `getPedidos`: the order must exist and the attribute must not be
     * blank; matched in any letter case, "cliente", "empresa" and "estado"
     * give the stored text, "valor" the total with two decimals, and
     * "produtos" the basket's names as "{[a, b]}" in insertion order.
     */
    method GetPedidos(numeroPedido: int, atributo: string) returns (r: Result<string>)
      ensures numeroPedido !in pedidos ==> r == Err(NaoExistePedidoAberto)
      ensures numeroPedido in pedidos && EmBranco(atributo) ==> r == Err(AtributoInvalido)
      ensures numeroPedido in pedidos && !EmBranco(atributo) ==>
                var v := pedidos[numeroPedido].Vista();
                var chave := Minusculas(atributo);
                r == (if chave == "cliente" then Ok(v.cliente)
                      else if chave == "empresa" then Ok(v.empresa)
                      else if chave == "estado" then Ok(v.estado)
                      else if chave == "valor" then Ok(CentavosParaTexto(v.valor))
                      else if chave == "produtos" then Ok("{[" + Juntar(Nomes(v.produtos)) + "]}")
                      else Err(AtributoNaoExiste))
      ensures numeroPedido in pedidos && !EmBranco(atributo) && Minusculas(atributo) == "produtos" && pedidos[numeroPedido].produtos == []
              ==> r == Ok("{[]}")
    {
      if numeroPedido !in pedidos {
        return Err(NaoExistePedidoAberto);
      }
      if EmBranco(atributo) {
        return Err(AtributoInvalido);
      }
      var pedido := pedidos[numeroPedido];
      var chave := Minusculas(atributo);
      if chave == "cliente" {
        r := Ok(pedido.cliente);
      } else if chave == "empresa" {
        r := Ok(pedido.empresa);
      } else if chave == "estado" {
        r := Ok(pedido.estado);
      } else if chave == "valor" {
        r := Ok(CentavosParaTexto(pedido.valor));
      } else if chave == "produtos" {
        var texto := Serializar(Nomes(pedido.produtos));
        r := Ok(texto);
      } else {
        r := Err(AtributoNaoExiste);
      }
    }

    /** `fecharPedido`: any existing order becomes "preparando", whatever its state was. */
    method FecharPedido(numeroPedido: int) returns (erro: Option<Erro>)
      requires PedidosConsistentes()
      modifies pedidos.Values
      ensures PedidosConsistentes()
      ensures erro.Some? <==> numeroPedido !in pedidos
      ensures erro.Some? ==> erro == Some(PedidoNaoEncontrado) && Vistas() == old(Vistas())
      ensures erro.None? ==> Vistas() == old(Vistas())[numeroPedido := old(Vistas())[numeroPedido].(estado := PREPARANDO)]
    {
      if numeroPedido !in pedidos {
        return Some(PedidoNaoEncontrado);
      }
      var pedido := pedidos[numeroPedido];
      ghost var vistas := Vistas();
      pedido.FinalizarPedido();
      AtualizarPreservaPedidos(vistas, pedidosPorRestaurante, contadorPedidos, numeroPedido, pedido.Vista());
      SoUmPedidoMudou(numeroPedido);
      erro := None;
    }

    /**
     * `removerProduto`: a blank name is refused first, then the order must
     * exist and not be "preparando"; the first product with that name leaves
     * the basket and its price leaves the total, or the product is not found.
     */
    method RemoverProduto(numeroPedido: int, nomeProduto: string) returns (erro: Option<Erro>)
      requires PedidosConsistentes()
      modifies pedidos.Values
      ensures PedidosConsistentes()
      ensures EmBranco(nomeProduto) ==> erro == Some(ProdutoInvalido)
      ensures !EmBranco(nomeProduto) && numeroPedido !in pedidos ==> erro == Some(PedidoNaoEncontrado)
      ensures !EmBranco(nomeProduto) && numeroPedido in pedidos ==>
                var v := old(Vistas())[numeroPedido];
                erro == (if v.estado == PREPARANDO then Some(RemoverProdutoPedidoFechado)
                         else if IndiceDoNome(v.produtos, nomeProduto).None? then Some(ProdutoNaoEncontrado)
                         else None)
      ensures erro.Some? ==> Vistas() == old(Vistas())
      ensures erro.None? ==>
                Vistas() == old(Vistas())[numeroPedido := SemProduto(old(Vistas())[numeroPedido], nomeProduto)]
    {
      if EmBranco(nomeProduto) {
        return Some(ProdutoInvalido);
      }
      if numeroPedido !in pedidos {
        return Some(PedidoNaoEncontrado);
      }
      var pedido := pedidos[numeroPedido];
      if pedido.estado == PREPARANDO {
        return Some(RemoverProdutoPedidoFechado);
      }
      ghost var vistas := Vistas();
      var removido := pedido.RemoverProdutoPorNome(nomeProduto);
      if !removido {
        SoUmPedidoMudou(numeroPedido);
        return Some(ProdutoNaoEncontrado);
      }
      AtualizarPreservaPedidos(vistas, pedidosPorRestaurante, contadorPedidos, numeroPedido, pedido.Vista());
      SoUmPedidoMudou(numeroPedido);
      erro := None;
    }

    /**
     * `getNumeroPedido`: the number of the `indice`-th order listed under the
     * company. The client must exist but is not used to filter.
     */
    method GetNumeroPedido(clienteId: int, empresaId: int, indice: int) returns (r: Result<int>)
      requires PedidosConsistentes()
      ensures clienteId !in usuarios || empresaId !in pedidosPorRestaurante ==> r == Err(ArgumentoIlegal)
      ensures clienteId in usuarios && empresaId in pedidosPorRestaurante ==>
                r == if 0 <= indice < |pedidosPorRestaurante[empresaId]| then Ok(pedidosPorRestaurante[empresaId][indice])
                     else Err(IndiceForaDosLimites)
      ensures r.Ok? ==> r.value in pedidos && pedidos[r.value].numero == r.value
    {
      if clienteId !in usuarios || empresaId !in pedidosPorRestaurante {
        return Err(ArgumentoIlegal);
      }
      var lista := pedidosPorRestaurante[empresaId];
      if indice < 0 || indice >= |lista| {
        return Err(IndiceForaDosLimites);
      }
      r := Ok(lista[indice]);
    }

    /**
     * `setEstado` on the order numbered `n`, to any state past "aberto": that
     * order's state is replaced and every other order, and every table, stays
     * as it was.
     */
    method MudarEstado(n: int, novo: string)
      requires PedidosConsistentes() && n in pedidos && novo != ABERTO
      modifies pedidos[n]
      ensures PedidosConsistentes()
      ensures Vistas() == old(Vistas())[n := old(Vistas())[n].(estado := novo)]
    {
      var pedido := pedidos[n];
      ghost var vistas := Vistas();
      pedido.SetEstado(novo);
      AtualizarPreservaPedidos(vistas, pedidosPorRestaurante, contadorPedidos, n, pedido.Vista());
      SoUmPedidoMudou(n);
    }

    /**
     * `liberarPedido`: an order already "pronto" is refused as released, any
     * other state but "preparando" as not releasable; a "preparando" order
     * becomes "pronto" and nothing else changes.
     */
    method LiberarPedido(numero: int) returns (erro: Option<Erro>)
      requires PedidosConsistentes()
      modifies pedidos.Values
      ensures PedidosConsistentes()
      ensures numero !in pedidos ==> erro == Some(PedidoNaoEncontrado)
      ensures numero in pedidos ==>
                var estado := old(Vistas())[numero].estado;
                erro == (if estado == PRONTO then Some(PedidoJaLiberado)
                         else if estado != PREPARANDO then Some(NaoEhPossivelLiberar)
                         else None)
      ensures erro.Some? ==> Vistas() == old(Vistas())
      ensures erro.None? ==> Vistas() == old(Vistas())[numero := old(Vistas())[numero].(estado := PRONTO)]
    {
      if numero !in pedidos {
        return Some(PedidoNaoEncontrado);
      }
      var pedido := pedidos[numero];
      if pedido.estado == PRONTO {
        return Some(PedidoJaLiberado);
      }
      if pedido.estado != PREPARANDO {
        return Some(NaoEhPossivelLiberar);
      }
      MudarEstado(numero, PRONTO);
      erro := None;
    }

    /**
     * `criarEntrega`: checks, in order, that the order exists, is not already
     * "entregando", is "pronto", that the user is a courier, that the order's
     * company resolves and is on the courier's list (a courier with no list
     * at all fails on a null reference). The order becomes "entregando" and
     * a delivery with the next id is stored.
     */
    method CriarEntrega(idPedido: int, idEntregador: int, destino: Option<string>) returns (r: Result<int>)
      requires PedidosConsistentes() && EntregasConsistentes()
      modifies this`entregas, pedidos.Values
      ensures PedidosConsistentes() && EntregasConsistentes()
      ensures var erro := old(ValidarEntrega(Vistas(), idPedido, usuarios, empresas, empresasPorEntregador, idEntregador));
              r == if erro.Some? then Err(erro.value) else Ok(|old(entregas)| + 1)
      ensures r.Err? ==> Vistas() == old(Vistas()) && entregas == old(entregas)
      ensures r.Ok? ==> (entregas == old(entregas)[r.value := Entrega(r.value, idPedido, idEntregador, destino)] &&
                r.value !in old(entregas) &&
                Vistas() == old(Vistas())[idPedido := old(Vistas())[idPedido].(estado := ENTREGANDO)])
    {
      var erro := ValidarEntrega(Vistas(), idPedido, usuarios, empresas, empresasPorEntregador, idEntregador);
      if erro.Some? {
        return Err(erro.value);
      }
      MudarEstado(idPedido, ENTREGANDO);
      label estadoMudado:
      var idEntrega := |entregas| + 1;
      GuardarEntrega(Entrega(idEntrega, idPedido, idEntregador, destino));
      PedidosIntactos@estadoMudado();
      r := Ok(idEntrega);
    }

    /** `entregas.put(entregas.size() + 1, …)`: the delivery is stored under the next number. */
    method GuardarEntrega(e: Entrega)
      requires EntregasConsistentes() && e.id == |entregas| + 1
      modifies this`entregas
      ensures EntregasConsistentes()
      ensures e.id !in old(entregas) && entregas == old(entregas)[e.id := e]
    {
      NovaEntregaNumerada(entregas, e);
      entregas := entregas[e.id := e];
    }

    /** `getEntrega`: the delivery must exist and the attribute must not be blank; then `Entrega.getAtributo`. */
    function GetEntrega(id: int, atributo: string): (r: Result<Option<string>>)
      reads this, pedidos.Values
      ensures id !in entregas ==> r == Err(EntregadorEmEntrega)
      ensures id in entregas && EmBranco(atributo) ==> r == Err(AtributoInvalido)
      ensures id in entregas && !EmBranco(atributo) ==> r == Entregas.GetAtributo(entregas[id], atributo, Vistas(), usuarios)
    {
      if id !in entregas then Err(EntregadorEmEntrega)
      else if EmBranco(atributo) then Err(AtributoInvalido)
      else Entregas.GetAtributo(entregas[id], atributo, Vistas(), usuarios)
    }

    /**
     * `getIdEntrega`: the id of a delivery carrying the order. The Java scan
     * returns the first one the hash map yields; the model takes the lowest.
     * Deliveries are stored under their own ids, so the id is also the key.
     */
    function GetIdEntrega(pedido: int): (r: Result<int>)
      requires EntregasConsistentes()
      reads this
      ensures r.Err? <==> forall k :: k in entregas ==> entregas[k].idPedido != pedido
      ensures r.Err? ==> r.erro == PedidoNaoEncontrado
      ensures r.Ok? ==> r.value in entregas && entregas[r.value].idPedido == pedido
      ensures r.Ok? ==> forall k :: k in entregas && entregas[k].idPedido == pedido ==> r.value <= k
    {
      var comPedido := set k | k in entregas && entregas[k].idPedido == pedido;
      assert forall k :: k in comPedido <==> k in entregas && entregas[k].idPedido == pedido;
      match MenorOpcional(comPedido)
      case None => Err(PedidoNaoEncontrado)
      case Some(k) => Ok(entregas[k].id)
    }

    /** `entregar`: the delivery must exist and its order too; the order becomes "entregue" (see `EfeitoEntregar`). */
    method Entregar(idEntrega: int) returns (erro: Option<Erro>)
      requires PedidosConsistentes()
      modifies pedidos.Values
      ensures PedidosConsistentes()
      ensures (erro, Vistas()) == EfeitoEntregar(old(Vistas()), entregas, idEntrega)
    {
      if idEntrega !in entregas {
        return Some(EntregadorEmEntrega);
      }
      var n := entregas[idEntrega].idPedido;
      if n !in pedidos {
        return Some(PedidoNaoEncontrado);
      }
      MudarEstado(n, ENTREGUE);
      erro := None;
    }
  }
}
