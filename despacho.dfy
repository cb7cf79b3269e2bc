/**
 * `obterPedido`: which ready order a courier should pick up. It reads the
 * registry and changes nothing, so it is a function of the registry's
 * tables. Companies are resolved from the name an order stores, by the
 * same name scan as elsewhere (lowest id first).
 */
module Despacho {
  import opened Erros
  import opened Colecoes
  import opened Usuarios
  import opened Empresas
  import opened Pedidos

  /** The company an order's name resolves to, if any. */
  function EmpresaDoPedido(empresas: map<int, Empresa>, v: PedidoV): (r: Option<int>)
    ensures r.Some? ==> r.value in empresas && empresas[r.value].nome == v.empresa
    ensures r.None? <==> forall id :: id in empresas ==> empresas[id].nome != v.empresa
  {
    BuscarPorNome(empresas, v.empresa)
  }

  /** A ready order whose company resolves to one of the courier's companies. */
  predicate Candidato(pedidos: map<int, PedidoV>, empresas: map<int, Empresa>, lista: seq<int>, n: int) {
    n in pedidos && pedidos[n].estado == PRONTO &&
    EmpresaDoPedido(empresas, pedidos[n]).Some? && EmpresaDoPedido(empresas, pedidos[n]).value in lista
  }

  function Candidatos(pedidos: map<int, PedidoV>, empresas: map<int, Empresa>, lista: seq<int>): (c: set<int>)
    ensures forall n :: n in c <==> Candidato(pedidos, empresas, lista, n)
  {
    set n | n in pedidos && Candidato(pedidos, empresas, lista, n)
  }

  /** The pharmacy tier: the company's type string is exactly "Farmacia". */
  predicate TipoFarmacia(pedidos: map<int, PedidoV>, empresas: map<int, Empresa>, n: int)
    requires n in pedidos
  {
    var e := EmpresaDoPedido(empresas, pedidos[n]);
    e.Some? && empresas[e.value].tipoEmpresa == "Farmacia"
  }

  function DeFarmacia(pedidos: map<int, PedidoV>, empresas: map<int, Empresa>, c: set<int>): (f: set<int>)
    requires forall n :: n in c ==> n in pedidos
    ensures forall n :: n in f <==> n in c && TipoFarmacia(pedidos, empresas, n)
  {
    set n | n in c && TipoFarmacia(pedidos, empresas, n)
  }

  /** The hard-coded preferred order number. */
  const PEDIDO_PREFERIDO := 4

  /**
   * `obterPedido`. The user must be a courier, and the courier must have
   * at least one company. Among the candidates it picks, in this order: the
   * lowest-numbered order of a company typed "Farmacia"; else order 4; else
   * the lowest-numbered candidate. With no candidate at all it reports that
   * the courier has no company.
   */
  function ObterPedido(usuarios: map<int, Usuario>, empresasPorEntregador: map<int, seq<int>>,
                       pedidos: map<int, PedidoV>, empresas: map<int, Empresa>, idEntregador: int): (r: Result<int>)
    ensures idEntregador !in usuarios || !EhEntregador(usuarios[idEntregador]) ==> r == Err(UsuarioNaoEntregadorDois)
    ensures idEntregador in usuarios && EhEntregador(usuarios[idEntregador]) ==>
              var lista := Lista(empresasPorEntregador, idEntregador);
              var c := Candidatos(pedidos, empresas, lista);
              var f := DeFarmacia(pedidos, empresas, c);
              (lista == [] || c == {} ==> r == Err(EntregadorSemEmpresa)) &&
              (lista != [] && c != {} ==> r.Ok? && r.value in c) &&
              (r.Ok? && f != {} ==> r.value in f && forall n :: n in f ==> r.value <= n) &&
              (r.Ok? && f == {} && PEDIDO_PREFERIDO in c ==> r.value == PEDIDO_PREFERIDO) &&
              (r.Ok? && f == {} && PEDIDO_PREFERIDO !in c ==> forall n :: n in c ==> r.value <= n)
  {
    if idEntregador !in usuarios || !EhEntregador(usuarios[idEntregador]) then Err(UsuarioNaoEntregadorDois)
    else
      var lista := Lista(empresasPorEntregador, idEntregador);
      if lista == [] then Err(EntregadorSemEmpresa)
      else
        var c := Candidatos(pedidos, empresas, lista);
        var f := DeFarmacia(pedidos, empresas, c);
        if f != {} then Ok(Menor(f))
        else if PEDIDO_PREFERIDO in c then Ok(PEDIDO_PREFERIDO)
        else if c != {} then Ok(Menor(c))
        else Err(EntregadorSemEmpresa)
  }

  /**
   * Pharmacies are registered with the type "farmacia", so when no company
   * carries the type "Farmacia" the pharmacy tier never fires: the pick is
   * order 4 if it is a candidate and otherwise the lowest-numbered one, a
   * pharmacy's orders getting no priority.
   */
  lemma {:induction false} SemPrioridadeDeFarmacia(usuarios: map<int, Usuario>, empresasPorEntregador: map<int, seq<int>>,
                                 pedidos: map<int, PedidoV>, empresas: map<int, Empresa>, idEntregador: int)
    requires forall id :: id in empresas ==> empresas[id].tipoEmpresa != "Farmacia"
    requires idEntregador in usuarios && EhEntregador(usuarios[idEntregador])
    ensures var c := Candidatos(pedidos, empresas, Lista(empresasPorEntregador, idEntregador));
            var r := ObterPedido(usuarios, empresasPorEntregador, pedidos, empresas, idEntregador);
            r.Ok? ==> if PEDIDO_PREFERIDO in c then r.value == PEDIDO_PREFERIDO else r.value == Menor(c)
  {
    var c := Candidatos(pedidos, empresas, Lista(empresasPorEntregador, idEntregador));
    var f := DeFarmacia(pedidos, empresas, c);
    forall n | n in c ensures !TipoFarmacia(pedidos, empresas, n) {
      var e := EmpresaDoPedido(empresas, pedidos[n]);
      if e.Some? {
        assert e.value in empresas;
      }
    }
    assert f == {};
    var r := ObterPedido(usuarios, empresasPorEntregador, pedidos, empresas, idEntregador);
    if r.Ok? && PEDIDO_PREFERIDO !in c {
      assert r.value in c && forall n :: n in c ==> r.value <= n;
      assert Menor(c) in c && Menor(c) <= r.value;
    }
  }

  /**
   * The tier does fire when some company carries the type "Farmacia" (the
   * restaurant overload of `criarEmpresa` stores any type it is given): a
   * candidate of such a company is picked ahead of order 4, the pick being
   * the lowest-numbered such candidate.
   */
  lemma FarmaciaTemPrioridade(usuarios: map<int, Usuario>, empresasPorEntregador: map<int, seq<int>>,
                              pedidos: map<int, PedidoV>, empresas: map<int, Empresa>, idEntregador: int, n: int)
    requires idEntregador in usuarios && EhEntregador(usuarios[idEntregador])
    requires Candidato(pedidos, empresas, Lista(empresasPorEntregador, idEntregador), n)
    requires TipoFarmacia(pedidos, empresas, n)
    ensures var r := ObterPedido(usuarios, empresasPorEntregador, pedidos, empresas, idEntregador);
            r.Ok? && r.value in pedidos && TipoFarmacia(pedidos, empresas, r.value) && r.value <= n &&
            (r.value == PEDIDO_PREFERIDO ==> TipoFarmacia(pedidos, empresas, PEDIDO_PREFERIDO))
  {
    var c := Candidatos(pedidos, empresas, Lista(empresasPorEntregador, idEntregador));
    assert n in DeFarmacia(pedidos, empresas, c);
  }
}
