/**
 * An order: its number, client name and company name fixed at creation,
 * a state string, the basket of products in insertion order and the
 * running total, updated in place as the Java object is. The products in a
 * basket are value snapshots taken when they were added.
 */
module Pedidos {
  import opened Erros
  import opened Produtos

  /** The order states, in lifecycle order. */
  const ABERTO := "aberto"
  const PREPARANDO := "preparando"
  const PRONTO := "pronto"
  const ENTREGANDO := "entregando"
  const ENTREGUE := "entregue"

  /** The total price of a basket, in cents. */
  function Soma(itens: seq<Produto>): int
  {
    if itens == [] then 0 else Soma(itens[..|itens| - 1]) + itens[|itens| - 1].valor
  }

  /** The total of two baskets put end to end is the sum of their totals. */
  lemma {:induction false} SomaConcat(a: seq<Produto>, b: seq<Produto>)
    ensures Soma(a + b) == Soma(a) + Soma(b)
    decreases |b|
  {
    if b == [] {
      assert a + b == a;
    } else {
      var ini := b[..|b| - 1];
      assert (a + b)[..|a + b| - 1] == a + ini;
      assert (a + b)[|a + b| - 1] == b[|b| - 1];
      SomaConcat(a, ini);
    }
  }

  /** The total does not depend on the order of the products: it is a function of the multiset. */
  lemma {:induction false} SomaPermutacao(a: seq<Produto>, b: seq<Produto>)
    requires multiset(a) == multiset(b)
    ensures Soma(a) == Soma(b)
    decreases |a|
  {
    if a != [] {
      var x := a[|a| - 1];
      assert x in multiset(b);
      var k :| 0 <= k < |b| && b[k] == x;
      var restoB := b[..k] + b[k + 1..];
      assert b == b[..k] + [x] + b[k + 1..];
      assert a == a[..|a| - 1] + [x];
      assert multiset(b) == multiset(b[..k]) + multiset{x} + multiset(b[k + 1..]);
      assert multiset(a) == multiset(a[..|a| - 1]) + multiset{x};
      assert multiset(restoB) == multiset(b[..k]) + multiset(b[k + 1..]);
      assert multiset(a[..|a| - 1]) == multiset(a) - multiset{x};
      assert multiset(restoB) == multiset(b) - multiset{x};
      assert multiset(a[..|a| - 1]) == multiset(restoB);
      SomaPermutacao(a[..|a| - 1], restoB);
      SomaConcat(b[..k] + [x], b[k + 1..]);
      SomaConcat(b[..k], [x]);
      SomaConcat(b[..k], b[k + 1..]);
      assert Soma([x]) == x.valor by {
        assert [x][..0] == [];
      }
    }
  }

  /** With positive prices, and every catalogue price is positive, a basket's total is never negative. */
  lemma {:induction false} SomaNaoNegativa(itens: seq<Produto>)
    requires forall i :: 0 <= i < |itens| ==> itens[i].valor > 0
    ensures Soma(itens) >= 0
    ensures itens != [] ==> Soma(itens) > 0
  {
    if itens != [] {
      SomaNaoNegativa(itens[..|itens| - 1]);
    }
  }

  /** The position of the first product with that name, if any. */
  function IndiceDoNome(itens: seq<Produto>, nome: string): (r: Option<int>)
    ensures r.None? <==> forall i :: 0 <= i < |itens| ==> itens[i].nome != nome
    ensures r.Some? ==> 0 <= r.value < |itens| && itens[r.value].nome == nome
    ensures r.Some? ==> forall j :: 0 <= j < r.value ==> itens[j].nome != nome
  {
    if itens == [] then None
    else if itens[0].nome == nome then Some(0)
    else
      match IndiceDoNome(itens[1..], nome)
      case None => None
      case Some(k) => Some(k + 1)
  }

  /** The basket without its first product of that name; unchanged when there is none. */
  function RemoverPrimeiro(itens: seq<Produto>, nome: string): seq<Produto>
  {
    match IndiceDoNome(itens, nome)
    case None => itens
    case Some(k) => itens[..k] + itens[k + 1..]
  }

  /**
   * Removing the first product of a name takes out exactly that one
   * product: one fewer in the multiset, the products before it untouched,
   * and the total lowered by its price.
   */
  lemma RemoverPrimeiroRetiraUm(itens: seq<Produto>, nome: string)
    requires IndiceDoNome(itens, nome).Some?
    ensures var k := IndiceDoNome(itens, nome).value;
            var r := RemoverPrimeiro(itens, nome);
            |r| == |itens| - 1 &&
            multiset(r) + multiset{itens[k]} == multiset(itens) &&
            r[..k] == itens[..k] &&
            Soma(r) == Soma(itens) - itens[k].valor
  {
    var k := IndiceDoNome(itens, nome).value;
    RemoverPrimeiroPartes(itens, nome, k);
    SemOMeio(itens[..k], itens[k], itens[k + 1..]);
  }

  /** The basket around the first product named `nome`, and the removal as the two sides put together. */
  lemma RemoverPrimeiroPartes(itens: seq<Produto>, nome: string, k: int)
    requires IndiceDoNome(itens, nome) == Some(k)
    ensures 0 <= k < |itens|
    ensures itens == itens[..k] + [itens[k]] + itens[k + 1..]
    ensures RemoverPrimeiro(itens, nome) == itens[..k] + itens[k + 1..]
  {
    assert itens == itens[..k] + [itens[k]] + itens[k + 1..];
  }

  /** Taking the middle product out of `a + [x] + b`: its multiset, prefix and total. */
  lemma SemOMeio(a: seq<Produto>, x: Produto, b: seq<Produto>)
    ensures multiset(a + b) + multiset{x} == multiset(a + [x] + b)
    ensures (a + b)[..|a|] == a
    ensures Soma(a + b) == Soma(a + [x] + b) - x.valor
  {
    assert a + [x] + b == a + ([x] + b);
    SomaConcat(a, [x] + b);
    SomaConcat([x], b);
    SomaConcat(a, b);
    assert Soma([x]) == x.valor by {
      assert [x][..0] == [];
    }
  }

  /** A removal by a name no product has leaves the basket as it was. */
  lemma RemoverPrimeiroSemNome(itens: seq<Produto>, nome: string)
    requires forall i :: 0 <= i < |itens| ==> itens[i].nome != nome
    ensures RemoverPrimeiro(itens, nome) == itens
  {
  }

  /** Adding a product and then removing by its name undoes the addition when no earlier product had that name. */
  lemma {:induction false} AdicionarDepoisRemover(itens: seq<Produto>, p: Produto)
    requires forall i :: 0 <= i < |itens| ==> itens[i].nome != p.nome
    ensures RemoverPrimeiro(itens + [p], p.nome) == itens
  {
    var s := itens + [p];
    assert forall j :: 0 <= j < |itens| ==> s[j].nome != p.nome;
    assert s[|itens|].nome == p.nome;
    var k := IndiceDoNome(s, p.nome).value;
    assert k == |itens|;
    assert s[..k] == itens;
  }

  /** The names of the products of a basket, in order: what `getPedidos(n, "produtos")` lists. */
  function Nomes(itens: seq<Produto>): (r: seq<string>)
    ensures |r| == |itens|
    ensures forall i :: 0 <= i < |itens| ==> r[i] == itens[i].nome
  {
    if itens == [] then [] else [itens[0].nome] + Nomes(itens[1..])
  }

  /** An order as a value: what the registry's invariants and the dispatch rule look at. */
  datatype PedidoV = PedidoV(numero: int, cliente: string, empresa: string, estado: string,
                             produtos: seq<Produto>, valor: int)

  /**
   * An order's view once the first product named `nome` has left its basket
   * and that product's price has left its total.
   */
  function SemProduto(v: PedidoV, nome: string): (r: PedidoV)
    requires IndiceDoNome(v.produtos, nome).Some?
    ensures r.numero == v.numero && r.cliente == v.cliente && r.empresa == v.empresa && r.estado == v.estado
    ensures |r.produtos| == |v.produtos| - 1
    ensures v.valor == Soma(v.produtos) ==> r.valor == Soma(r.produtos)
  {
    RemoverPrimeiroRetiraUm(v.produtos, nome);
    v.(produtos := RemoverPrimeiro(v.produtos, nome),
       valor := v.valor - v.produtos[IndiceDoNome(v.produtos, nome).value].valor)
  }

  /** An order's view once `p` has been appended to its basket and its price added to its total. */
  function ComProduto(v: PedidoV, p: Produto): (r: PedidoV)
    ensures r.numero == v.numero && r.cliente == v.cliente && r.empresa == v.empresa && r.estado == v.estado
    ensures |r.produtos| == |v.produtos| + 1 && r.produtos[..|v.produtos|] == v.produtos && r.produtos[|v.produtos|] == p
    ensures v.valor == Soma(v.produtos) ==> r.valor == Soma(r.produtos)
  {
    SomaConcat(v.produtos, [p]);
    assert Soma([p]) == p.valor by {
      assert [p][..0] == [];
    }
    v.(produtos := v.produtos + [p], valor := v.valor + p.valor)
  }

  /**
   * Adding a product whose name the basket does not hold and then removing
   * by that name gives back the order as it was.
   */
  lemma RemoverDesfazAdicionar(v: PedidoV, p: Produto)
    requires forall i :: 0 <= i < |v.produtos| ==> v.produtos[i].nome != p.nome
    ensures IndiceDoNome(ComProduto(v, p).produtos, p.nome).Some?
    ensures SemProduto(ComProduto(v, p), p.nome) == v
  {
    var c := ComProduto(v, p);
    assert c.produtos == v.produtos + [p];
    assert c.produtos[|v.produtos|].nome == p.nome;
    assert IndiceDoNome(c.produtos, p.nome) == Some(|v.produtos|);
    AdicionarDepoisRemover(v.produtos, p);
  }

  class Pedido {
    const numero: int
    const cliente: string
    const empresa: string
    var estado: string
    var produtos: seq<Produto>
    var valor: int

    /** The running total is the total of the basket. */
    ghost predicate Valid()
      reads this
    {
      valor == Soma(produtos)
    }

    function Vista(): (v: PedidoV)
      reads this
      ensures v.numero == numero && v.cliente == cliente && v.empresa == empresa
      ensures v.estado == estado && v.produtos == produtos && v.valor == valor
    {
      PedidoV(numero, cliente, empresa, estado, produtos, valor)
    }

    /**
     * `new Pedido(cliente, empresa)`: the number is the order counter plus
     * one; the order starts "aberto", with an empty basket and total 0.
     */
    constructor (contador: int, cliente: string, empresa: string)
      ensures numero == contador + 1
      ensures this.cliente == cliente && this.empresa == empresa
      ensures estado == ABERTO && produtos == [] && valor == 0
      ensures Valid()
    {
      numero := contador + 1;
      this.cliente := cliente;
      this.empresa := empresa;
      estado := ABERTO;
      produtos := [];
      valor := 0;
    }

    /** `adicionarProduto`: appends the product and adds its price to the total. */
    method AdicionarProduto(p: Produto)
      requires Valid()
      modifies this`produtos, this`valor
      ensures produtos == old(produtos) + [p]
      ensures valor == old(valor) + p.valor
      ensures Vista() == ComProduto(old(Vista()), p)
      ensures Valid()
    {
      SomaConcat(produtos, [p]);
      assert Soma([p]) == p.valor by {
        assert [p][..0] == [];
      }
      produtos := produtos + [p];
      valor := valor + p.valor;
    }

    /** `finalizarPedido`: the state becomes "preparando", whatever it was before. */
    method FinalizarPedido()
      modifies this`estado
      ensures estado == PREPARANDO
    {
      estado := PREPARANDO;
    }

    /** `setEstado`. */
    method SetEstado(novo: string)
      modifies this`estado
      ensures estado == novo
    {
      estado := novo;
    }

    /**
     * `removerProdutoPorNome`: walks the basket in order and removes the first
     * product with that name, lowering the total by its price, and reports
     * whether one was found; with no match nothing changes.
     */
    method RemoverProdutoPorNome(nome: string) returns (removido: bool)
      requires Valid()
      modifies this`produtos, this`valor
      ensures removido <==> exists i :: 0 <= i < |old(produtos)| && old(produtos)[i].nome == nome
      ensures removido <==> IndiceDoNome(old(produtos), nome).Some?
      ensures produtos == RemoverPrimeiro(old(produtos), nome)
      ensures removido ==> valor == old(valor) - old(produtos)[IndiceDoNome(old(produtos), nome).value].valor
      ensures !removido ==> produtos == old(produtos) && valor == old(valor)
      ensures removido ==> Vista() == SemProduto(old(Vista()), nome)
      ensures Valid()
    {
      var i := 0;
      while i < |produtos|
        invariant 0 <= i <= |produtos|
        invariant produtos == old(produtos) && valor == old(valor)
        invariant forall j :: 0 <= j < i ==> produtos[j].nome != nome
      {
        if produtos[i].nome == nome {
          var p := produtos[i];
          assert IndiceDoNome(produtos, nome) == Some(i);
          RemoverPrimeiroRetiraUm(produtos, nome);
          produtos := produtos[..i] + produtos[i + 1..];
          valor := valor - p.valor;
          return true;
        }
        i := i + 1;
      }
      return false;
    }
  }

  /**
   * The registry keeps, per company, the numbers of its orders. No company
   * list names an order twice, and within one company no two "aberto"
   * orders belong to the same client name.
   */
  ghost predicate UmAbertoPorCliente(porEmpresa: map<int, seq<int>>, pedidos: map<int, PedidoV>)
  {
    forall e, i, j :: e in porEmpresa && 0 <= i < j < |porEmpresa[e]| ==>
      porEmpresa[e][i] != porEmpresa[e][j] &&
      (porEmpresa[e][i] in pedidos && porEmpresa[e][j] in pedidos &&
       pedidos[porEmpresa[e][i]].estado == ABERTO && pedidos[porEmpresa[e][j]].estado == ABERTO ==>
         pedidos[porEmpresa[e][i]].cliente != pedidos[porEmpresa[e][j]].cliente)
  }

  /** The client already has an "aberto" order in that company's list (the `PedidoEmAberto` test of `criarPedido`). */
  predicate TemAberto(lista: seq<int>, pedidos: map<int, PedidoV>, cliente: string)
  {
    exists i :: 0 <= i < |lista| && lista[i] in pedidos &&
      pedidos[lista[i]].cliente == cliente && pedidos[lista[i]].estado == ABERTO
  }

  /**
   * Creating an order: appending a fresh number to a company's list, for a
   * client with no "aberto" order there, keeps the invariant.
   */
  lemma NovoPedidoPreservaUmAberto(porEmpresa: map<int, seq<int>>, pedidos: map<int, PedidoV>,
                                   e: int, lista: seq<int>, v: PedidoV)
    requires UmAbertoPorCliente(porEmpresa, pedidos)
    requires lista == (if e in porEmpresa then porEmpresa[e] else [])
    requires v.numero !in pedidos
    requires forall k, i :: k in porEmpresa && 0 <= i < |porEmpresa[k]| ==> porEmpresa[k][i] in pedidos
    requires !TemAberto(lista, pedidos, v.cliente)
    ensures UmAbertoPorCliente(porEmpresa[e := lista + [v.numero]], pedidos[v.numero := v])
  {
    var pe, ps := porEmpresa[e := lista + [v.numero]], pedidos[v.numero := v];
    forall k, i, j | k in pe && 0 <= i < j < |pe[k]|
      ensures pe[k][i] != pe[k][j]
      ensures pe[k][i] in ps && pe[k][j] in ps && ps[pe[k][i]].estado == ABERTO && ps[pe[k][j]].estado == ABERTO ==>
                ps[pe[k][i]].cliente != ps[pe[k][j]].cliente
    {
      if k == e && j == |lista| {
        assert pe[k][i] == lista[i] && lista[i] in pedidos;
        assert pe[k][j] == v.numero;
      } else {
        assert k in porEmpresa && pe[k][i] == porEmpresa[k][i] && pe[k][j] == porEmpresa[k][j];
        assert porEmpresa[k][i] in pedidos && porEmpresa[k][j] in pedidos;
      }
    }
  }

  /**
   * Changing one order without giving it a new client and without moving it
   * into "aberto" (closing, releasing, dispatching, delivering, editing
   * its basket) keeps the invariant.
   */
  lemma AtualizarPreservaUmAberto(porEmpresa: map<int, seq<int>>, pedidos: map<int, PedidoV>,
                                  n: int, v: PedidoV)
    requires UmAbertoPorCliente(porEmpresa, pedidos)
    requires n in pedidos
    requires v.cliente == pedidos[n].cliente
    requires v.estado == ABERTO ==> pedidos[n].estado == ABERTO
    ensures UmAbertoPorCliente(porEmpresa, pedidos[n := v])
  {
    var ps := pedidos[n := v];
    forall k, i, j | k in porEmpresa && 0 <= i < j < |porEmpresa[k]|
      ensures porEmpresa[k][i] in ps && porEmpresa[k][j] in ps &&
              ps[porEmpresa[k][i]].estado == ABERTO && ps[porEmpresa[k][j]].estado == ABERTO ==>
                ps[porEmpresa[k][i]].cliente != ps[porEmpresa[k][j]].cliente
    {
      var a, b := porEmpresa[k][i], porEmpresa[k][j];
      if a in ps && b in ps && ps[a].estado == ABERTO && ps[b].estado == ABERTO {
        assert a in pedidos && pedidos[a].estado == ABERTO && pedidos[a].cliente == ps[a].cliente;
        assert b in pedidos && pedidos[b].estado == ABERTO && pedidos[b].cliente == ps[b].cliente;
      }
    }
  }
}
