/**
 * A delivery: its id, the order it carries, the courier and the destination
 * as given (possibly absent). The order and user tables that the Java
 * `getAtributo` reloads from disk are passed in as parameters.
 */
module Entregas {
  import opened Erros
  import opened Texto
  import opened Usuarios
  import opened Pedidos

  datatype Entrega = Entrega(id: int, idPedido: int, idEntregador: int, destino: Option<string>)

  /** The attribute names a delivery answers, after lower-casing. */
  predicate AtributoDeEntrega(chave: string) {
    chave == "pedido" || chave == "entregador" || chave == "cliente" || chave == "empresa" || chave == "destino"
  }

  /**
   * `Entrega.getAtributo`, matched in any letter case: the order number in
   * decimal, the courier's name, the order's client or company name, or
   * the destination as stored. A courier or order that does not resolve is
   * an invalid attribute; an unknown name does not exist.
   */
  function GetAtributo(e: Entrega, atributo: string, pedidos: map<int, PedidoV>, usuarios: map<int, Usuario>)
    : (r: Result<Option<string>>)
    ensures !AtributoDeEntrega(Minusculas(atributo)) <==> r == Err(AtributoNaoExiste)
    ensures Minusculas(atributo) == "pedido" ==> r == Ok(Some(IntParaTexto(e.idPedido)))
    ensures Minusculas(atributo) == "destino" ==> r == Ok(e.destino)
    ensures Minusculas(atributo) == "entregador" ==>
              (r.Ok? <==> e.idEntregador in usuarios) &&
              (r.Ok? ==> r.value == Some(usuarios[e.idEntregador].nome)) &&
              (r.Err? ==> r.erro == AtributoInvalido)
    ensures Minusculas(atributo) == "cliente" ==>
              (r.Ok? <==> e.idPedido in pedidos) &&
              (r.Ok? ==> r.value == Some(pedidos[e.idPedido].cliente)) &&
              (r.Err? ==> r.erro == AtributoInvalido)
    ensures Minusculas(atributo) == "empresa" ==>
              (r.Ok? <==> e.idPedido in pedidos) &&
              (r.Ok? ==> r.value == Some(pedidos[e.idPedido].empresa)) &&
              (r.Err? ==> r.erro == AtributoInvalido)
  {
    match Minusculas(atributo)
    case "pedido" => Ok(Some(IntParaTexto(e.idPedido)))
    case "entregador" =>
      if e.idEntregador in usuarios then Ok(Some(usuarios[e.idEntregador].nome)) else Err(AtributoInvalido)
    case "cliente" =>
      if e.idPedido in pedidos then Ok(Some(pedidos[e.idPedido].cliente)) else Err(AtributoInvalido)
    case "empresa" =>
      if e.idPedido in pedidos then Ok(Some(pedidos[e.idPedido].empresa)) else Err(AtributoInvalido)
    case "destino" => Ok(e.destino)
    case _ => Err(AtributoNaoExiste)
  }

  /** The "pedido" attribute reads back as the order number it was built with. */
  lemma PedidoIdaVolta(e: Entrega, atributo: string, pedidos: map<int, PedidoV>, usuarios: map<int, Usuario>)
    requires Minusculas(atributo) == "pedido" && e.idPedido >= 0
    ensures var r := GetAtributo(e, atributo, pedidos, usuarios);
            r.Ok? && r.value.Some? && SoDigitos(r.value.value) && ValorDecimal(r.value.value) == e.idPedido
  {
  }

  /** Whether the answer depends on letter case: it does not. */
  lemma GetAtributoIgnoraCaixa(e: Entrega, a: string, b: string, pedidos: map<int, PedidoV>, usuarios: map<int, Usuario>)
    requires Minusculas(a) == Minusculas(b)
    ensures GetAtributo(e, a, pedidos, usuarios) == GetAtributo(e, b, pedidos, usuarios)
  {
  }
}
