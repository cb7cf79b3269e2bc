/**
 * A catalogue product. The price is held as a whole number of cents in
 * place of the Java `float`; the id comes from the registry's counter
 * (see `Sistema`).
 */
module Produtos {
  import opened Erros
  import opened Texto

  datatype Produto = Produto(id: int, nome: string, valor: int, categoria: string)

  /** `Produto.getAtributo`: "nome" and "categoria", case-sensitively; the price is not an attribute here. */
  function GetAtributo(p: Produto, atributo: string): (r: Result<string>)
    ensures r.Ok? <==> atributo == "nome" || atributo == "categoria"
    ensures atributo == "nome" ==> r == Ok(p.nome)
    ensures atributo == "categoria" ==> r == Ok(p.categoria)
    ensures r.Err? ==> r.erro == AtributoNaoExiste
  {
    match atributo
    case "nome" => Ok(p.nome)
    case "categoria" => Ok(p.categoria)
    case _ => Err(AtributoNaoExiste)
  }

  /** Asking a product for its price by attribute name fails, as does any other name than the two above. */
  lemma ValorNaoEhAtributo(p: Produto)
    ensures GetAtributo(p, "valor") == Err(AtributoNaoExiste)
    ensures GetAtributo(p, "Nome") == Err(AtributoNaoExiste)
  {
  }

  /** `setNome`: the name changes, the id, price and category do not. */
  function SetNome(p: Produto, nome: string): (r: Produto)
    ensures GetAtributo(r, "nome") == Ok(nome)
    ensures GetAtributo(r, "categoria") == GetAtributo(p, "categoria")
    ensures r.id == p.id && r.valor == p.valor
  {
    p.(nome := nome)
  }

  /** `setValor`: the price changes, no attribute does. */
  function SetValor(p: Produto, valor: int): (r: Produto)
    ensures r.valor == valor && r.id == p.id
    ensures forall a :: GetAtributo(r, a) == GetAtributo(p, a)
  {
    p.(valor := valor)
  }

  /** `setCategoria`: the category changes, the id, name and price do not. */
  function SetCategoria(p: Produto, categoria: string): (r: Produto)
    ensures GetAtributo(r, "categoria") == Ok(categoria)
    ensures GetAtributo(r, "nome") == GetAtributo(p, "nome")
    ensures r.id == p.id && r.valor == p.valor
  {
    p.(categoria := categoria)
  }

  /**
   * The field checks of `criarProduto` and `editarProduto`, in their order:
   * a blank name, a blank category, a price that is not positive.
   */
  function ValidarProduto(nome: string, valor: int, categoria: string): (r: Option<Erro>)
    ensures r.None? <==> !EmBranco(nome) && !EmBranco(categoria) && valor > 0
    ensures r == Some(NomeInvalido) <==> EmBranco(nome)
    ensures r == Some(CategoriaInvalida) <==> !EmBranco(nome) && EmBranco(categoria)
    ensures r == Some(ValorInvalido) <==> !EmBranco(nome) && !EmBranco(categoria) && valor <= 0
    ensures r.Some? ==> r.value in {NomeInvalido, CategoriaInvalida, ValorInvalido}
  {
    if EmBranco(nome) then Some(NomeInvalido)
    else if EmBranco(categoria) then Some(CategoriaInvalida)
    else if valor <= 0 then Some(ValorInvalido)
    else None
  }
}
