/**
 * The outcomes of the MyFood operations. Every Java exception the modelled
 * code throws becomes one constructor of `Erro` (the exception's class name
 * without the "Exception" suffix); an operation that can throw returns a
 * `Result`, and an operation that only looks something up returns an `Option`.
 */
module Erros {

  datatype Erro =
    // user registration
    | NomeInvalido | EmailInvalido | SenhaInvalida | EnderecoInvalido | EmailExistente
    | CpfInvalido | VeiculoInvalido | PlacaInvalida
    // courier affiliation
    | EmpresaNaoEncontrada | UsuarioNaoEntregador
    // company registration and opening hours
    | UsuarioNaoAutorizado | NomeEmpresaExistente | EnderecoDuplicado | TipoEmpresaInvalido
    | EnderecoEmpresaInvalido | HorarioInvalido | FormatoHoraInvalido | TipoMercadoInvalido
    | MercadoInvalido | NomeEmpresaNaoExiste | IndiceInvalido | IndiceMaior
    // product catalogue
    | NomeProdutoExiste | ValorInvalido | CategoriaInvalida | ProdutoNaoCadastrado
    // orders
    | DonoNaoPodePedido | PedidoEmAberto | NaoExistePedidoAberto | PedidoFechado
    | ProdutoNaoEncontrado | ProdutoNaoPertenceEmpresa | AtributoInvalido | AtributoNaoExiste
    | PedidoNaoEncontrado | RemoverProdutoPedidoFechado | ProdutoInvalido
    | PedidoJaLiberado | NaoEhPossivelLiberar
    // dispatch and deliveries
    | UsuarioNaoEntregadorDois | EntregadorSemEmpresa | EntregadorEmEntrega
    | PedidoNaoPronto | EntregadorNaoValido
    // java.lang runtime exceptions thrown by the modelled code
    | ArgumentoIlegal        // IllegalArgumentException
    | IndiceForaDosLimites   // IndexOutOfBoundsException
    | ReferenciaNula         // NullPointerException

  datatype Option<+T> = None | Some(value: T)

  datatype Result<+T> = Ok(value: T) | Err(erro: Erro)
}
