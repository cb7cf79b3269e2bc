# MyFood order and delivery core in Dafny

This project models the core of MyFood, a Java food-ordering system, and proves properties of that model. Clients open an order (`Pedido`) at a company (a restaurant, market or pharmacy), fill its basket from the company's catalogue and close it. The company marks it ready. A courier (`Entregador`) affiliated with the company is then offered a ready order, takes it out for delivery (`Entrega`) and delivers it. Around this lifecycle sit the registry rules of `Sistema`:

- user registration (client, restaurant owner, courier);
- courier affiliation;
- the three company kinds, each with its own checks and attribute table;
- the `HH:MM` opening-hours rules;
- the product catalogue;
- the `"{[a, b]}"` list renderings.

## Modules

The modules follow the Java classes:

- `Erros` (`erros.dfy`): one `Erro` constructor per exception the code throws, plus `Option` and `Result`.
- `Texto` (`texto.dfy`): the parts of `java.lang.String` the code relies on. These are `trim().isEmpty()`, ASCII `toLowerCase`/`equalsIgnoreCase`, and decimal rendering of integers and of amounts in cents.
- `Colecoes` (`colecoes.dfy`): the least id of a set, `getOrDefault` for id lists, and the `StringBuilder` loop that renders `"{[a, b]}"`.
- `Horas` (`horas.dfy`): `horaFormatoValido`, `horaDentroLimite`, `validarOrdemHorarios` and the hour checks of `alterarFuncionamento`.
- `Usuarios`, `Empresas`, `Produtos` (`usuarios.dfy`, `empresas.dfy`, `produtos.dfy`): the user and company hierarchies as tagged datatypes, each with one `GetAtributo`, and the product record. The setters are functions that return the updated value.
- `Pedidos` (`pedidos.dfy`): the `Pedido` class, whose basket, total and state are updated in place. Also `PedidoV`, an order as a value, and the "one open order per client and company" invariant.
- `Entregas` (`entregas.dfy`): the delivery record and its attribute switch.
- `Despacho` (`despacho.dfy`): `obterPedido`, a pure selection over the registry's tables.
- `MyFood` (`sistema.dfy`): the `Sistema` class. It holds the ten tables as `map` fields and the four id counters, with one method per operation. Every method states its whole new state and keeps the invariant of the tables it changes.

Where the Java code keeps objects in a list (a company's orders, an owner's companies, a courier's companies), the model keeps their ids. Every id is the key of its object, so the two say the same.

## Model

| member | source | states |
|---|---|---|
| Texto.Trim | src/br/ufal/ic/p2/myfood/Sistema.java:54 | the trimmed text is a slice of the input with only characters at or below U+0020 cut off at either end, and it neither starts nor ends with such a character |
| Texto.EmBrancoSeSoAparaveis | src/br/ufal/ic/p2/myfood/Sistema.java:54-57 | `s.trim().isEmpty()` holds exactly when every character of `s` is at or below U+0020 |
| Texto.Minusculas | src/br/ufal/ic/p2/myfood/models/Entrega.java:79 | lower-casing keeps the length and maps every character through the ASCII lower-case of that character |
| Texto.MinusculasIdempotente | src/br/ufal/ic/p2/myfood/models/Entrega.java:79 | lower-casing twice is lower-casing once |
| Texto.NatParaTextoIdaVolta | src/br/ufal/ic/p2/myfood/models/Entrega.java:80-81 | reading back the decimal rendering of a number gives the number |
| Texto.NatParaTextoSemZeroAEsquerda | src/br/ufal/ic/p2/myfood/models/Entrega.java:80-81 | the rendering starts with '0' only for zero |
| Texto.IntParaTexto | src/br/ufal/ic/p2/myfood/models/Farmacia.java:91-92 | `"" + i`: a minus sign exactly for negatives, then digits whose value is the magnitude |
| Texto.CentavosParaTexto | src/br/ufal/ic/p2/myfood/Sistema.java:797 | `"%.2f"` of an amount in cents: a sign exactly for negatives, a dot, then two digits |
| Texto.CentavosParaTextoIdaVolta | src/br/ufal/ic/p2/myfood/Sistema.java:797 | units and two decimals read back give the amount in cents |
| Colecoes.MenorExiste | src/br/ufal/ic/p2/myfood/Sistema.java:966-969 | every non-empty finite set of order numbers has a least element |
| Colecoes.Menor | src/br/ufal/ic/p2/myfood/Sistema.java:966-969 | `min(comparingInt(getNumero))`: the result is in the set and no larger than any member |
| Colecoes.MenorOpcional | src/br/ufal/ic/p2/myfood/Sistema.java:1051-1056 | none exactly for the empty set; otherwise the least member |
| Colecoes.Lista | src/br/ufal/ic/p2/myfood/Sistema.java:142 | `getOrDefault(k, new ArrayList<>())`: the stored list, or the empty list when the key is absent |
| Colecoes.JuntarTamanho | src/br/ufal/ic/p2/myfood/Sistema.java:685-693 | the joined text is the parts plus one two-character separator between neighbours |
| Colecoes.JuntarPrefixo | src/br/ufal/ic/p2/myfood/Sistema.java:685-693 | joining a prefix of the parts gives a prefix of the joined text |
| Colecoes.Serializar | src/br/ufal/ic/p2/myfood/Sistema.java:685-693 | the loop builds `"{["`, the parts joined by `", "`, then `"]}"`; `"{[]}"` for no parts |
| Horas.FormatoValido | src/br/ufal/ic/p2/myfood/Sistema.java:354-356 | well-formed exactly when it is five characters: two digits, ':' and two digits |
| Horas.Hora | src/br/ufal/ic/p2/myfood/Sistema.java:361 | the hour is the decimal value of the first two digits, between 0 and 99 |
| Horas.Minuto | src/br/ufal/ic/p2/myfood/Sistema.java:362 | the minute is the decimal value of the last two digits, between 0 and 99 |
| Horas.DentroLimite | src/br/ufal/ic/p2/myfood/Sistema.java:359-369 | in range exactly when 0 <= hour <= 23 and 0 <= minute <= 59 |
| Horas.OrdemValida | src/br/ufal/ic/p2/myfood/Sistema.java:372-390 | valid exactly when (closing hour, minute) is lexicographically later than (opening hour, minute) |
| Horas.Formatar | src/br/ufal/ic/p2/myfood/Sistema.java:354-356 | a two-digit hour and minute render as a well-formed `HH:MM` |
| Horas.FormatarIdaVolta | src/br/ufal/ic/p2/myfood/Sistema.java:359-362 | the hour and minute read back from a rendering are the ones rendered |
| Horas.FormatarVoltaIda | src/br/ufal/ic/p2/myfood/Sistema.java:354-362 | every well-formed hour is the rendering of the hour and minute read from it |
| Horas.DentroLimiteSeRelogio | src/br/ufal/ic/p2/myfood/Sistema.java:354-369 | the format and range checks together accept exactly the clock times of a day |
| Horas.OrdemValidaSeMaisTarde | src/br/ufal/ic/p2/myfood/Sistema.java:372-390 | within range, the order check means the closing minute of the day is later than the opening one |
| Horas.Relogio | src/br/ufal/ic/p2/myfood/Sistema.java:354-369 | every minute of the day renders as an hour that passes the format and range checks |
| Horas.RelogioIdaVolta | src/br/ufal/ic/p2/myfood/Sistema.java:359-362 | reading back the rendering of a minute of the day gives that minute |
| Horas.HorarioAceitoSeIntervalo | src/br/ufal/ic/p2/myfood/Sistema.java:392-430 | the hour pairs accepted are exactly two clock times of one day with closing strictly later |
| Horas.ValidarFuncionamento | src/br/ufal/ic/p2/myfood/Sistema.java:400-418 | no error exactly for an accepted pair; the format error exactly when both hours are present and one is malformed; otherwise the hour error |
| Usuarios.PapeisExclusivos | src/br/ufal/ic/p2/myfood/models/Entregador.java:97-107 | a user is exactly one of client, owner and courier; only owners may create companies and only couriers are couriers |
| Usuarios.GetAtributoBase | src/br/ufal/ic/p2/myfood/models/Usuario.java:93-104 | `nome`, `email`, `senha` and `endereco`, matched case-sensitively, give their field; any other name is an invalid attribute |
| Usuarios.GetAtributo | src/br/ufal/ic/p2/myfood/models/DonoRestaurante.java:43-48 | an owner answers `cpf` and a courier `placa`/`veiculo` in any letter case (Entregador.java:81-89); every other name goes unchanged to the base table; fails exactly when neither answers |
| Usuarios.GetAtributoIgnoraCaixaNoPapel | src/br/ufal/ic/p2/myfood/models/Entregador.java:81-89 | two spellings that differ only in case get the same answer from a kind's own attributes |
| Usuarios.BaseSensivelACaixa | src/br/ufal/ic/p2/myfood/models/Usuario.java:93-104 | a client answers `nome` but not `Nome` |
| Usuarios.SetVeiculo | src/br/ufal/ic/p2/myfood/models/Entregador.java:44-46 | the vehicle reads back as set; every other attribute reads as before |
| Usuarios.SetPlaca | src/br/ufal/ic/p2/myfood/models/Entregador.java:60-62 | the plate reads back as set; every other attribute reads as before |
| Usuarios.ValidarDados | src/br/ufal/ic/p2/myfood/Sistema.java:54-57 | no error exactly for a non-blank name, an e-mail with '@', a non-blank password and address; each error exactly when the earlier checks pass and its own fails |
| Empresas.Nova | src/br/ufal/ic/p2/myfood/models/Empresa.java:34-39 | a new company answers its name, address and type and has no courier list yet |
| Empresas.FlagsExclusivas | src/br/ufal/ic/p2/myfood/models/Mercado.java:39-51 | `isMercado` and `isFarmacia` are never both true; a restaurant has neither (Restaurante.java:40-51, Farmacia.java:36-49) |
| Empresas.GetAtributoBase | src/br/ufal/ic/p2/myfood/models/Empresa.java:94-104 | `nome`, `endereco` and `tipoEmpresa`, matched case-sensitively, give their field; anything else is an invalid attribute |
| Empresas.TipoCozinhaIgnoraCaixa | src/br/ufal/ic/p2/myfood/models/Restaurante.java:73 | `"tipoCozinha".equalsIgnoreCase(a)` holds exactly when `a` lower-cases to `tipocozinha` |
| Empresas.GetAtributo | src/br/ufal/ic/p2/myfood/models/Mercado.java:123-133 | a market answers abre/fecha/tipomercado, a pharmacy aberto24horas as "true"/"false" and numerofuncionarios in decimal (Farmacia.java:87-95), a restaurant tipoCozinha (Restaurante.java:72-77), all in any case; other names go to the base table |
| Empresas.NumeroFuncionariosIdaVolta | src/br/ufal/ic/p2/myfood/models/Farmacia.java:91-92 | the employee count a pharmacy reports reads back as the stored number |
| Empresas.SetAtributo | src/br/ufal/ic/p2/myfood/models/Mercado.java:101-113 | any name other than abre/fecha on a market, and every name on a restaurant or pharmacy (Restaurante.java:60-62, Farmacia.java:59-61), changes nothing; the identity fields never change |
| Empresas.SetAtributoAbre | src/br/ufal/ic/p2/myfood/models/Mercado.java:103-105 | on a market, setting `abre` in any case makes `abre` read back as the value and leaves every other attribute as it was |
| Empresas.SetAtributoFecha | src/br/ufal/ic/p2/myfood/models/Mercado.java:106-108 | the same for `fecha` |
| Empresas.NovoHorario | src/br/ufal/ic/p2/myfood/Sistema.java:428-429 | setting both hours of a market keeps its identity fields and courier list, and it stays a market |
| Empresas.NovoHorarioAtributos | src/br/ufal/ic/p2/myfood/Sistema.java:428-429 | after the update both hours read back as given and every other attribute reads as before |
| Empresas.GetEntregadores | src/br/ufal/ic/p2/myfood/models/Empresa.java:42-47 | an unset list is created empty and stored; a set list is returned and nothing changes |
| Empresas.GetEntregadoresIdempotente | src/br/ufal/ic/p2/myfood/models/Empresa.java:42-47 | a second call returns the same list and changes nothing |
| Empresas.SetEntregadores | src/br/ufal/ic/p2/myfood/models/Empresa.java:50-52 | the list then reads back as set; only the list differs from the old company |
| Empresas.SetEntregadoresPreservaAtributos | src/br/ufal/ic/p2/myfood/models/Empresa.java:50-52 | replacing the courier list changes no attribute the company answers |
| Empresas.BuscarPorNome | src/br/ufal/ic/p2/myfood/Sistema.java:757-762 | none exactly when no company has the name; otherwise a company with that name, the lowest such id |
| Empresas.ValidarMercado | src/br/ufal/ic/p2/myfood/Sistema.java:267-310 | no error exactly when every check passes; each error (type, name, address, hour format, market type, missing or out-of-order hours) exactly when the earlier checks pass and its own fails, the format checked before the market type |
| Empresas.ValidarFarmacia | src/br/ufal/ic/p2/myfood/Sistema.java:444-457 | no error exactly for type "farmacia" with a non-blank name and address; the type, name and address errors each exactly when the earlier checks pass and its own fails |
| Empresas.FarmaciaValidaNaoEhMaiuscula | src/br/ufal/ic/p2/myfood/Sistema.java:445 | a pharmacy that passes its checks is never typed "Farmacia" |
| Empresas.IdsComNome | src/br/ufal/ic/p2/myfood/Sistema.java:552-558 | the ids of the owner's list whose company has the name, in list order |
| Empresas.GetIdEmpresa | src/br/ufal/ic/p2/myfood/Sistema.java:532-569 | a blank name, an empty owner list, a negative index, no match and an index past the matches are refused in that order; otherwise the index-th match in list order, which belongs to the owner and has the name |
| Empresas.Descrever | src/br/ufal/ic/p2/myfood/Sistema.java:521-525 | one entry is `[` name `, ` address `]` |
| Produtos.GetAtributo | src/br/ufal/ic/p2/myfood/models/Produto.java:84-93 | `nome` and `categoria`, case-sensitively, give their field; any other name does not exist |
| Produtos.ValorNaoEhAtributo | src/br/ufal/ic/p2/myfood/models/Produto.java:84-93 | `valor` and `Nome` are not attributes |
| Produtos.SetNome | src/br/ufal/ic/p2/myfood/models/Produto.java:102-104 | the name reads back as set; id, price and category are kept |
| Produtos.SetValor | src/br/ufal/ic/p2/myfood/models/Produto.java:111-113 | the price is replaced; no attribute changes |
| Produtos.SetCategoria | src/br/ufal/ic/p2/myfood/models/Produto.java:120-122 | the category reads back as set; id, name and price are kept |
| Produtos.ValidarProduto | src/br/ufal/ic/p2/myfood/Sistema.java:597-599 | no error exactly for a non-blank name and category and a positive price; the name, category and price errors each exactly when the earlier checks pass and its own fails |
| Pedidos.SomaConcat | src/br/ufal/ic/p2/myfood/models/Pedido.java:105-108 | the total of two baskets end to end is the sum of their totals |
| Pedidos.SomaPermutacao | src/br/ufal/ic/p2/myfood/models/Pedido.java:105-131 | a basket's total depends only on its multiset of products |
| Pedidos.SomaNaoNegativa | src/br/ufal/ic/p2/myfood/models/Pedido.java:41 | with positive prices a total is never negative, and positive for a non-empty basket |
| Pedidos.IndiceDoNome | src/br/ufal/ic/p2/myfood/models/Pedido.java:125-127 | the position of the first product with the name; none exactly when no product has it |
| Pedidos.RemoverPrimeiroRetiraUm | src/br/ufal/ic/p2/myfood/models/Pedido.java:124-131 | removing by name takes out exactly the first such product: one fewer in the multiset, earlier products kept, total lowered by its price |
| Pedidos.RemoverPrimeiroSemNome | src/br/ufal/ic/p2/myfood/models/Pedido.java:132-133 | with no product of that name the basket is unchanged |
| Pedidos.AdicionarDepoisRemover | src/br/ufal/ic/p2/myfood/models/Pedido.java:105-131 | appending a product with a new name and then removing by that name gives the basket back |
| Pedidos.Nomes | src/br/ufal/ic/p2/myfood/Sistema.java:804-810 | the product names in basket order |
| Pedidos.SemProduto | src/br/ufal/ic/p2/myfood/models/Pedido.java:124-131 | removal keeps the number, client, company and state, shortens the basket by one and keeps total == sum |
| Pedidos.ComProduto | src/br/ufal/ic/p2/myfood/models/Pedido.java:105-108 | adding keeps the header, appends the product at the end and keeps total == sum |
| Pedidos.RemoverDesfazAdicionar | src/br/ufal/ic/p2/myfood/models/Pedido.java:105-131 | removing by name after adding a product with a new name gives back the order as it was |
| Pedidos.Pedido.Vista | src/br/ufal/ic/p2/myfood/models/Pedido.java:51-99 | the getters: the value view has exactly the object's fields |
| Pedidos.Pedido.constructor | src/br/ufal/ic/p2/myfood/models/Pedido.java:35-42 | the number is the counter plus one; "aberto", empty, total 0 |
| Pedidos.Pedido.AdicionarProduto | src/br/ufal/ic/p2/myfood/models/Pedido.java:105-108 | the product is appended and its price added; total == sum is kept |
| Pedidos.Pedido.FinalizarPedido | src/br/ufal/ic/p2/myfood/models/Pedido.java:113-115 | the state becomes "preparando" from any state |
| Pedidos.Pedido.SetEstado | src/br/ufal/ic/p2/myfood/Sistema.java:881 | the state becomes the given one |
| Pedidos.Pedido.RemoverProdutoPorNome | src/br/ufal/ic/p2/myfood/models/Pedido.java:124-134 | true exactly when some product has the name; then the first is removed and its price subtracted; otherwise nothing changes; total == sum is kept |
| Pedidos.NovoPedidoPreservaUmAberto | src/br/ufal/ic/p2/myfood/Sistema.java:698-737 | listing a new order for a client with no "aberto" order at the company keeps one open order per client and company |
| Pedidos.AtualizarPreservaUmAberto | src/br/ufal/ic/p2/myfood/Sistema.java:818-882 | changing an order without changing its client or moving it into "aberto" keeps that invariant |
| Entregas.GetAtributo | src/br/ufal/ic/p2/myfood/models/Entrega.java:66-101 | pedido, entregador, cliente, empresa and destino in any case; the name lookups fail as invalid exactly when the courier or order does not resolve; any other name does not exist |
| Entregas.PedidoIdaVolta | src/br/ufal/ic/p2/myfood/models/Entrega.java:80-81 | the `pedido` attribute reads back as the order number |
| Entregas.GetAtributoIgnoraCaixa | src/br/ufal/ic/p2/myfood/models/Entrega.java:79 | names that differ only in case get the same answer |
| Despacho.EmpresaDoPedido | src/br/ufal/ic/p2/myfood/Sistema.java:914-922 | the company an order's name resolves to, none exactly when no company has that name |
| Despacho.Candidatos | src/br/ufal/ic/p2/myfood/Sistema.java:909-934 | exactly the "pronto" orders whose resolved company is on the courier's list |
| Despacho.DeFarmacia | src/br/ufal/ic/p2/myfood/Sistema.java:939-952 | exactly the candidates whose company is typed "Farmacia" |
| Despacho.ObterPedido | src/br/ufal/ic/p2/myfood/Sistema.java:884-972 | a non-courier is refused; no list or no candidate gives "no company"; otherwise a candidate: the least "Farmacia" one, else order 4, else the least |
| Despacho.SemPrioridadeDeFarmacia | src/br/ufal/ic/p2/myfood/Sistema.java:950 | when no company is typed "Farmacia", the pick is order 4 if it is a candidate and otherwise the least candidate |
| Despacho.FarmaciaTemPrioridade | src/br/ufal/ic/p2/myfood/Sistema.java:940-956 | when a candidate's company is typed "Farmacia", the pick is a "Farmacia" order no later than it, ahead of order 4 unless order 4 is one itself |
| MyFood.EmailsUnicos | src/br/ufal/ic/p2/myfood/Sistema.java:106 | with the e-mail index kept no two users share an e-mail, and an indexed e-mail leads to its user |
| MyFood.RegistrarPreservaIndice | src/br/ufal/ic/p2/myfood/Sistema.java:106-110 | registering under a fresh id and an unused e-mail keeps the index |
| MyFood.NovaEmpresaPreservaDonoUnico | src/br/ufal/ic/p2/myfood/Sistema.java:245-251 | appending a new company id to one owner's list keeps every company with a single owner |
| MyFood.DonoUnicoDeterminaDono | src/br/ufal/ic/p2/myfood/Sistema.java:706-716 | the owner whose list holds a company is unique |
| MyFood.NovaEntregaNumerada | src/br/ufal/ic/p2/myfood/Sistema.java:1024-1028 | `size() + 1` is unused and storing under it keeps the ids 1 .. size |
| MyFood.RegistrarPreservaUsuarios | src/br/ufal/ic/p2/myfood/models/Usuario.java:32-38 | a user under the next id and an unused e-mail keeps the user table valid |
| MyFood.NovaEmpresaPreservaEmpresas | src/br/ufal/ic/p2/myfood/models/Empresa.java:34-39 | a company under the next id, appended to one owner's list, keeps the company table valid |
| MyFood.AtualizarEmpresaPreservaEmpresas | src/br/ufal/ic/p2/myfood/Sistema.java:428-429 | replacing a company under its own id keeps the company table valid |
| MyFood.NovoProdutoPreservaProdutos | src/br/ufal/ic/p2/myfood/models/Produto.java:31-36 | a positive-price product under the counter plus one, listed under one company, keeps the product table valid |
| MyFood.NovoPedidoPreservaPedidos | src/br/ufal/ic/p2/myfood/Sistema.java:727-734 | a new empty "aberto" order under the next number, for a client with no open order there, keeps the order table valid |
| MyFood.AtualizarPreservaPedidos | src/br/ufal/ic/p2/myfood/Sistema.java:818-882 | changing an order's basket or state, without a new client or a return to "aberto", keeps the order table valid |
| MyFood.TabelasVaziasValidas | src/br/ufal/ic/p2/myfood/Sistema.java:38-48 | empty tables are valid whatever the counters have reached |
| MyFood.ValidarAlteracao | src/br/ufal/ic/p2/myfood/Sistema.java:394-426 | no error exactly for an existing market with an accepted hour pair; a missing company first, then the hour checks' own error, then the market error exactly for an existing non-market with accepted hours |
| MyFood.ValidarPedido | src/br/ufal/ic/p2/myfood/Sistema.java:699-725 | no error exactly for an existing client and company not owned by the client, with no "aberto" order of that client there; the open-order error exactly when that order exists |
| MyFood.ValidarAdicao | src/br/ufal/ic/p2/myfood/Sistema.java:745-771 | no error exactly for a state other than "preparando", an existing product, a resolved company and the product in its catalogue; each of the four errors exactly when the earlier checks pass and its own fails |
| MyFood.ValidarEntrega | src/br/ufal/ic/p2/myfood/Sistema.java:979-1011 | no error exactly for an existing "pronto" order, a courier, a resolved company on the courier's list; each error exactly when the earlier checks pass and its own fails, the null reference exactly when the courier has no list |
| MyFood.EfeitoEntregar | src/br/ufal/ic/p2/myfood/Sistema.java:1059-1074 | an unknown delivery or a missing order changes nothing; otherwise only that order changes, to "entregue" |
| MyFood.EntregarIdempotente | src/br/ufal/ic/p2/myfood/Sistema.java:1059-1074 | delivering twice gives the same outcome and orders as delivering once |
| MyFood.Descricoes | src/br/ufal/ic/p2/myfood/Sistema.java:516-526 | one entry per company of the owner, in list order |
| MyFood.NomesDoCatalogo | src/br/ufal/ic/p2/myfood/Sistema.java:686-692 | the catalogue's product names in list order |
| MyFood.Sistema.Vistas | src/br/ufal/ic/p2/myfood/Sistema.java:20 | the order table as values, one per stored order |
| MyFood.Sistema.constructor | src/br/ufal/ic/p2/myfood/Sistema.java:25-36 | every table empty and valid; first user and company id 1, first product and order number 1 |
| MyFood.Sistema.ZerarSistema | src/br/ufal/ic/p2/myfood/Sistema.java:38-48 | the eight cleared tables are empty and valid; affiliations, deliveries and counters are untouched |
| MyFood.Sistema.Registrar | src/br/ufal/ic/p2/myfood/Sistema.java:106-110 | the user is stored under the next id, indexed by e-mail, the counter advanced and the table kept valid |
| MyFood.Sistema.CriarCliente | src/br/ufal/ic/p2/myfood/Sistema.java:51-64 | the field errors, then a used e-mail; on error nothing changes, otherwise one client is added |
| MyFood.Sistema.CriarDono | src/br/ufal/ic/p2/myfood/Sistema.java:67-82 | the field errors, a CPF not 14 long, a used e-mail; on error nothing changes, otherwise one owner is added |
| MyFood.Sistema.CriarEntregador | src/br/ufal/ic/p2/myfood/Sistema.java:85-111 | the field errors, a plate in use, a blank vehicle, a blank plate, a used e-mail; on error nothing changes, otherwise one courier with an unused plate is added |
| MyFood.Sistema.CadastrarEntregador | src/br/ufal/ic/p2/myfood/Sistema.java:113-145 | a missing company, a non-courier, a courier already listed are refused; otherwise the courier joins the company's list and the company the courier's |
| MyFood.Sistema.RegistrarEmpresa | src/br/ufal/ic/p2/myfood/models/Empresa.java:34-39 | the company is stored under the next id, appended to the owner's list, and the table kept valid |
| MyFood.Sistema.CriarRestaurante | src/br/ufal/ic/p2/myfood/Sistema.java:216-254 | a non-owner, the owner's duplicate name and address, any company with that name and address are refused in that order; otherwise one restaurant is added |
| MyFood.Sistema.CriarMercado | src/br/ufal/ic/p2/myfood/Sistema.java:257-349 | a non-owner, the market field and hour errors, the owner's duplicate, another owner's name are refused in that order; otherwise one market with accepted hours is added |
| MyFood.Sistema.CriarFarmacia | src/br/ufal/ic/p2/myfood/Sistema.java:433-496 | a non-owner, the pharmacy field errors, the owner's duplicate, another owner's name are refused in that order; otherwise one pharmacy is added |
| MyFood.Sistema.AlterarFuncionamento | src/br/ufal/ic/p2/myfood/Sistema.java:392-430 | the error is `ValidarAlteracao`'s; on error nothing changes, otherwise only that market's hours change |
| MyFood.Sistema.GetEmpresasDoUsuario | src/br/ufal/ic/p2/myfood/Sistema.java:501-530 | a non-owner is refused; otherwise `"{["` + the owner's companies as `[nome, endereco]` in list order + `"]}"` |
| MyFood.Sistema.CriarProduto | src/br/ufal/ic/p2/myfood/Sistema.java:595-622 | the field errors, then a name already in the company's catalogue; otherwise one product under the counter plus one, listed under the company |
| MyFood.Sistema.EditarProduto | src/br/ufal/ic/p2/myfood/Sistema.java:624-641 | the field errors, then a missing product; otherwise only that product's name, price and category change |
| MyFood.Sistema.ListarProdutos | src/br/ufal/ic/p2/myfood/Sistema.java:673-696 | a missing company is refused; otherwise the catalogue names in list order as `"{[a, b]}"` |
| MyFood.Sistema.CriarPedido | src/br/ufal/ic/p2/myfood/Sistema.java:698-737 | the error is `ValidarPedido`'s; otherwise one new empty "aberto" order numbered counter plus one, listed under the company; one open order per client and company is kept |
| MyFood.Sistema.AdicionarProduto | src/br/ufal/ic/p2/myfood/Sistema.java:739-774 | a missing order, then `ValidarAdicao`'s error; on error no order changes, otherwise only that order gains the product and its price |
| MyFood.Sistema.GetPedidos | src/br/ufal/ic/p2/myfood/Sistema.java:777-816 | a missing order, a blank attribute; then cliente, empresa, estado, valor with two decimals, produtos as `"{[a, b]}"` in basket order (`"{[]}"` when empty); any other name does not exist |
| MyFood.Sistema.FecharPedido | src/br/ufal/ic/p2/myfood/Sistema.java:818-826 | fails exactly for a missing order; otherwise only that order's state changes, to "preparando", from any state |
| MyFood.Sistema.RemoverProduto | src/br/ufal/ic/p2/myfood/Sistema.java:828-849 | a blank name, a missing order, a "preparando" order, no such product are refused in that order and change nothing; otherwise only that order loses its first product of that name and its price |
| MyFood.Sistema.GetNumeroPedido | src/br/ufal/ic/p2/myfood/Sistema.java:851-865 | a missing client or company list, then an index out of bounds; otherwise the number at that index, an existing order |
| MyFood.Sistema.MudarEstado | src/br/ufal/ic/p2/myfood/Sistema.java:881 | only the state of that order changes; the order table stays valid |
| MyFood.Sistema.LiberarPedido | src/br/ufal/ic/p2/myfood/Sistema.java:867-882 | a missing order, "pronto" as already released, any other state but "preparando" as not releasable; otherwise only that order becomes "pronto" |
| MyFood.Sistema.CriarEntrega | src/br/ufal/ic/p2/myfood/Sistema.java:976-1032 | the error is `ValidarEntrega`'s and nothing changes; otherwise the order becomes "entregando" and a delivery with id size plus one, unused before, is stored |
| MyFood.Sistema.GuardarEntrega | src/br/ufal/ic/p2/myfood/Sistema.java:1024-1028 | the delivery is stored under a new id and the ids stay 1 .. size |
| MyFood.Sistema.GetEntrega | src/br/ufal/ic/p2/myfood/Sistema.java:1034-1047 | an unknown id, then a blank attribute; otherwise the delivery's attribute over the current orders and users |
| MyFood.Sistema.GetIdEntrega | src/br/ufal/ic/p2/myfood/Sistema.java:1049-1057 | fails exactly when no delivery carries the order; otherwise a delivery that carries it, the lowest id |
| MyFood.Sistema.Entregar | src/br/ufal/ic/p2/myfood/Sistema.java:1059-1074 | outcome and orders are `EfeitoEntregar`'s: an unknown delivery, a missing order, else only that order becomes "entregue" |

## Where the code and its description differ

The model follows the code in each of these places:

- **Adding and removing products.** They are refused only while an order is "preparando". An order that is "pronto", "entregando" or "entregue" still accepts them (`Sistema.java:745`, `Sistema.java:840`).
- **Closing an order.** `fecharPedido` sets "preparando" from any state, so a delivered order can move back. The lifecycle is therefore not forward-only.
- **The pharmacy tier in `obterPedido`.** It compares the type with "Farmacia", but pharmacies are created only with the type "farmacia", so the tier never fires for a company created as a pharmacy (`FarmaciaValidaNaoEhMaiuscula`, `SemPrioridadeDeFarmacia`). It does fire for a restaurant registered with the type "Farmacia", since the restaurant overload never checks its type (`FarmaciaTemPrioridade`). Order number 4 is preferred before the lowest-numbered candidate. With no candidate, the error is the one for a courier without companies.
- **Duplicate companies.** A restaurant is refused when any company has the same name and address. A market or pharmacy is refused when another owner has a company of the same name.

## Left out

- **Persistence.** The XML loading in the `Sistema` constructor and `encerrarSistema` are left out. The file reloads inside `Entrega.getAtributo` are replaced by the order and user tables passed as arguments.
- **Money.** Prices and totals are whole numbers of cents, not `float`s. The `"%.2f"` rendering is exact for them, so float rounding is not modelled.
- **Text.** Letter case is ASCII only: `toLowerCase` and `equalsIgnoreCase` are not modelled beyond 'A'–'Z'.
- **Null.** Null strings are modelled only where null gives its own outcome: a missing opening or closing hour, and an absent delivery destination. Elsewhere null is treated as blank text.
- **Hash-map traversal order.** The scans for a company by name and `getIdEntrega` return the lowest id, where the Java code returns whatever the hash map yields first.
- **Other read-only operations.** `getEntregadores`, `getEmpresas`, `login`, `getAtributoUsuario`, `getAtributoEmpresa` and `getProduto` of `Sistema.java` are not part of this model. They only read a table and call the attribute functions modelled here.
- **Facade.** `Facade.java` is not part of this model; each of its methods delegates to `Sistema`.
- **Counters.** Integer counters and ids are unbounded: the 32-bit wrap-around of Java `int` is not modelled. The static counters of `Usuario`, `Empresa`, `Produto` and `Pedido` are fields of the registry.
- **Product editing.** `editarProduto` changes a shared `Produto` object. The model keeps basket items as value snapshots, so an edit does not reach the baskets or totals of existing orders.
- **Owner scan in `criarPedido`.** The code takes the first owner whose list holds the company and compares that owner with the client. The model asks whether the client's own list holds the company. The two agree because a company sits on exactly one owner's list (`DonoUnicoDeterminaDono`).
- **Null reference in `criarEntrega`.** The crash for a courier with no affiliation list becomes the explicit error `ReferenciaNula`.
- MyFood.Sistema.GetIdEntrega: the model returns the lowest matching id, where the source returns the first match of a hash-map scan; the result is the same only up to that choice.
- Despacho.ObterPedido: companies are resolved by name to the lowest id, which is weaker than the source only in the same way.
- MyFood.Sistema.ZerarSistema: states the invariants of the four tables it empties. The affiliation and delivery tables and the counters are left as they were, as in the source, and their consistency with the emptied tables is not restated.
