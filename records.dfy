/** The three record kinds of the service-tracking store, the form and
    patch shapes the pages hand to it, and the fixed seed data. */
module Records {

  datatype Option<+T> = None | Some(value: T)

  /** A client of the IT-services business. */
  datatype Cliente = Cliente(id: int, nome: string, email: string, telefone: string)

  /** A service request. `orcamento` is the budget in whole currency units. */
  datatype Servico = Servico(
    id: int,
    clienteId: int,
    tipoServico: string,
    descricao: string,
    orcamento: int,
    status: string,
    data: string)

  /** A post-service rating; `nota` is the number of stars. */
  datatype Avaliacao = Avaliacao(id: int, servicoId: int, nota: int, comentario: string)

  function ClienteId(c: Cliente): int { c.id }
  function ServicoId(s: Servico): int { s.id }
  function AvaliacaoId(a: Avaliacao): int { a.id }

  const EM_ANDAMENTO: string := "Em andamento"
  const CONCLUIDO: string := "Concluído"
  const CANCELADO: string := "Cancelado"

  function IsConcluido(s: Servico): bool { s.status == CONCLUIDO }

  /** What a client form holds: three text inputs. */
  datatype ClienteForm = ClienteForm(nome: string, email: string, telefone: string)

  /** What a service form holds. A numeric select or input that is still
      empty ('') is `None`; a filled one holds its numeric value. */
  datatype ServicoForm = ServicoForm(
    clienteId: Option<int>,
    tipoServico: string,
    descricao: string,
    orcamento: Option<int>,
    status: string,
    data: string)

  /** What a rating form holds; `servicoId` is `None` while no service is selected. */
  datatype AvaliacaoForm = AvaliacaoForm(servicoId: Option<int>, nota: int, comentario: string)

  /** A partial client object `{...}` spread over a stored one: `Some`
      fields are present and overwrite, `None` fields are absent. */
  datatype ClientePatch = ClientePatch(
    id: Option<int>,
    nome: Option<string>,
    email: Option<string>,
    telefone: Option<string>)

  /** A partial service object, read like `ClientePatch`. */
  datatype ServicoPatch = ServicoPatch(
    id: Option<int>,
    clienteId: Option<int>,
    tipoServico: Option<string>,
    descricao: Option<string>,
    orcamento: Option<int>,
    status: Option<string>,
    data: Option<string>)

  datatype MessageType = Success | Error

  /** The single notification slot shown above every page. */
  datatype Message = Message(text: string, kind: MessageType)

  /** Seed data used when storage holds nothing for a collection. */
  const SEED_CLIENTES: seq<Cliente> := [
    Cliente(1, "Empresa ABC Ltda", "contato@abc.com", "(11) 98765-4321"),
    Cliente(2, "Tech Solutions SA", "suporte@techsol.com", "(11) 91234-5678")
  ]

  const SEED_SERVICOS: seq<Servico> := [
    Servico(1, 1, "Manutenção de Computadores", "Limpeza e manutenção preventiva", 500, CONCLUIDO, "2025-11-15"),
    Servico(2, 2, "Instalação de Rede", "Instalação de rede cabeada", 1200, CONCLUIDO, "2025-11-20"),
    Servico(3, 1, "Suporte Técnico", "Suporte remoto", 300, EM_ANDAMENTO, "2025-12-01")
  ]

  const SEED_AVALIACOES: seq<Avaliacao> := [
    Avaliacao(1, 1, 5, "Excelente atendimento!"),
    Avaliacao(2, 2, 4, "Muito bom, rápido e eficiente.")
  ]
}
