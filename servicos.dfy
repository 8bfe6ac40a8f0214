/** The services page: the checks before a service is created, the form
    reset, the status change of a listed service and the status colours. */
module Servicos {
  import opened Records
  import opened Store

  const MSG_CAMPOS: string := "Preencha todos os campos obrigatórios!"
  const MSG_ORCAMENTO: string := "O orçamento deve ser maior que zero!"
  const MSG_CADASTRADO: string := "Serviço cadastrado com sucesso!"
  const MSG_EXCLUIDO: string := "Serviço excluído com sucesso!"
  const MSG_STATUS: string := "Status atualizado!"

  /** The service types the type select offers. */
  const TIPOS_SERVICO: seq<string> := [
    "Manutenção de Computadores", "Instalação de Rede", "Suporte Técnico",
    "Desenvolvimento de Software", "Consultoria em TI", "Backup e Recuperação",
    "Segurança da Informação", "Cloud Computing", "Infraestrutura", "Outro"
  ]

  /** The statuses the status select of each listed service offers. */
  const STATUS_OPCOES: seq<string> := [EM_ANDAMENTO, CONCLUIDO, CANCELADO]

  const VERDE: string := "#28a745"
  const AMARELO: string := "#ffc107"
  const VERMELHO: string := "#dc3545"
  const CINZA: string := "#6c757d"

  /** The initial and reset form; `hoje` is today's date. */
  function FormVazio(hoje: string): ServicoForm
  {
    ServicoForm(None, "", "", None, EM_ANDAMENTO, hoje)
  }

  /** The checks of the submit handler in their order; `None` means the
      service is added. */
  function ErroSubmissao(form: ServicoForm): (e: Option<string>)
    ensures e == Some(MSG_CAMPOS) <==> form.clienteId.None? || form.tipoServico == "" || form.orcamento.None?
    ensures e == Some(MSG_ORCAMENTO) <==>
      form.clienteId.Some? && form.tipoServico != "" && form.orcamento.Some? && form.orcamento.value <= 0
    ensures e.None? <==>
      form.clienteId.Some? && form.tipoServico != "" && form.orcamento.Some? && form.orcamento.value > 0
  {
    if form.clienteId.None? || form.tipoServico == "" || form.orcamento.None? then Some(MSG_CAMPOS)
    else if form.orcamento.value <= 0 then Some(MSG_ORCAMENTO)
    else None
  }

  /** Every budget is positive, and every type and status is one the
      selects offer. */
  ghost predicate ServicosValidos(ss: seq<Servico>)
  {
    forall s :: s in ss ==> s.orcamento > 0 && s.tipoServico in TIPOS_SERVICO && s.status in STATUS_OPCOES
  }

  /** The type select holds its empty choice or one of its options. */
  predicate TipoSelecionavel(tipo: string)
  {
    tipo == "" || tipo in TIPOS_SERVICO
  }

  /** A submit that passes the checks, from a form whose status is the
      untouched default, keeps the services valid. */
  lemma SubmissaoPreservaValidade(form: ServicoForm, ss: seq<Servico>, freshId: int)
    requires ServicosValidos(ss)
    requires form.status == EM_ANDAMENTO
    requires TipoSelecionavel(form.tipoServico)
    requires ErroSubmissao(form).None?
    ensures ServicosValidos(ss + [NewServico(form, freshId)])
  {
  }

  /** The services loaded at start-up are valid: the seed services are, and
      so is a stored list that was valid when it was saved. */
  lemma CargaValida(st: Storage)
    requires SERVICOS_KEY in st && st[SERVICOS_KEY].StoredServicos? ==>
      ServicosValidos(st[SERVICOS_KEY].servicos)
    ensures ServicosValidos(LoadServicos(st))
  {
  }

  /** Deleting a service keeps the services valid. */
  lemma ExclusaoPreservaValidade(ss: seq<Servico>, id: int)
    requires ServicosValidos(ss)
    ensures ServicosValidos(RemoveById(ss, ServicoId, id))
  {
  }

  /** `{ status: newStatus }`. */
  function PatchStatus(status: string): ServicoPatch
  {
    ServicoPatch(None, None, None, None, None, Some(status), None)
  }

  /** A status change touches only the status of the services with that id. */
  lemma AlteraSomenteStatus(ss: seq<Servico>, id: int, status: string)
    ensures |UpdateServicos(ss, id, PatchStatus(status))| == |ss|
    ensures forall i :: 0 <= i < |ss| ==>
      UpdateServicos(ss, id, PatchStatus(status))[i] == if ss[i].id == id then ss[i].(status := status) else ss[i]
  {
  }

  /** A status change to an offered status keeps the services valid. */
  lemma AlteracaoPreservaValidade(ss: seq<Servico>, id: int, status: string)
    requires ServicosValidos(ss)
    requires status in STATUS_OPCOES
    ensures ServicosValidos(UpdateServicos(ss, id, PatchStatus(status)))
  {
    var r := UpdateServicos(ss, id, PatchStatus(status));
    AlteraSomenteStatus(ss, id, status);
    forall x | x in r ensures x.orcamento > 0 && x.tipoServico in TIPOS_SERVICO && x.status in STATUS_OPCOES {
      var i :| 0 <= i < |r| && r[i] == x;
      assert ss[i] in ss;
    }
  }

  /** `getStatusColor`. */
  function CorStatus(status: string): (c: string)
    ensures c == VERDE <==> status == CONCLUIDO
    ensures c == AMARELO <==> status == EM_ANDAMENTO
    ensures c == VERMELHO <==> status == CANCELADO
    ensures c == CINZA <==> status !in STATUS_OPCOES
  {
    if status == CONCLUIDO then VERDE
    else if status == EM_ANDAMENTO then AMARELO
    else if status == CANCELADO then VERMELHO
    else CINZA
  }

  /** The three offered statuses get three different colours, none of them
      the fallback grey; so a valid service is never shown in grey. */
  lemma CoresDasOpcoes(ss: seq<Servico>)
    requires ServicosValidos(ss)
    ensures forall i, j :: 0 <= i < j < |STATUS_OPCOES| ==> CorStatus(STATUS_OPCOES[i]) != CorStatus(STATUS_OPCOES[j])
    ensures forall s :: s in ss ==> CorStatus(s.status) != CINZA
  {
  }

  class PaginaServicos {
    const store: DataStore
    var form: ServicoForm

    /** The form has no status input, so its status stays the default; its
        type comes from the type select. */
    ghost predicate Valid()
      reads this, store
    {
      store.Valid() && form.status == EM_ANDAMENTO && TipoSelecionavel(form.tipoServico)
    }

    constructor (store: DataStore, hoje: string)
      requires store.Valid()
      ensures this.store == store && form == FormVazio(hoje)
      ensures Valid()
    {
      this.store := store;
      form := FormVazio(hoje);
    }

    /** The `onChange` handlers: each sets one of the five inputs. */
    method Editar(clienteId: Option<int>, tipoServico: string, descricao: string, orcamento: Option<int>, data: string)
      requires Valid()
      requires TipoSelecionavel(tipoServico)
      modifies this`form
      ensures form == ServicoForm(clienteId, tipoServico, descricao, orcamento, old(form).status, data)
      ensures Valid()
    {
      form := ServicoForm(clienteId, tipoServico, descricao, orcamento, form.status, data);
    }

    /** `handleSubmit`: the ordered checks, then exactly one service added
        and the form reset; a failed check adds nothing and keeps the form. */
    method Submeter(freshId: int, hoje: string)
      requires Valid()
      modifies this`form, store`servicos, store`storage, store`message
      ensures Valid()
      ensures store.clientes == old(store.clientes) && store.avaliacoes == old(store.avaliacoes)
      ensures old(ErroSubmissao(form)).Some? ==>
        && store.servicos == old(store.servicos)
        && store.storage == old(store.storage)
        && form == old(form)
        && store.message == Some(Message(old(ErroSubmissao(form)).value, Error))
      ensures old(ErroSubmissao(form)).None? ==>
        && store.servicos == old(store.servicos) + [NewServico(old(form), freshId)]
        && store.storage == old(store.storage)[SERVICOS_KEY := StoredServicos(store.servicos)]
        && form == FormVazio(hoje)
        && store.message == Some(Message(MSG_CADASTRADO, Success))
      ensures ServicosValidos(old(store.servicos)) ==> ServicosValidos(store.servicos)
    {
      var erro := ErroSubmissao(form);
      if erro.Some? {
        store.ShowMessage(erro.value, Error);
        return;
      }
      if ServicosValidos(store.servicos) {
        SubmissaoPreservaValidade(form, store.servicos, freshId);
      }
      var _ := store.AddServico(form, freshId);
      store.ShowMessage(MSG_CADASTRADO, Success);
      form := FormVazio(hoje);
    }

    /** `handleDelete`: removes the service only when the user confirms. */
    method Excluir(id: int, confirmado: bool)
      requires Valid()
      modifies store`servicos, store`storage, store`message
      ensures Valid()
      ensures store.clientes == old(store.clientes) && store.avaliacoes == old(store.avaliacoes)
      ensures confirmado ==>
        store.servicos == RemoveById(old(store.servicos), ServicoId, id) &&
        store.storage == Save(old(store.storage), SERVICOS_KEY, StoredServicos(store.servicos)) &&
        store.message == Some(Message(MSG_EXCLUIDO, Success))
      ensures !confirmado ==>
        store.servicos == old(store.servicos) && store.storage == old(store.storage) &&
        store.message == old(store.message)
      ensures ServicosValidos(old(store.servicos)) ==> ServicosValidos(store.servicos)
    {
      if confirmado {
        if ServicosValidos(store.servicos) {
          ExclusaoPreservaValidade(store.servicos, id);
        }
        store.DeleteServico(id);
        store.ShowMessage(MSG_EXCLUIDO, Success);
      }
    }

    /** `handleStatusChange` with a value picked from the status select. */
    method AlterarStatus(id: int, status: string)
      requires Valid()
      requires status in STATUS_OPCOES
      modifies store`servicos, store`storage, store`message
      ensures Valid()
      ensures store.clientes == old(store.clientes) && store.avaliacoes == old(store.avaliacoes)
      ensures store.servicos == UpdateServicos(old(store.servicos), id, PatchStatus(status))
      ensures store.storage == Save(old(store.storage), SERVICOS_KEY, StoredServicos(store.servicos))
      ensures store.message == Some(Message(MSG_STATUS, Success))
      ensures ServicosValidos(old(store.servicos)) ==> ServicosValidos(store.servicos)
    {
      if ServicosValidos(store.servicos) {
        AlteracaoPreservaValidade(store.servicos, id, status);
      }
      store.UpdateServico(id, PatchStatus(status));
      store.ShowMessage(MSG_STATUS, Success);
    }
  }
}
