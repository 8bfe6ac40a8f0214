/** The clients page: one form that either adds a client or, in edit mode,
    updates the client being edited. */
module Clientes {
  import opened Records
  import opened Store

  const MSG_CAMPOS: string := "Preencha todos os campos!"
  const MSG_ATUALIZADO: string := "Cliente atualizado com sucesso!"
  const MSG_CADASTRADO: string := "Cliente cadastrado com sucesso!"
  const MSG_EXCLUIDO: string := "Cliente excluído com sucesso!"

  const FORM_VAZIO: ClienteForm := ClienteForm("", "", "")

  /** Some required input is empty. */
  predicate CampoVazio(form: ClienteForm)
  {
    form.nome == "" || form.email == "" || form.telefone == ""
  }

  /** `if (editingId)`: no id, and the id 0, are falsy. */
  predicate EmEdicao(editingId: Option<int>)
  {
    editingId.Some? && editingId.value != 0
  }

  /** The form object spread over the stored client: all three fields, no id. */
  function PatchDoForm(form: ClienteForm): ClientePatch
  {
    ClientePatch(None, Some(form.nome), Some(form.email), Some(form.telefone))
  }

  /** What `handleEdit` loads into the form. */
  function FormDe(c: Cliente): ClienteForm
  {
    ClienteForm(c.nome, c.email, c.telefone)
  }

  /** Saving the form in edit mode gives every client with that id the
      form's three fields and its own id, and leaves every other client as
      it was. */
  lemma AtualizacaoPeloForm(cs: seq<Cliente>, id: int, form: ClienteForm)
    ensures |UpdateClientes(cs, id, PatchDoForm(form))| == |cs|
    ensures forall i :: 0 <= i < |cs| ==>
      UpdateClientes(cs, id, PatchDoForm(form))[i] ==
        if cs[i].id == id then Cliente(id, form.nome, form.email, form.telefone) else cs[i]
  {
  }

  /** Editing a client and saving without changing the form leaves the
      collection as it was, as long as no other client shares its id. */
  lemma EditarSemMudancas(cs: seq<Cliente>, c: Cliente)
    requires c in cs
    requires forall x :: x in cs && x.id == c.id ==> x == c
    ensures UpdateClientes(cs, c.id, PatchDoForm(FormDe(c))) == cs
  {
    AtualizacaoPeloForm(cs, c.id, FormDe(c));
    var r := UpdateClientes(cs, c.id, PatchDoForm(FormDe(c)));
    forall i | 0 <= i < |cs| ensures r[i] == cs[i] {
      assert cs[i] in cs;
    }
  }

  class PaginaClientes {
    const store: DataStore
    var form: ClienteForm
    var editingId: Option<int>

    ghost predicate Valid()
      reads this, store
    {
      store.Valid()
    }

    constructor (store: DataStore)
      requires store.Valid()
      ensures this.store == store && form == FORM_VAZIO && editingId == None
      ensures Valid()
    {
      this.store := store;
      form := FORM_VAZIO;
      editingId := None;
    }

    /** The `onChange` handlers of the three inputs. */
    method Editar(novo: ClienteForm)
      modifies this`form
      ensures form == novo
    {
      form := novo;
    }

    /** `handleSubmit`: an empty input shows an error and changes nothing;
        otherwise edit mode updates the edited client and leaves edit mode,
        add mode adds a client, and the form is cleared. */
    method Submeter(freshId: int)
      requires Valid()
      modifies this`form, this`editingId, store`clientes, store`storage, store`message
      ensures Valid()
      ensures store.servicos == old(store.servicos) && store.avaliacoes == old(store.avaliacoes)
      ensures CampoVazio(old(form)) ==>
        && store.clientes == old(store.clientes)
        && store.storage == old(store.storage)
        && form == old(form) && editingId == old(editingId)
        && store.message == Some(Message(MSG_CAMPOS, Error))
      ensures !CampoVazio(old(form)) && EmEdicao(old(editingId)) ==>
        && store.clientes == UpdateClientes(old(store.clientes), old(editingId).value, PatchDoForm(old(form)))
        && store.storage == Save(old(store.storage), CLIENTES_KEY, StoredClientes(store.clientes))
        && editingId == None
        && store.message == Some(Message(MSG_ATUALIZADO, Success))
      ensures !CampoVazio(old(form)) && !EmEdicao(old(editingId)) ==>
        && store.clientes == old(store.clientes) + [NewCliente(old(form), freshId)]
        && store.storage == old(store.storage)[CLIENTES_KEY := StoredClientes(store.clientes)]
        && editingId == old(editingId)
        && store.message == Some(Message(MSG_CADASTRADO, Success))
      ensures !CampoVazio(old(form)) ==> form == FORM_VAZIO
    {
      if CampoVazio(form) {
        store.ShowMessage(MSG_CAMPOS, Error);
        return;
      }
      if EmEdicao(editingId) {
        store.UpdateCliente(editingId.value, PatchDoForm(form));
        store.ShowMessage(MSG_ATUALIZADO, Success);
        editingId := None;
      } else {
        var _ := store.AddCliente(form, freshId);
        store.ShowMessage(MSG_CADASTRADO, Success);
      }
      form := FORM_VAZIO;
    }

    /** `handleEdit`: loads the client's three fields and enters edit mode. */
    method EditarCliente(c: Cliente)
      modifies this`form, this`editingId
      ensures form == FormDe(c) && editingId == Some(c.id)
    {
      form := FormDe(c);
      editingId := Some(c.id);
    }

    /** `handleDelete`: removes the client only when the user confirms. Its
        services and ratings stay. */
    method Excluir(id: int, confirmado: bool)
      requires Valid()
      modifies store`clientes, store`storage, store`message
      ensures Valid()
      ensures store.servicos == old(store.servicos) && store.avaliacoes == old(store.avaliacoes)
      ensures confirmado ==>
        store.clientes == RemoveById(old(store.clientes), ClienteId, id) &&
        store.storage == Save(old(store.storage), CLIENTES_KEY, StoredClientes(store.clientes)) &&
        store.message == Some(Message(MSG_EXCLUIDO, Success))
      ensures !confirmado ==>
        store.clientes == old(store.clientes) && store.storage == old(store.storage) &&
        store.message == old(store.message)
    {
      if confirmado {
        store.DeleteCliente(id);
        store.ShowMessage(MSG_EXCLUIDO, Success);
      }
    }

    /** `handleCancel`: leaves edit mode and clears the form. */
    method Cancelar()
      modifies this`form, this`editingId
      ensures form == FORM_VAZIO && editingId == None
    {
      editingId := None;
      form := FORM_VAZIO;
    }
  }
}
