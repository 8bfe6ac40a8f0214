/** The shared record store: three collections, a notification slot, and
    the key-value storage each collection is mirrored into. */
module Store {
  import opened Records
  import opened Seqs

  // ---------------------------------------------------------------------
  // Persistence: storage is abstracted as a map from key to the collection
  // last written under it (serialisation is left out).

  const CLIENTES_KEY: string := "clientes"
  const SERVICOS_KEY: string := "servicos"
  const AVALIACOES_KEY: string := "avaliacoes"

  datatype Stored =
    | StoredClientes(clientes: seq<Cliente>)
    | StoredServicos(servicos: seq<Servico>)
    | StoredAvaliacoes(avaliacoes: seq<Avaliacao>)

  type Storage = map<string, Stored>

  function Size(v: Stored): nat
  {
    match v
    case StoredClientes(cs) => |cs|
    case StoredServicos(ss) => |ss|
    case StoredAvaliacoes(avs) => |avs|
  }

  /** The save effect of one collection: it is written under its key only
      when it is non-empty. */
  function Save(st: Storage, key: string, v: Stored): Storage
  {
    if Size(v) > 0 then st[key := v] else st
  }

  /** The load effect: the stored collection if its key is present,
      otherwise the seed data. */
  function LoadClientes(st: Storage): seq<Cliente>
  {
    if CLIENTES_KEY in st && st[CLIENTES_KEY].StoredClientes? then st[CLIENTES_KEY].clientes
    else SEED_CLIENTES
  }

  function LoadServicos(st: Storage): seq<Servico>
  {
    if SERVICOS_KEY in st && st[SERVICOS_KEY].StoredServicos? then st[SERVICOS_KEY].servicos
    else SEED_SERVICOS
  }

  function LoadAvaliacoes(st: Storage): seq<Avaliacao>
  {
    if AVALIACOES_KEY in st && st[AVALIACOES_KEY].StoredAvaliacoes? then st[AVALIACOES_KEY].avaliacoes
    else SEED_AVALIACOES
  }

  /** Storage holds the current value of every collection that is non-empty. */
  ghost predicate Mirrors(st: Storage, cs: seq<Cliente>, ss: seq<Servico>, avs: seq<Avaliacao>)
  {
    && (|cs| > 0 ==> CLIENTES_KEY in st && st[CLIENTES_KEY] == StoredClientes(cs))
    && (|ss| > 0 ==> SERVICOS_KEY in st && st[SERVICOS_KEY] == StoredServicos(ss))
    && (|avs| > 0 ==> AVALIACOES_KEY in st && st[AVALIACOES_KEY] == StoredAvaliacoes(avs))
  }

  /** Saving a collection and loading it again gives it back when it was
      non-empty; when it was empty, loading gives whatever the storage held
      before (an earlier snapshot, or the seed data). */
  lemma SaveThenLoadClientes(st: Storage, cs: seq<Cliente>)
    ensures LoadClientes(Save(st, CLIENTES_KEY, StoredClientes(cs))) == if |cs| > 0 then cs else LoadClientes(st)
  {
  }

  lemma SaveThenLoadServicos(st: Storage, ss: seq<Servico>)
    ensures LoadServicos(Save(st, SERVICOS_KEY, StoredServicos(ss))) == if |ss| > 0 then ss else LoadServicos(st)
  {
  }

  lemma SaveThenLoadAvaliacoes(st: Storage, avs: seq<Avaliacao>)
    ensures LoadAvaliacoes(Save(st, AVALIACOES_KEY, StoredAvaliacoes(avs))) == if |avs| > 0 then avs else LoadAvaliacoes(st)
  {
  }

  /** A later start-up over mirrored storage reproduces every non-empty
      collection; an empty one comes back as the old snapshot or the seed. */
  lemma ReloadMirrored(st: Storage, cs: seq<Cliente>, ss: seq<Servico>, avs: seq<Avaliacao>)
    requires Mirrors(st, cs, ss, avs)
    ensures |cs| > 0 ==> LoadClientes(st) == cs
    ensures |ss| > 0 ==> LoadServicos(st) == ss
    ensures |avs| > 0 ==> LoadAvaliacoes(st) == avs
  {
  }

  // ---------------------------------------------------------------------
  // Record transforms: spread-append, `map` with a merge, `filter`.

  /** `{...cliente, id: Date.now()}`, with the clock reading passed in. */
  function NewCliente(form: ClienteForm, freshId: int): Cliente
  {
    Cliente(freshId, form.nome, form.email, form.telefone)
  }

  /** `{...servico, id, clienteId: parseInt(..), orcamento: parseFloat(..)}`. */
  function NewServico(form: ServicoForm, freshId: int): Servico
    requires form.clienteId.Some? && form.orcamento.Some?
  {
    Servico(freshId, form.clienteId.value, form.tipoServico, form.descricao,
            form.orcamento.value, form.status, form.data)
  }

  /** `{...avaliacao, id, servicoId: parseInt(..)}`. */
  function NewAvaliacao(form: AvaliacaoForm, freshId: int): Avaliacao
    requires form.servicoId.Some?
  {
    Avaliacao(freshId, form.servicoId.value, form.nota, form.comentario)
  }

  function GetOr<T>(o: Option<T>, default: T): T
  {
    match o
    case Some(v) => v
    case None => default
  }

  /** `{...c, ...patch}`: every field present in the patch overwrites. */
  function MergeCliente(c: Cliente, p: ClientePatch): Cliente
  {
    Cliente(GetOr(p.id, c.id), GetOr(p.nome, c.nome), GetOr(p.email, c.email), GetOr(p.telefone, c.telefone))
  }

  /** `{...s, ...patch}`. */
  function MergeServico(s: Servico, p: ServicoPatch): Servico
  {
    Servico(GetOr(p.id, s.id), GetOr(p.clienteId, s.clienteId), GetOr(p.tipoServico, s.tipoServico),
            GetOr(p.descricao, s.descricao), GetOr(p.orcamento, s.orcamento),
            GetOr(p.status, s.status), GetOr(p.data, s.data))
  }

  /** `s.map(x => key(x) === id ? f(x) : x)`. */
  function UpdateWhere<T>(s: seq<T>, key: T -> int, id: int, f: T -> T): (r: seq<T>)
    ensures |r| == |s|
    ensures forall i :: 0 <= i < |s| && key(s[i]) != id ==> r[i] == s[i]
    ensures forall i :: 0 <= i < |s| && key(s[i]) == id ==> r[i] == f(s[i])
  {
    if s == [] then []
    else [if key(s[0]) == id then f(s[0]) else s[0]] + UpdateWhere(s[1..], key, id, f)
  }

  /** Updating an id no record carries changes nothing. */
  lemma UpdateAbsent<T>(s: seq<T>, key: T -> int, id: int, f: T -> T)
    requires forall x :: x in s ==> key(x) != id
    ensures UpdateWhere(s, key, id, f) == s
  {
  }

  /** Applying an idempotent update twice is applying it once. */
  lemma UpdateTwice<T>(s: seq<T>, key: T -> int, id: int, f: T -> T)
    requires forall x :: f(f(x)) == f(x)
    ensures UpdateWhere(UpdateWhere(s, key, id, f), key, id, f) == UpdateWhere(s, key, id, f)
  {
  }

  function UpdateClientes(cs: seq<Cliente>, id: int, patch: ClientePatch): seq<Cliente>
  {
    UpdateWhere(cs, ClienteId, id, (c: Cliente) => MergeCliente(c, patch))
  }

  function UpdateServicos(ss: seq<Servico>, id: int, patch: ServicoPatch): seq<Servico>
  {
    UpdateWhere(ss, ServicoId, id, (s: Servico) => MergeServico(s, patch))
  }

  /** Merging the same patch twice is merging it once. */
  lemma UpdateClientesTwice(cs: seq<Cliente>, id: int, patch: ClientePatch)
    ensures UpdateClientes(UpdateClientes(cs, id, patch), id, patch) == UpdateClientes(cs, id, patch)
  {
    UpdateTwice(cs, ClienteId, id, (c: Cliente) => MergeCliente(c, patch));
  }

  lemma UpdateServicosTwice(ss: seq<Servico>, id: int, patch: ServicoPatch)
    ensures UpdateServicos(UpdateServicos(ss, id, patch), id, patch) == UpdateServicos(ss, id, patch)
  {
    UpdateTwice(ss, ServicoId, id, (s: Servico) => MergeServico(s, patch));
  }

  /** `s.filter(x => key(x) !== id)`. */
  function RemoveById<T(!new)>(s: seq<T>, key: T -> int, id: int): (r: seq<T>)
    ensures forall x :: x in r <==> x in s && key(x) != id
  {
    Filter(s, (x: T) => key(x) != id)
  }

  /** Deleting by one id keeps any other key unique if it was. */
  lemma RemoveKeepsDistinct<T(!new)>(s: seq<T>, key: T -> int, id: int, other: T -> int)
    requires forall i, j :: 0 <= i < j < |s| ==> other(s[i]) != other(s[j])
    ensures forall i, j :: 0 <= i < j < |RemoveById(s, key, id)| ==>
      other(RemoveById(s, key, id)[i]) != other(RemoveById(s, key, id)[j])
  {
    FilterKeysDistinct(s, (x: T) => key(x) != id, other);
  }

  /** Deleting an id no record carries changes nothing. */
  lemma RemoveAbsent<T(!new)>(s: seq<T>, key: T -> int, id: int)
    requires forall x :: x in s ==> key(x) != id
    ensures RemoveById(s, key, id) == s
  {
    FilterKeepsAll(s, (x: T) => key(x) != id);
  }

  /** Deleting twice is deleting once. */
  lemma RemoveTwice<T(!new)>(s: seq<T>, key: T -> int, id: int)
    ensures RemoveById(RemoveById(s, key, id), key, id) == RemoveById(s, key, id)
  {
    FilterIdempotent(s, (x: T) => key(x) != id);
  }

  // ---------------------------------------------------------------------
  // The store itself.

  class DataStore {
    var clientes: seq<Cliente>
    var servicos: seq<Servico>
    var avaliacoes: seq<Avaliacao>
    var message: Option<Message>
    var storage: Storage

    ghost predicate Valid()
      reads this
    {
      Mirrors(storage, clientes, servicos, avaliacoes)
    }

    /** Mounting: load each collection (or its seed), then run the three
        save effects on what was loaded. */
    constructor (saved: Storage)
      ensures clientes == LoadClientes(saved)
      ensures servicos == LoadServicos(saved)
      ensures avaliacoes == LoadAvaliacoes(saved)
      ensures message == None
      ensures storage == Save(Save(Save(saved, CLIENTES_KEY, StoredClientes(clientes)),
                                   SERVICOS_KEY, StoredServicos(servicos)),
                              AVALIACOES_KEY, StoredAvaliacoes(avaliacoes))
      ensures Valid()
    {
      clientes := LoadClientes(saved);
      servicos := LoadServicos(saved);
      avaliacoes := LoadAvaliacoes(saved);
      message := None;
      storage := Save(Save(Save(saved, CLIENTES_KEY, StoredClientes(LoadClientes(saved))),
                           SERVICOS_KEY, StoredServicos(LoadServicos(saved))),
                      AVALIACOES_KEY, StoredAvaliacoes(LoadAvaliacoes(saved)));
    }

    /** `showMessage(text, type)`; the three-second auto-clear is left out. */
    method ShowMessage(text: string, kind: MessageType)
      modifies this`message
      ensures message == Some(Message(text, kind))
    {
      message := Some(Message(text, kind));
    }

    method SetClientes(cs: seq<Cliente>)
      requires Valid()
      modifies this`clientes, this`storage
      ensures clientes == cs
      ensures storage == Save(old(storage), CLIENTES_KEY, StoredClientes(cs))
      ensures Valid()
    {
      clientes := cs;
      storage := Save(storage, CLIENTES_KEY, StoredClientes(cs));
    }

    method SetServicos(ss: seq<Servico>)
      requires Valid()
      modifies this`servicos, this`storage
      ensures servicos == ss
      ensures storage == Save(old(storage), SERVICOS_KEY, StoredServicos(ss))
      ensures Valid()
    {
      servicos := ss;
      storage := Save(storage, SERVICOS_KEY, StoredServicos(ss));
    }

    method SetAvaliacoes(avs: seq<Avaliacao>)
      requires Valid()
      modifies this`avaliacoes, this`storage
      ensures avaliacoes == avs
      ensures storage == Save(old(storage), AVALIACOES_KEY, StoredAvaliacoes(avs))
      ensures Valid()
    {
      avaliacoes := avs;
      storage := Save(storage, AVALIACOES_KEY, StoredAvaliacoes(avs));
    }

    method AddCliente(form: ClienteForm, freshId: int) returns (c: Cliente)
      requires Valid()
      modifies this`clientes, this`storage
      ensures c == NewCliente(form, freshId) && c.id == freshId
      ensures clientes == old(clientes) + [c]
      ensures storage == old(storage)[CLIENTES_KEY := StoredClientes(clientes)]
      ensures servicos == old(servicos) && avaliacoes == old(avaliacoes) && message == old(message)
      ensures Valid()
    {
      c := NewCliente(form, freshId);
      SetClientes(clientes + [c]);
    }

    method UpdateCliente(id: int, patch: ClientePatch)
      requires Valid()
      modifies this`clientes, this`storage
      ensures clientes == UpdateClientes(old(clientes), id, patch)
      ensures storage == Save(old(storage), CLIENTES_KEY, StoredClientes(clientes))
      ensures servicos == old(servicos) && avaliacoes == old(avaliacoes) && message == old(message)
      ensures Valid()
    {
      SetClientes(UpdateClientes(clientes, id, patch));
    }

    method DeleteCliente(id: int)
      requires Valid()
      modifies this`clientes, this`storage
      ensures clientes == RemoveById(old(clientes), ClienteId, id)
      ensures storage == Save(old(storage), CLIENTES_KEY, StoredClientes(clientes))
      ensures servicos == old(servicos) && avaliacoes == old(avaliacoes) && message == old(message)
      ensures Valid()
    {
      SetClientes(RemoveById(clientes, ClienteId, id));
    }

    method AddServico(form: ServicoForm, freshId: int) returns (s: Servico)
      requires Valid()
      requires form.clienteId.Some? && form.orcamento.Some?
      modifies this`servicos, this`storage
      ensures s == NewServico(form, freshId)
      ensures s.id == freshId && s.clienteId == form.clienteId.value && s.orcamento == form.orcamento.value
      ensures servicos == old(servicos) + [s]
      ensures storage == old(storage)[SERVICOS_KEY := StoredServicos(servicos)]
      ensures clientes == old(clientes) && avaliacoes == old(avaliacoes) && message == old(message)
      ensures Valid()
    {
      s := NewServico(form, freshId);
      SetServicos(servicos + [s]);
    }

    method UpdateServico(id: int, patch: ServicoPatch)
      requires Valid()
      modifies this`servicos, this`storage
      ensures servicos == UpdateServicos(old(servicos), id, patch)
      ensures storage == Save(old(storage), SERVICOS_KEY, StoredServicos(servicos))
      ensures clientes == old(clientes) && avaliacoes == old(avaliacoes) && message == old(message)
      ensures Valid()
    {
      SetServicos(UpdateServicos(servicos, id, patch));
    }

    method DeleteServico(id: int)
      requires Valid()
      modifies this`servicos, this`storage
      ensures servicos == RemoveById(old(servicos), ServicoId, id)
      ensures storage == Save(old(storage), SERVICOS_KEY, StoredServicos(servicos))
      ensures clientes == old(clientes) && avaliacoes == old(avaliacoes) && message == old(message)
      ensures Valid()
    {
      SetServicos(RemoveById(servicos, ServicoId, id));
    }

    /** Appends without looking for an earlier rating of the same service:
        the store alone accepts duplicates. */
    method AddAvaliacao(form: AvaliacaoForm, freshId: int) returns (a: Avaliacao)
      requires Valid()
      requires form.servicoId.Some?
      modifies this`avaliacoes, this`storage
      ensures a == NewAvaliacao(form, freshId)
      ensures a.id == freshId && a.servicoId == form.servicoId.value && a.nota == form.nota
      ensures avaliacoes == old(avaliacoes) + [a]
      ensures storage == old(storage)[AVALIACOES_KEY := StoredAvaliacoes(avaliacoes)]
      ensures clientes == old(clientes) && servicos == old(servicos) && message == old(message)
      ensures Valid()
    {
      a := NewAvaliacao(form, freshId);
      SetAvaliacoes(avaliacoes + [a]);
    }

    method DeleteAvaliacao(id: int)
      requires Valid()
      modifies this`avaliacoes, this`storage
      ensures avaliacoes == RemoveById(old(avaliacoes), AvaliacaoId, id)
      ensures storage == Save(old(storage), AVALIACOES_KEY, StoredAvaliacoes(avaliacoes))
      ensures clientes == old(clientes) && servicos == old(servicos) && message == old(message)
      ensures Valid()
    {
      SetAvaliacoes(RemoveById(avaliacoes, AvaliacaoId, id));
    }
  }
}
