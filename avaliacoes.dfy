/** The ratings page: the checks run before a rating is created, the list
    of services offered for rating, the average score per service type and
    the two star renderings. */
module Avaliacoes {
  import opened Records
  import opened Seqs
  import opened Scores
  import opened Store

  const MSG_SELECIONE_SERVICO: string := "Selecione um serviço!"
  const MSG_SELECIONE_NOTA: string := "Selecione uma nota!"
  const MSG_JA_AVALIADO: string := "Este serviço já foi avaliado!"
  const MSG_CADASTRADA: string := "Avaliação cadastrada com sucesso!"
  const MSG_EXCLUIDA: string := "Avaliação excluída com sucesso!"

  const FORM_VAZIO: AvaliacaoForm := AvaliacaoForm(None, 0, "")

  // ---------------------------------------------------------------------
  // Submission checks and the one-rating-per-service rule.

  /** `avaliacoes.some(a => a.servicoId === id)`. */
  predicate JaAvaliado(avs: seq<Avaliacao>, id: int)
  {
    exists a :: a in avs && a.servicoId == id
  }

  /** The checks of the submit handler in their order; the first that
      fails names the error shown, and `None` means the rating is added. */
  function ErroSubmissao(form: AvaliacaoForm, avs: seq<Avaliacao>): (e: Option<string>)
    ensures e.None? <==> form.servicoId.Some? && form.nota != 0 && !JaAvaliado(avs, form.servicoId.value)
    ensures e == Some(MSG_SELECIONE_SERVICO) <==> form.servicoId.None?
    ensures e == Some(MSG_SELECIONE_NOTA) <==> form.servicoId.Some? && form.nota == 0
    ensures e == Some(MSG_JA_AVALIADO) <==>
      form.servicoId.Some? && form.nota != 0 && JaAvaliado(avs, form.servicoId.value)
  {
    if form.servicoId.None? then Some(MSG_SELECIONE_SERVICO)
    else if form.nota == 0 then Some(MSG_SELECIONE_NOTA)
    else if JaAvaliado(avs, form.servicoId.value) then Some(MSG_JA_AVALIADO)
    else None
  }

  /** No two ratings refer to the same service. */
  ghost predicate UmaPorServico(avs: seq<Avaliacao>)
  {
    forall i, j :: 0 <= i < j < |avs| ==> avs[i].servicoId != avs[j].servicoId
  }

  /** What the page keeps true of the ratings: one per service, each on
      the five-star scale. */
  ghost predicate AvaliacoesValidas(avs: seq<Avaliacao>)
  {
    UmaPorServico(avs) && NotasInRange(avs)
  }

  /** A submit that passes the checks, with a star score from the form,
      keeps the ratings valid. */
  lemma SubmissaoPreservaValidade(form: AvaliacaoForm, avs: seq<Avaliacao>, freshId: int)
    requires AvaliacoesValidas(avs)
    requires 0 <= form.nota <= 5
    requires ErroSubmissao(form, avs).None?
    ensures AvaliacoesValidas(avs + [NewAvaliacao(form, freshId)])
  {
    var a := NewAvaliacao(form, freshId);
    var avs' := avs + [a];
    forall i, j | 0 <= i < j < |avs'| ensures avs'[i].servicoId != avs'[j].servicoId {
      if j == |avs| {
        assert avs'[i] in avs;
      }
    }
  }

  /** The ratings loaded at start-up are valid: the seed ratings are, and so
      is a stored list that was valid when it was saved. */
  lemma CargaValida(st: Storage)
    requires AVALIACOES_KEY in st && st[AVALIACOES_KEY].StoredAvaliacoes? ==>
      AvaliacoesValidas(st[AVALIACOES_KEY].avaliacoes)
    ensures AvaliacoesValidas(LoadAvaliacoes(st))
  {
  }

  /** Deleting a rating keeps the ratings valid. */
  lemma ExclusaoPreservaValidade(avs: seq<Avaliacao>, id: int)
    requires AvaliacoesValidas(avs)
    ensures AvaliacoesValidas(RemoveById(avs, AvaliacaoId, id))
  {
    RemoveKeepsDistinct(avs, AvaliacaoId, id, (a: Avaliacao) => a.servicoId);
  }

  /** Without the checks the store takes a second rating of a service: the
      rule lives in the page alone. */
  lemma StoreAceitaDuplicata(avs: seq<Avaliacao>, form: AvaliacaoForm, freshId: int)
    requires form.servicoId.Some? && JaAvaliado(avs, form.servicoId.value)
    ensures !UmaPorServico(avs + [NewAvaliacao(form, freshId)])
    ensures ErroSubmissao(form, avs).Some?
  {
    var a :| a in avs && a.servicoId == form.servicoId.value;
    var i :| 0 <= i < |avs| && avs[i] == a;
    var avs' := avs + [NewAvaliacao(form, freshId)];
    assert avs'[i].servicoId == avs'[|avs|].servicoId;
  }

  // ---------------------------------------------------------------------
  // The service select.

  /** One `<option>`: the service it stands for and whether it is disabled. */
  datatype Opcao = Opcao(servicoId: int, desabilitada: bool)

  /** One option per completed service, in order, disabled when the
      service already has a rating. */
  function Opcoes(ss: seq<Servico>, avs: seq<Avaliacao>): (os: seq<Opcao>)
    ensures |os| == |Filter(ss, IsConcluido)|
    ensures forall i :: 0 <= i < |os| ==> os[i].servicoId == Filter(ss, IsConcluido)[i].id
    ensures forall i :: 0 <= i < |os| ==> (os[i].desabilitada <==> JaAvaliado(avs, os[i].servicoId))
  {
    var concluidos := Filter(ss, IsConcluido);
    seq(|concluidos|, i requires 0 <= i < |concluidos| =>
      Opcao(concluidos[i].id, JaAvaliado(avs, concluidos[i].id)))
  }

  /** Every option stands for a completed service, and choosing an enabled
      one with a star score passes every check of the submit. */
  lemma OpcoesRule(ss: seq<Servico>, avs: seq<Avaliacao>, nota: int, comentario: string)
    requires 1 <= nota <= 5
    ensures forall o :: o in Opcoes(ss, avs) ==>
      exists s :: s in ss && s.id == o.servicoId && s.status == CONCLUIDO
    ensures forall o :: o in Opcoes(ss, avs) && !o.desabilitada ==>
      ErroSubmissao(AvaliacaoForm(Some(o.servicoId), nota, comentario), avs).None?
  {
    OpcoesConcluidas(ss, avs);
  }

  /** Every option stands for a completed service. */
  lemma OpcoesConcluidas(ss: seq<Servico>, avs: seq<Avaliacao>)
    ensures forall o :: o in Opcoes(ss, avs) ==>
      exists s :: s in ss && s.id == o.servicoId && s.status == CONCLUIDO
  {
    var os := Opcoes(ss, avs);
    var concluidos := Filter(ss, IsConcluido);
    forall o | o in os ensures exists s :: s in ss && s.id == o.servicoId && s.status == CONCLUIDO {
      var i :| 0 <= i < |os| && os[i] == o;
      assert concluidos[i] in concluidos;
    }
  }

  // ---------------------------------------------------------------------
  // Average score per service type.

  /** `avaliacoes.filter(a => a.servicoId === id)`. */
  function AvaliacoesDoServico(avs: seq<Avaliacao>, id: int): seq<Avaliacao>
  {
    Filter(avs, (a: Avaliacao) => a.servicoId == id)
  }

  /** A rating added to the store joins the list of its own service only. */
  lemma AvaliacoesDoServicoSnoc(avs: seq<Avaliacao>, a: Avaliacao, id: int)
    ensures AvaliacoesDoServico(avs + [a], id) ==
      AvaliacoesDoServico(avs, id) + if a.servicoId == id then [a] else []
  {
    FilterSnoc(avs, a, (a: Avaliacao) => a.servicoId == id);
  }

  function Soma(a: Score, b: Score): Score
  {
    Score(a.soma + b.soma, a.count + b.count)
  }

  lemma SomaTroca(x: Score, y: Score, z: Score, w: Score)
    ensures Soma(Soma(x, y), Soma(z, w)) == Soma(Soma(x, z), Soma(y, w))
  {
  }

  /** A type counts as rated when some service of that type has a rating. */
  ghost predicate TipoAvaliado(ss: seq<Servico>, avs: seq<Avaliacao>, t: string)
  {
    exists s :: s in ss && s.tipoServico == t && |AvaliacoesDoServico(avs, s.id)| > 0
  }

  /** The rated types in order of first appearance among the services: the
      key order of `mediasPorTipo`. */
  function TiposAvaliados(ss: seq<Servico>, avs: seq<Avaliacao>): (ts: seq<string>)
    ensures Distinct(ts)
    ensures forall t :: t in ts <==> TipoAvaliado(ss, avs, t)
  {
    if ss == [] then []
    else
      var init := ss[..|ss| - 1];
      var s := ss[|ss| - 1];
      assert forall x :: x in ss <==> x in init || x == s;
      var prev := TiposAvaliados(init, avs);
      if |AvaliacoesDoServico(avs, s.id)| > 0 && s.tipoServico !in prev then prev + [s.tipoServico]
      else prev
  }

  /** One more service adds its type to the end when it is rated and its
      type is not listed yet. */
  lemma TiposAvaliadosSnoc(ss: seq<Servico>, s: Servico, avs: seq<Avaliacao>)
    ensures TiposAvaliados(ss + [s], avs) ==
      var prev := TiposAvaliados(ss, avs);
      if |AvaliacoesDoServico(avs, s.id)| > 0 && s.tipoServico !in prev then prev + [s.tipoServico] else prev
  {
    assert (ss + [s])[..|ss + [s]| - 1] == ss;
  }

  /** The `{ soma, count }` entry of type `t` once every service is done. */
  function PlacarTipo(ss: seq<Servico>, avs: seq<Avaliacao>, t: string): Score
  {
    if ss == [] then Score(0, 0)
    else
      Soma(PlacarTipo(ss[..|ss| - 1], avs, t), Parcela(ss[|ss| - 1], avs, t))
  }

  /** The share of one service in the entry of type `t`. */
  function Parcela(s: Servico, avs: seq<Avaliacao>, t: string): Score
  {
    if s.tipoServico == t then Placar(AvaliacoesDoServico(avs, s.id)) else Score(0, 0)
  }

  /** One more service adds its own ratings to its type's entry only. */
  lemma PlacarTipoSnoc(ss: seq<Servico>, s: Servico, avs: seq<Avaliacao>, t: string)
    ensures PlacarTipo(ss + [s], avs, t) == Soma(PlacarTipo(ss, avs, t), Parcela(s, avs, t))
  {
    assert (ss + [s])[..|ss + [s]| - 1] == ss;
  }

  /** A type with no rated service has an empty entry. */
  lemma {:induction false} PlacarTipoNaoAvaliado(ss: seq<Servico>, avs: seq<Avaliacao>, t: string)
    requires !TipoAvaliado(ss, avs, t)
    ensures PlacarTipo(ss, avs, t) == Score(0, 0)
  {
    if ss != [] {
      var init := ss[..|ss| - 1];
      var s := ss[|ss| - 1];
      assert s in ss;
      forall x | x in init && x.tipoServico == t ensures |AvaliacoesDoServico(avs, x.id)| == 0 {
        assert x in ss;
      }
      PlacarTipoNaoAvaliado(init, avs, t);
      if s.tipoServico == t {
        assert AvaliacoesDoServico(avs, s.id) == [];
      }
    }
  }

  /** One row of the per-type table. */
  datatype MediaTipo = MediaTipo(tipo: string, soma: int, totalAvaliacoes: nat)

  /** The value the table sorts on: `media`, one decimal, in tenths. */
  function Media(m: MediaTipo): int
  {
    MeanTenths(Score(m.soma, m.totalAvaliacoes))
  }

  /** The rows before sorting, described without the loops. */
  function Linhas(ss: seq<Servico>, avs: seq<Avaliacao>): seq<MediaTipo>
  {
    var ts := TiposAvaliados(ss, avs);
    seq(|ts|, i requires 0 <= i < |ts| =>
      MediaTipo(ts[i], PlacarTipo(ss, avs, ts[i]).soma, PlacarTipo(ss, avs, ts[i]).count))
  }

  /** Every row counts at least one rating, and with scores on the
      five-star scale its mean shows between 1.0 and 5.0. */
  lemma LinhasNoIntervalo(ss: seq<Servico>, avs: seq<Avaliacao>)
    ensures forall r :: r in Linhas(ss, avs) ==> r.totalAvaliacoes >= 1
    ensures NotasInRange(avs) ==> forall r :: r in Linhas(ss, avs) ==> 10 <= Media(r) <= 50
  {
    var ts := TiposAvaliados(ss, avs);
    var ls := Linhas(ss, avs);
    forall r | r in ls
      ensures r.totalAvaliacoes >= 1
      ensures NotasInRange(avs) ==> 10 <= Media(r) <= 50
    {
      var k :| 0 <= k < |ls| && ls[k] == r;
      PlacarTipoAvaliado(ss, avs, ts[k]);
      if NotasInRange(avs) {
        PlacarTipoLimites(ss, avs, ts[k]);
        MeanTenthsBounds(Score(r.soma, r.totalAvaliacoes));
      }
    }
  }

  /** A rated type's entry counts at least one rating. */
  lemma {:induction false} PlacarTipoAvaliado(ss: seq<Servico>, avs: seq<Avaliacao>, t: string)
    requires TipoAvaliado(ss, avs, t)
    ensures PlacarTipo(ss, avs, t).count >= 1
  {
    var w :| w in ss && w.tipoServico == t && |AvaliacoesDoServico(avs, w.id)| > 0;
    var init := ss[..|ss| - 1];
    var s := ss[|ss| - 1];
    assert ss == init + [s];
    if w != s {
      assert w in init;
      PlacarTipoAvaliado(init, avs, t);
    }
  }

  /** With scores on the five-star scale, an entry's sum lies between one
      and five points per counted rating. */
  lemma {:induction false} PlacarTipoLimites(ss: seq<Servico>, avs: seq<Avaliacao>, t: string)
    requires NotasInRange(avs)
    ensures PlacarTipo(ss, avs, t).count <= PlacarTipo(ss, avs, t).soma <= 5 * PlacarTipo(ss, avs, t).count
  {
    if ss != [] {
      var s := ss[|ss| - 1];
      PlacarTipoLimites(ss[..|ss| - 1], avs, t);
      var d := AvaliacoesDoServico(avs, s.id);
      assert NotasInRange(d);
      SumNotasBounds(d);
    }
  }

  /** The per-type table reads the ratings only through each service's own
      list of ratings. */
  lemma {:induction false} MesmasAvaliacoesPorServico(ss: seq<Servico>, avs: seq<Avaliacao>, avs': seq<Avaliacao>)
    requires forall s :: s in ss ==> AvaliacoesDoServico(avs, s.id) == AvaliacoesDoServico(avs', s.id)
    ensures TiposAvaliados(ss, avs) == TiposAvaliados(ss, avs')
    ensures forall t :: PlacarTipo(ss, avs, t) == PlacarTipo(ss, avs', t)
  {
    if ss != [] {
      var init := ss[..|ss| - 1];
      assert ss[|ss| - 1] in ss;
      assert forall s :: s in init ==> s in ss;
      MesmasAvaliacoesPorServico(init, avs, avs');
    }
  }

  /** A rating whose service no longer exists (its service was deleted)
      leaves the per-type table as it was. */
  lemma AvaliacaoOrfaIgnorada(ss: seq<Servico>, avs: seq<Avaliacao>, a: Avaliacao)
    requires forall s :: s in ss ==> s.id != a.servicoId
    ensures Linhas(ss, avs + [a]) == Linhas(ss, avs)
  {
    forall s | s in ss ensures AvaliacoesDoServico(avs + [a], s.id) == AvaliacoesDoServico(avs, s.id) {
      AvaliacoesDoServicoSnoc(avs, a, s.id);
    }
    MesmasAvaliacoesPorServico(ss, avs + [a], avs);
  }

  /** Some service with id `id` has type `t`. */
  predicate ServicoDoTipo(ss: seq<Servico>, id: int, t: string)
  {
    exists s :: s in ss && s.id == id && s.tipoServico == t
  }

  /** A rating belongs to type `t` when the service it rates has type `t`. */
  function DoTipo(ss: seq<Servico>, t: string): Avaliacao -> bool
  {
    (a: Avaliacao) => ServicoDoTipo(ss, a.servicoId, t)
  }

  /** No two services share an id. */
  ghost predicate IdsUnicos(ss: seq<Servico>)
  {
    forall i, j :: 0 <= i < j < |ss| ==> ss[i].id != ss[j].id
  }

  /** What one rating `a` adds to the entry of type `t`: its score once
      for every service with its id and type `t`. */
  function Acrescimo(ss: seq<Servico>, a: Avaliacao, t: string): Score
  {
    if ss == [] then Score(0, 0)
    else Soma(Acrescimo(ss[..|ss| - 1], a, t), AcrescimoDe(ss[|ss| - 1], a, t))
  }

  function AcrescimoDe(s: Servico, a: Avaliacao, t: string): Score
  {
    if s.id == a.servicoId && s.tipoServico == t then Score(a.nota, 1) else Score(0, 0)
  }

  lemma AcrescimoSnoc(ss: seq<Servico>, s: Servico, a: Avaliacao, t: string)
    ensures Acrescimo(ss + [s], a, t) == Soma(Acrescimo(ss, a, t), AcrescimoDe(s, a, t))
  {
    assert (ss + [s])[..|ss + [s]| - 1] == ss;
  }

  lemma ServicoDoTipoSnoc(ss: seq<Servico>, s: Servico, id: int, t: string)
    ensures ServicoDoTipo(ss + [s], id, t) <==> ServicoDoTipo(ss, id, t) || (s.id == id && s.tipoServico == t)
  {
    if ServicoDoTipo(ss + [s], id, t) {
      var w :| w in ss + [s] && w.id == id && w.tipoServico == t;
      assert w in ss || w == s;
    }
    if ServicoDoTipo(ss, id, t) {
      var w :| w in ss && w.id == id && w.tipoServico == t;
      assert w in ss + [s];
    }
    if s.id == id && s.tipoServico == t {
      assert s in ss + [s];
    }
  }

  /** The last of a set of services with unique ids shares its id with none
      of the others. */
  lemma IdsUnicosSnoc(ss: seq<Servico>, s: Servico)
    requires IdsUnicos(ss + [s])
    ensures IdsUnicos(ss)
    ensures forall x :: x in ss ==> x.id != s.id
  {
    var all := ss + [s];
    forall i, j | 0 <= i < j < |ss| ensures ss[i].id != ss[j].id {
      assert all[i] == ss[i] && all[j] == ss[j];
    }
    forall x | x in ss ensures x.id != s.id {
      var i :| 0 <= i < |ss| && ss[i] == x;
      assert all[i] == x && all[|ss|] == s;
    }
  }

  /** With unique ids, a rating's service is counted once or not at all. */
  lemma {:induction false} AcrescimoUnico(ss: seq<Servico>, a: Avaliacao, t: string)
    requires IdsUnicos(ss)
    ensures Acrescimo(ss, a, t) == if ServicoDoTipo(ss, a.servicoId, t) then Score(a.nota, 1) else Score(0, 0)
  {
    if ss != [] {
      var init := ss[..|ss| - 1];
      var s := ss[|ss| - 1];
      assert ss == init + [s];
      IdsUnicosSnoc(init, s);
      AcrescimoUnico(init, a, t);
      AcrescimoSnoc(init, s, a, t);
      ServicoDoTipoSnoc(init, s, a.servicoId, t);
      if s.id == a.servicoId {
        assert !ServicoDoTipo(init, a.servicoId, t);
      }
    }
  }

  /** The score of a list of ratings grows by the appended rating. */
  lemma PlacarSnoc(d: seq<Avaliacao>, a: Avaliacao)
    ensures Placar(d + [a]) == Score(Placar(d).soma + a.nota, Placar(d).count + 1)
  {
    assert (d + [a])[..|d + [a]| - 1] == d;
  }

  lemma ParcelaNovaAvaliacao(s: Servico, avs: seq<Avaliacao>, a: Avaliacao, t: string)
    ensures Parcela(s, avs + [a], t) == Soma(Parcela(s, avs, t), AcrescimoDe(s, a, t))
  {
    AvaliacoesDoServicoSnoc(avs, a, s.id);
    var d := AvaliacoesDoServico(avs, s.id);
    if a.servicoId == s.id {
      PlacarSnoc(d, a);
    } else {
      assert d + [] == d;
    }
  }

  /** A rating added to the store adds its score to the entry of type `t`
      once for every service with its id and type `t`. */
  lemma {:induction false} PlacarTipoNovaAvaliacao(ss: seq<Servico>, avs: seq<Avaliacao>, a: Avaliacao, t: string)
    ensures PlacarTipo(ss, avs + [a], t) == Soma(PlacarTipo(ss, avs, t), Acrescimo(ss, a, t))
  {
    if ss != [] {
      var init := ss[..|ss| - 1];
      var s := ss[|ss| - 1];
      PlacarTipoNovaAvaliacao(init, avs, a, t);
      ParcelaNovaAvaliacao(s, avs, a, t);
      assert PlacarTipo(ss, avs + [a], t) == Soma(PlacarTipo(init, avs + [a], t), Parcela(s, avs + [a], t));
      assert PlacarTipo(ss, avs, t) == Soma(PlacarTipo(init, avs, t), Parcela(s, avs, t));
      assert Acrescimo(ss, a, t) == Soma(Acrescimo(init, a, t), AcrescimoDe(s, a, t));
      SomaTroca(PlacarTipo(init, avs, t), Acrescimo(init, a, t), Parcela(s, avs, t), AcrescimoDe(s, a, t));
    }
  }

  /** With no ratings every entry is empty. */
  lemma {:induction false} PlacarTipoSemAvaliacoes(ss: seq<Servico>, t: string)
    ensures PlacarTipo(ss, [], t) == Score(0, 0)
  {
    if ss != [] {
      PlacarTipoSemAvaliacoes(ss[..|ss| - 1], t);
    }
  }

  /** What the per-type loop means: with unique service ids, the entry of
      type `t` sums exactly the ratings whose service has type `t`, each
      once, and ratings of deleted services count nowhere. */
  lemma {:induction false} PlacarTipoDireto(ss: seq<Servico>, avs: seq<Avaliacao>, t: string)
    requires IdsUnicos(ss)
    ensures PlacarTipo(ss, avs, t) == Placar(Filter(avs, DoTipo(ss, t)))
  {
    if avs == [] {
      PlacarTipoSemAvaliacoes(ss, t);
    } else {
      var init := avs[..|avs| - 1];
      var a := avs[|avs| - 1];
      assert avs == init + [a];
      PlacarTipoDireto(ss, init, t);
      PlacarTipoNovaAvaliacao(ss, init, a, t);
      AcrescimoUnico(ss, a, t);
      FilterSnoc(init, a, DoTipo(ss, t));
      var f := Filter(init, DoTipo(ss, t));
      if ServicoDoTipo(ss, a.servicoId, t) {
        assert Filter(avs, DoTipo(ss, t)) == f + [a];
        PlacarSnoc(f, a);
      } else {
        assert Filter(avs, DoTipo(ss, t)) == f;
      }
    }
  }

  /** The inner `forEach`: adds each rating of one service to the entry of
      type `t`, one score and one count at a time. */
  method SomarAvaliacoes(acc: map<string, Score>, t: string, doServico: seq<Avaliacao>)
    returns (acc': map<string, Score>)
    requires t in acc
    ensures acc' == acc[t := Soma(acc[t], Placar(doServico))]
  {
    acc' := acc;
    var j := 0;
    while j < |doServico|
      invariant 0 <= j <= |doServico|
      invariant acc' == acc[t := Soma(acc[t], Placar(doServico[..j]))]
    {
      assert doServico[..j + 1][..j] == doServico[..j];
      acc' := acc'[t := Score(acc'[t].soma + doServico[j].nota, acc'[t].count + 1)];
      j := j + 1;
    }
    assert doServico[..j] == doServico;
  }

  /** The body of the outer `forEach` for one service `s`: if it has
      ratings, the entry of its type is created when missing and then
      grows by them. Afterwards the entries describe `pre + [s]`. */
  method AcumularServico(keys: seq<string>, acc: map<string, Score>, ss: seq<Servico>, i: nat, avs: seq<Avaliacao>)
    returns (keys': seq<string>, acc': map<string, Score>)
    requires i < |ss|
    requires keys == TiposAvaliados(ss[..i], avs)
    requires forall t :: t in acc <==> t in keys
    requires forall t :: t in acc ==> acc[t] == PlacarTipo(ss[..i], avs, t)
    ensures keys' == TiposAvaliados(ss[..i + 1], avs)
    ensures forall t :: t in acc' <==> t in keys'
    ensures forall t :: t in acc' ==> acc'[t] == PlacarTipo(ss[..i + 1], avs, t)
  {
    ghost var pre := ss[..i];
    var s := ss[i];
    ghost var prefix := pre + [s];
    assert ss[..i + 1] == prefix;
    TiposAvaliadosSnoc(pre, s, avs);
    var doServico := AvaliacoesDoServico(avs, s.id);
    var t := s.tipoServico;
    keys', acc' := keys, acc;
    if |doServico| > 0 {
      if t !in acc' {
        acc' := acc'[t := Score(0, 0)];
        keys' := keys' + [t];
      }
      acc' := SomarAvaliacoes(acc', t, doServico);
    } else {
      assert Placar(doServico) == Score(0, 0);
    }
    assert Parcela(s, avs, t) == Placar(doServico);
    forall u | u in acc' ensures acc'[u] == PlacarTipo(prefix, avs, u) {
      PlacarTipoSnoc(pre, s, avs, u);
      if u != t {
        assert Parcela(s, avs, u) == Score(0, 0);
      } else if u !in acc {
        PlacarTipoNaoAvaliado(pre, avs, u);
      }
    }
  }

  /** `calcularNotaMediaPorTipo`: nested `forEach` loops accumulate one
      `{ soma, count }` entry per type, then the rows are sorted by mean. */
  method CalcularNotaMediaPorTipo(ss: seq<Servico>, avs: seq<Avaliacao>) returns (rows: seq<MediaTipo>)
    ensures rows == SortDesc(Linhas(ss, avs), Media)
    ensures SortedDesc(rows, Media)
  {
    var keys: seq<string> := [];
    var acc: map<string, Score> := map[];
    var i := 0;
    while i < |ss|
      invariant 0 <= i <= |ss|
      invariant keys == TiposAvaliados(ss[..i], avs)
      invariant forall t :: t in acc <==> t in keys
      invariant forall t :: t in acc ==> acc[t] == PlacarTipo(ss[..i], avs, t)
    {
      keys, acc := AcumularServico(keys, acc, ss, i, avs);
      i := i + 1;
    }
    assert ss[..i] == ss;
    var unsorted := MontarLinhas(keys, acc, ss, avs);
    rows := SortDesc(unsorted, Media);
  }

  /** `Object.entries(tipos).map(...)`: one row per key, in key order. */
  method MontarLinhas(keys: seq<string>, acc: map<string, Score>, ghost ss: seq<Servico>, avs: seq<Avaliacao>)
    returns (unsorted: seq<MediaTipo>)
    requires keys == TiposAvaliados(ss, avs)
    requires forall t :: t in acc <==> t in keys
    requires forall t :: t in acc ==> acc[t] == PlacarTipo(ss, avs, t)
    ensures unsorted == Linhas(ss, avs)
  {
    unsorted := seq(|keys|, k requires 0 <= k < |keys| =>
      MediaTipo(keys[k], acc[keys[k]].soma, acc[keys[k]].count));
  }

  // ---------------------------------------------------------------------
  // Stars.

  function Repete(c: char, n: nat): (r: string)
    ensures |r| == n
    ensures forall i :: 0 <= i < n ==> r[i] == c
  {
    if n == 0 then [] else [c] + Repete(c, n - 1)
  }

  /** `'★'.repeat(nota) + '☆'.repeat(5 - nota)` of the ratings table. */
  function EstrelasTabela(nota: int): (r: string)
    requires 0 <= nota <= 5
    ensures |r| == 5
    ensures forall i :: 0 <= i < 5 ==> (r[i] == '★' <==> i < nota)
    ensures forall i :: 0 <= i < 5 ==> (r[i] == '☆' <==> nota <= i)
  {
    Repete('★', nota) + Repete('☆', 5 - nota)
  }

  /** The score `renderStars` fills up to: the hovered star on the form
      (`hoverRating || nota`), the score itself elsewhere. */
  function NotaExibida(nota: int, hover: int, clicavel: bool): int
  {
    if clicavel && hover != 0 then hover else nota
  }

  /** `renderStars`: star k (1 to 5) is filled iff k is at most the shown score. */
  function RenderStars(nota: int, hover: int, clicavel: bool): (filled: seq<bool>)
    ensures |filled| == 5
    ensures forall i :: 0 <= i < 5 ==> (filled[i] <==> i + 1 <= NotaExibida(nota, hover, clicavel))
  {
    seq(5, i requires 0 <= i < 5 => i + 1 <= NotaExibida(nota, hover, clicavel))
  }

  /** With no star hovered, the form's clickable stars fill exactly the
      stars the ratings table shows for the same score. */
  lemma EstrelasConcordam(nota: int)
    requires 0 <= nota <= 5
    ensures forall i :: 0 <= i < 5 ==> (RenderStars(nota, 0, true)[i] <==> EstrelasTabela(nota)[i] == '★')
  {
  }

  /** `Math.round(parseFloat(media))` of a mean shown in tenths: half up. */
  function EstrelasArredondadas(m: int): (n: int)
    requires 0 <= m <= 50
    ensures 0 <= n <= 5
    ensures 10 * n - 5 <= m < 10 * n + 5
  {
    (m + 5) / 10
  }

  /** The stars of a row of the per-type table: the mean rounded to whole
      stars, full ones first. */
  function EstrelasMedia(m: int): (r: string)
    requires 0 <= m <= 50
    ensures |r| == 5
    ensures forall i :: 0 <= i < 5 ==> (r[i] == '★' <==> 10 * i + 5 <= m)
  {
    EstrelasTabela(EstrelasArredondadas(m))
  }

  // ---------------------------------------------------------------------
  // The page.

  class PaginaAvaliacoes {
    const store: DataStore
    var form: AvaliacaoForm
    var hoverRating: int

    /** Star clicks and hovers only ever produce 0 to 5. */
    ghost predicate Valid()
      reads this, store
    {
      store.Valid() && 0 <= form.nota <= 5 && 0 <= hoverRating <= 5
    }

    constructor (store: DataStore)
      requires store.Valid()
      ensures this.store == store && form == FORM_VAZIO && hoverRating == 0
      ensures Valid()
    {
      this.store := store;
      form := FORM_VAZIO;
      hoverRating := 0;
    }

    /** The chosen service is a completed one. */
    ghost predicate SelecaoConcluida()
      reads this, store
    {
      form.servicoId.Some? ==>
        exists s :: s in store.servicos && s.id == form.servicoId.value && s.status == CONCLUIDO
    }

    /** The select's `onChange`: the empty choice, or one of its enabled
        options. */
    method SelecionarServico(servicoId: Option<int>)
      requires servicoId.None? ||
        (exists o :: o in Opcoes(store.servicos, store.avaliacoes) && !o.desabilitada && o.servicoId == servicoId.value)
      modifies this`form
      ensures form == old(form).(servicoId := servicoId)
      ensures SelecaoConcluida()
      ensures servicoId.Some? ==> !JaAvaliado(store.avaliacoes, servicoId.value)
    {
      OpcoesConcluidas(store.servicos, store.avaliacoes);
      form := form.(servicoId := servicoId);
    }

    /** Clicking star `star` of the form sets the score. */
    method ClicarEstrela(star: int)
      requires Valid() && 1 <= star <= 5
      modifies this`form
      ensures form == old(form).(nota := star)
      ensures Valid()
    {
      form := form.(nota := star);
    }

    method EntrarEstrela(star: int)
      requires Valid() && 1 <= star <= 5
      modifies this`hoverRating
      ensures hoverRating == star
      ensures Valid()
    {
      hoverRating := star;
    }

    method SairEstrela()
      requires Valid()
      modifies this`hoverRating
      ensures hoverRating == 0
      ensures Valid()
    {
      hoverRating := 0;
    }

    method EditarComentario(comentario: string)
      modifies this`form
      ensures form == old(form).(comentario := comentario)
    {
      form := form.(comentario := comentario);
    }

    /** `handleSubmit`: the ordered checks, then exactly one rating added and
        the form reset; a failed check adds nothing and keeps the form. */
    method Submeter(freshId: int)
      requires Valid()
      modifies this`form, store`avaliacoes, store`storage, store`message
      ensures Valid()
      ensures store.clientes == old(store.clientes) && store.servicos == old(store.servicos)
      ensures old(ErroSubmissao(form, store.avaliacoes)).Some? ==>
        && store.avaliacoes == old(store.avaliacoes)
        && store.storage == old(store.storage)
        && form == old(form)
        && store.message == Some(Message(old(ErroSubmissao(form, store.avaliacoes)).value, Error))
      ensures old(ErroSubmissao(form, store.avaliacoes)).None? ==>
        && store.avaliacoes == old(store.avaliacoes) + [NewAvaliacao(old(form), freshId)]
        && store.storage == old(store.storage)[AVALIACOES_KEY := StoredAvaliacoes(store.avaliacoes)]
        && 1 <= store.avaliacoes[|store.avaliacoes| - 1].nota <= 5
        && form == FORM_VAZIO
        && store.message == Some(Message(MSG_CADASTRADA, Success))
      ensures AvaliacoesValidas(old(store.avaliacoes)) ==> AvaliacoesValidas(store.avaliacoes)
      ensures old(SelecaoConcluida()) && old(ErroSubmissao(form, store.avaliacoes)).None? ==>
        exists s :: s in store.servicos && s.id == old(form).servicoId.value && s.status == CONCLUIDO
    {
      var erro := ErroSubmissao(form, store.avaliacoes);
      if erro.Some? {
        store.ShowMessage(erro.value, Error);
        return;
      }
      if AvaliacoesValidas(store.avaliacoes) {
        SubmissaoPreservaValidade(form, store.avaliacoes, freshId);
      }
      var _ := store.AddAvaliacao(form, freshId);
      store.ShowMessage(MSG_CADASTRADA, Success);
      form := FORM_VAZIO;
    }

    /** `handleDelete`: removes the rating only when the user confirms. */
    method Excluir(id: int, confirmado: bool)
      requires Valid()
      modifies store`avaliacoes, store`storage, store`message
      ensures Valid()
      ensures store.clientes == old(store.clientes) && store.servicos == old(store.servicos)
      ensures confirmado ==>
        store.avaliacoes == RemoveById(old(store.avaliacoes), AvaliacaoId, id) &&
        store.storage == Save(old(store.storage), AVALIACOES_KEY, StoredAvaliacoes(store.avaliacoes)) &&
        store.message == Some(Message(MSG_EXCLUIDA, Success))
      ensures !confirmado ==>
        store.avaliacoes == old(store.avaliacoes) && store.storage == old(store.storage) &&
        store.message == old(store.message)
      ensures AvaliacoesValidas(old(store.avaliacoes)) ==> AvaliacoesValidas(store.avaliacoes)
    {
      if confirmado {
        if AvaliacoesValidas(store.avaliacoes) {
          ExclusaoPreservaValidade(store.avaliacoes, id);
        }
        store.DeleteAvaliacao(id);
        store.ShowMessage(MSG_EXCLUIDA, Success);
      }
    }
  }
}
