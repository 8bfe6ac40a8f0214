/** The dashboard's figures: completed services, the overall average score,
    the demand ranking per client and the five most requested service
    types with their share of all services. */
module Dashboard {
  import opened Records
  import opened Seqs
  import opened Scores

  // ---------------------------------------------------------------------
  // Completed services and the overall average.

  /** `servicos.filter(s => s.status === 'Concluído').length`. */
  function ServicosConcluidos(ss: seq<Servico>): (n: nat)
    ensures n <= |ss|
    ensures n == 0 <==> forall s :: s in ss ==> s.status != CONCLUIDO
    ensures n == |ss| <==> forall s :: s in ss ==> s.status == CONCLUIDO
  {
    var kept := Filter(ss, IsConcluido);
    assert kept != [] ==> kept[0] in kept;
    |kept|
  }

  /** `notaMedia` is the mean of `Placar(avaliacoes)`. With no ratings it shows 0; with ratings on the five-star
      scale it shows between 1.0 and 5.0. */
  lemma NotaMediaRange(avs: seq<Avaliacao>)
    requires NotasInRange(avs)
    ensures avs == [] ==> MeanTenths(Placar(avs)) == 0
    ensures avs != [] ==> 10 <= MeanTenths(Placar(avs)) <= 50
  {
    SumNotasBounds(avs);
    if avs != [] {
      MeanTenthsBounds(Placar(avs));
    }
  }

  // ---------------------------------------------------------------------
  // Demand ranking per client.

  /** A client spread with its service count. */
  datatype Demanda = Demanda(cliente: Cliente, totalServicos: nat)

  function ServicosDoCliente(ss: seq<Servico>, clienteId: int): seq<Servico>
  {
    Filter(ss, (s: Servico) => s.clienteId == clienteId)
  }

  /** `clientes.map(cliente => ({...cliente, totalServicos: ...}))`. */
  function Demandas(cs: seq<Cliente>, ss: seq<Servico>): (r: seq<Demanda>)
    ensures |r| == |cs|
    ensures forall i :: 0 <= i < |cs| ==> r[i] == Demanda(cs[i], |ServicosDoCliente(ss, cs[i].id)|)
  {
    if cs == [] then []
    else [Demanda(cs[0], |ServicosDoCliente(ss, cs[0].id)|)] + Demandas(cs[1..], ss)
  }

  function TemServicos(d: Demanda): bool { d.totalServicos > 0 }

  function TotalServicos(d: Demanda): int { d.totalServicos }

  /** `.filter(c => c.totalServicos > 0).sort((a, b) => b.totalServicos - a.totalServicos)`. */
  function ClientesDemanda(cs: seq<Cliente>, ss: seq<Servico>): (r: seq<Demanda>)
    ensures SortedDesc(r, TotalServicos)
    ensures multiset(r) == multiset(Filter(Demandas(cs, ss), TemServicos))
  {
    SortDesc(Filter(Demandas(cs, ss), TemServicos), TotalServicos)
  }

  /** Clients with the same number of services keep the client list's order. */
  lemma ClientesDemandaEmpates(cs: seq<Cliente>, ss: seq<Servico>, q: int)
    ensures Filter(ClientesDemanda(cs, ss), (d: Demanda) => TotalServicos(d) == q) ==
      Filter(Filter(Demandas(cs, ss), TemServicos), (d: Demanda) => TotalServicos(d) == q)
  {
    SortDescStable(Filter(Demandas(cs, ss), TemServicos), TotalServicos, q, (d: Demanda) => TotalServicos(d) == q);
  }

  /** Each row carries a client and that client's true service count, and
      exactly the clients with at least one service have a row. */
  lemma ClientesDemandaRows(cs: seq<Cliente>, ss: seq<Servico>)
    ensures forall d :: d in ClientesDemanda(cs, ss) ==>
      d.cliente in cs && d.totalServicos == |ServicosDoCliente(ss, d.cliente.id)| > 0
    ensures forall c :: c in cs && |ServicosDoCliente(ss, c.id)| > 0 ==>
      Demanda(c, |ServicosDoCliente(ss, c.id)|) in ClientesDemanda(cs, ss)
  {
    var ds := Demandas(cs, ss);
    var kept := Filter(ds, TemServicos);
    var r := ClientesDemanda(cs, ss);
    forall d | d in r
      ensures d.cliente in cs && d.totalServicos == |ServicosDoCliente(ss, d.cliente.id)| > 0
    {
      assert d in multiset(r);
      assert d in kept;
      var i :| 0 <= i < |ds| && ds[i] == d;
    }
    forall c | c in cs && |ServicosDoCliente(ss, c.id)| > 0
      ensures Demanda(c, |ServicosDoCliente(ss, c.id)|) in r
    {
      var i :| 0 <= i < |cs| && cs[i] == c;
      assert ds[i] in kept;
      assert ds[i] in multiset(r);
    }
  }

  // ---------------------------------------------------------------------
  // Service-type popularity.

  /** How many services carry type `t`. */
  function ContaTipo(ss: seq<Servico>, t: string): (n: nat)
    ensures n <= |ss|
    ensures n > 0 <==> exists s :: s in ss && s.tipoServico == t
  {
    if ss == [] then 0
    else
      var init := ss[..|ss| - 1];
      assert forall s :: s in ss <==> s in init || s == ss[|ss| - 1];
      ContaTipo(init, t) + (if ss[|ss| - 1].tipoServico == t then 1 else 0)
  }

  lemma ContaTipoSnoc(ss: seq<Servico>, s: Servico, t: string)
    ensures ContaTipo(ss + [s], t) == ContaTipo(ss, t) + if s.tipoServico == t then 1 else 0
  {
    assert (ss + [s])[..|ss + [s]| - 1] == ss;
  }

  /** The service types in order of first appearance: the key order of the
      object that counts them. */
  function TiposEmOrdem(ss: seq<Servico>): (ts: seq<string>)
    ensures Distinct(ts)
    ensures forall t :: t in ts <==> exists s :: s in ss && s.tipoServico == t
  {
    if ss == [] then []
    else
      var init := ss[..|ss| - 1];
      var t := ss[|ss| - 1].tipoServico;
      assert forall s :: s in ss <==> s in init || s == ss[|ss| - 1];
      var prev := TiposEmOrdem(init);
      if t in prev then prev else prev + [t]
  }

  lemma TiposEmOrdemSnoc(ss: seq<Servico>, s: Servico)
    ensures TiposEmOrdem(ss + [s]) ==
      if s.tipoServico in TiposEmOrdem(ss) then TiposEmOrdem(ss) else TiposEmOrdem(ss) + [s.tipoServico]
  {
    assert (ss + [s])[..|ss + [s]| - 1] == ss;
  }

  /** One `[tipo, quantidade]` entry of the counting object. */
  datatype Contagem = Contagem(tipo: string, quantidade: nat)

  function Quantidade(e: Contagem): int { e.quantidade }

  /** `Object.entries(servicosContagem)`, described without the loop. */
  function Contagens(ss: seq<Servico>): seq<Contagem>
  {
    var ts := TiposEmOrdem(ss);
    seq(|ts|, i requires 0 <= i < |ts| => Contagem(ts[i], ContaTipo(ss, ts[i])))
  }

  /** The `forEach` callback for service `ss[i]`: creates its type's entry
      at 0 when missing and adds one, so the entries count `ss[..i + 1]`. */
  method ContarServico(keys: seq<string>, counts: map<string, nat>, ss: seq<Servico>, i: nat)
    returns (keys': seq<string>, counts': map<string, nat>)
    requires i < |ss|
    requires keys == TiposEmOrdem(ss[..i])
    requires forall t :: t in counts <==> t in keys
    requires forall t :: t in counts ==> counts[t] == ContaTipo(ss[..i], t)
    ensures keys' == TiposEmOrdem(ss[..i + 1])
    ensures forall t :: t in counts' <==> t in keys'
    ensures forall t :: t in counts' ==> counts'[t] == ContaTipo(ss[..i + 1], t)
  {
    var t := ss[i].tipoServico;
    assert ss[..i + 1] == ss[..i] + [ss[i]];
    TiposEmOrdemSnoc(ss[..i], ss[i]);
    keys' := if t in counts then keys else keys + [t];
    counts' := counts[t := (if t in counts then counts[t] else 0) + 1];
    forall u | u in counts' ensures counts'[u] == ContaTipo(ss[..i + 1], u) {
      ContaTipoSnoc(ss[..i], ss[i], u);
      if u == t && t !in counts {
        assert ContaTipo(ss[..i], t) == 0;
      }
    }
  }

  /** The `forEach` that increments one dictionary entry per service, then
      `Object.entries`. */
  method ServicosContagem(ss: seq<Servico>) returns (entries: seq<Contagem>)
    ensures entries == Contagens(ss)
  {
    var keys: seq<string> := [];
    var counts: map<string, nat> := map[];
    var i := 0;
    while i < |ss|
      invariant 0 <= i <= |ss|
      invariant keys == TiposEmOrdem(ss[..i])
      invariant forall t :: t in counts <==> t in keys
      invariant forall t :: t in counts ==> counts[t] == ContaTipo(ss[..i], t)
    {
      keys, counts := ContarServico(keys, counts, ss, i);
      i := i + 1;
    }
    assert ss[..i] == ss;
    entries := seq(|keys|, j requires 0 <= j < |keys| => Contagem(keys[j], counts[keys[j]]));
  }

  /** Sum of the counts of `ts`. */
  function SomaContagens(es: seq<Contagem>): int
  {
    if es == [] then 0 else SomaContagens(es[..|es| - 1]) + es[|es| - 1].quantidade
  }

  /** Sum of `ContaTipo` over a list of types. */
  function SomaPorTipos(ts: seq<string>, ss: seq<Servico>): int
  {
    if ts == [] then 0 else SomaPorTipos(ts[..|ts| - 1], ss) + ContaTipo(ss, ts[|ts| - 1])
  }

  /** One more service adds one to the sum over distinct types iff its type
      is among them. */
  lemma {:induction false} SomaPorTiposSnoc(ts: seq<string>, ss: seq<Servico>, s: Servico)
    requires Distinct(ts)
    ensures SomaPorTipos(ts, ss + [s]) == SomaPorTipos(ts, ss) + (if s.tipoServico in ts then 1 else 0)
  {
    if ts != [] {
      var init := ts[..|ts| - 1];
      assert (ss + [s])[..|ss + [s]| - 1] == ss;
      assert s.tipoServico in ts <==> s.tipoServico in init || s.tipoServico == ts[|ts| - 1];
      SomaPorTiposSnoc(init, ss, s);
    }
  }

  lemma {:induction false} SomaPorTiposTodos(ss: seq<Servico>)
    ensures SomaPorTipos(TiposEmOrdem(ss), ss) == |ss|
  {
    if ss != [] {
      var init := ss[..|ss| - 1];
      var s := ss[|ss| - 1];
      assert ss == init + [s];
      SomaPorTiposTodos(init);
      var prev := TiposEmOrdem(init);
      SomaPorTiposSnoc(prev, init, s);
      if s.tipoServico !in prev {
        assert (prev + [s.tipoServico])[..|prev|] == prev;
        assert ContaTipo(init, s.tipoServico) == 0;
      }
    }
  }

  lemma {:induction false} SomaContagensPorTipos(ts: seq<string>, ss: seq<Servico>)
    ensures SomaContagens(seq(|ts|, i requires 0 <= i < |ts| => Contagem(ts[i], ContaTipo(ss, ts[i]))))
            == SomaPorTipos(ts, ss)
  {
    if ts != [] {
      var init := ts[..|ts| - 1];
      var es := seq(|ts|, i requires 0 <= i < |ts| => Contagem(ts[i], ContaTipo(ss, ts[i])));
      assert es[..|es| - 1] == seq(|init|, i requires 0 <= i < |init| => Contagem(init[i], ContaTipo(ss, init[i])));
      SomaContagensPorTipos(init, ss);
    }
  }

  /** Every type that occurs has exactly one entry, its count is at least 1
      and equals the number of services of that type, and the counts add up
      to the number of services. */
  lemma ContagensCorrect(ss: seq<Servico>)
    ensures forall i, j :: 0 <= i < j < |Contagens(ss)| ==> Contagens(ss)[i].tipo != Contagens(ss)[j].tipo
    ensures forall e :: e in Contagens(ss) ==> e.quantidade == ContaTipo(ss, e.tipo) >= 1
    ensures forall s :: s in ss ==> exists e :: e in Contagens(ss) && e.tipo == s.tipoServico
    ensures SomaContagens(Contagens(ss)) == |ss|
  {
    var ts := TiposEmOrdem(ss);
    var es := Contagens(ss);
    forall s | s in ss ensures exists e :: e in es && e.tipo == s.tipoServico {
      assert s.tipoServico in ts;
      var i :| 0 <= i < |ts| && ts[i] == s.tipoServico;
      assert es[i] in es;
    }
    forall e | e in es ensures e.quantidade == ContaTipo(ss, e.tipo) >= 1 {
      var i :| 0 <= i < |es| && es[i] == e;
      assert ts[i] in ts;
    }
    SomaContagensPorTipos(ts, ss);
    SomaPorTiposTodos(ss);
  }

  /** `.sort((a, b) => b[1] - a[1]).slice(0, 5)`. */
  function ServicosMaisSolicitados(es: seq<Contagem>): seq<Contagem>
  {
    var sorted := SortDesc(es, Quantidade);
    if |sorted| <= 5 then sorted else sorted[..5]
  }

  /** Tied types enter the top five in the order they were first counted:
      the top rows with count `q` are the first of all entries with count `q`. */
  lemma MaisSolicitadosEmpates(es: seq<Contagem>, q: int)
    ensures Filter(ServicosMaisSolicitados(es), (e: Contagem) => Quantidade(e) == q) <=
      Filter(es, (e: Contagem) => Quantidade(e) == q)
  {
    var sorted := SortDesc(es, Quantidade);
    var empate := (e: Contagem) => Quantidade(e) == q;
    SortDescStable(es, Quantidade, q, empate);
    if |sorted| > 5 {
      FilterPrefix(sorted, 5, empate);
    }
  }

  /** At most five rows, sorted by count, all taken from the entries; any
      entry left out counts no more than the last row shown. */
  lemma MaisSolicitadosTop(es: seq<Contagem>)
    ensures |ServicosMaisSolicitados(es)| == if |es| <= 5 then |es| else 5
    ensures SortedDesc(ServicosMaisSolicitados(es), Quantidade)
    ensures forall e :: e in ServicosMaisSolicitados(es) ==> e in es
    ensures forall e :: e in es && e !in ServicosMaisSolicitados(es) ==>
      |es| > 5 && e.quantidade <= ServicosMaisSolicitados(es)[4].quantidade
  {
    var sorted := SortDesc(es, Quantidade);
    var top := ServicosMaisSolicitados(es);
    forall e | e in top ensures e in es {
      assert e in sorted;
      assert e in multiset(sorted);
    }
    forall e | e in es && e !in top
      ensures |es| > 5 && e.quantidade <= top[4].quantidade
    {
      assert e in multiset(sorted);
      if |sorted| > 5 {
        DeFora(sorted, e);
      }
    }
  }

  /** In a sorted list, an entry outside the first five counts no more than
      the fifth. */
  lemma DeFora(sorted: seq<Contagem>, e: Contagem)
    requires SortedDesc(sorted, Quantidade)
    requires |sorted| > 5 && e in sorted && e !in sorted[..5]
    ensures e.quantidade <= sorted[4].quantidade
  {
    var j :| 0 <= j < |sorted| && sorted[j] == e;
    assert forall k :: 0 <= k < 5 ==> sorted[..5][k] == sorted[k];
  }

  /** `((quantidade / totalServicos) * 100).toFixed(1)`, in tenths of a percent. */
  function Percentual(quantidade: int, total: int): int
    requires total > 0
  {
    RoundTenths(100 * quantidade, total)
  }

  /** A percentage is only computed for a row, and a row exists only when
      there are services, so the total is never zero; each row's share lies
      in (0, 100] and shows between 0.0 and 100.0. */
  lemma PercentualRange(ss: seq<Servico>)
    ensures |ServicosMaisSolicitados(Contagens(ss))| > 0 <==> |ss| > 0
    ensures forall e :: e in ServicosMaisSolicitados(Contagens(ss)) ==>
      0 < 100 * e.quantidade <= 100 * |ss| && 0 <= Percentual(e.quantidade, |ss|) <= 1000
  {
    ContagensCorrect(ss);
    MaisSolicitadosTop(Contagens(ss));
    if |ss| > 0 {
      assert ss[0] in ss;
    }
    forall e | e in ServicosMaisSolicitados(Contagens(ss))
      ensures 0 < 100 * e.quantidade <= 100 * |ss| && 0 <= Percentual(e.quantidade, |ss|) <= 1000
    {
      assert e in Contagens(ss);
      var p := Percentual(e.quantidade, |ss|);
      CancelFactor(2 * |ss|, p, 1001);
      CancelFactor(2 * |ss|, -1, p);
    }
  }
}
