/**
  The availability and utilisation engine of one haul truck.

  Every operation takes the numeric entries of the truck's record and
  returns either its result or the key error the record's first missing key
  raises. Hours are exact reals.
 */
module Calculos {
  import opened Registro

  /** Calendar hours in a year: 365 days of 24 hours. */
  const HorasProgramadasAno: real := 365.0 * 24.0

  // Downtime per preventive service, by tier, in hours.
  const TempoPreventiva250h: real := 8.0
  const TempoPreventiva500h: real := 12.0
  const TempoPreventiva1000h: real := 16.0
  const TempoPreventiva16000h: real := 168.0

  // Hours lost per stoppage event, by cause.
  const TempoSemOperador: real := 8.0
  const TempoParadaDesmonte: real := 8.0
  const TempoParadaClimatica: real := 8.0
  const TempoAlmoco: real := 1.0
  const TempoTrocaTurno: real := 0.5

  /** Hours lost per unused-hour event. */
  const TempoHnu: real := 8.0

  /** Keys read by the stopped-hours computation, in reading order. */
  const ChavesTempoParado: seq<Campo> := [Qtd250h, Qtd500h, Qtd1000h, Qtd16000h, TaxaCorretiva]

  /** Keys read by the utilisation computation before its zero guard, in reading order. */
  const ChavesUtilizacao: seq<Campo> := ChavesTempoParado + ChavesParadasHnu

  /** Keys of the operational stoppages and unused hours, in reading order. */
  const ChavesParadasHnu: seq<Campo> :=
    [QtdSemOperador, QtdParadaDesmonte, QtdParadaClimatica, QtdAlmoco, QtdTrocaTurno, QtdHnu]

  /** Keys read by the utilisation computation after its zero guard, in reading order. */
  const ChavesPercentuais: seq<Campo> := [PercAbsenteismo, PercTreinamento]

  /** Keys read by the lost-time breakdown, in reading order. */
  const ChavesTempoPerdido: seq<Campo> := [QtdSemOperador, QtdParadaDesmonte, QtdParadaClimatica]

  /** Total time spent on `qtdServicos` services of `tempoPorServico` hours each. */
  function TempoTotal(qtdServicos: real, tempoPorServico: real): real
  {
    qtdServicos * tempoPorServico
  }

  // ---------------------------------------------------------------------
  // Stopped hours

  /** The error of reading the stopped-hours keys is that of the first one missing. */
  lemma LerTempoParado(d: Campos)
    ensures LerTodas(d, ChavesTempoParado) ==
      if Qtd250h !in d then KeyError(Qtd250h)
      else if Qtd500h !in d then KeyError(Qtd500h)
      else if Qtd1000h !in d then KeyError(Qtd1000h)
      else if Qtd16000h !in d then KeyError(Qtd16000h)
      else if TaxaCorretiva !in d then KeyError(TaxaCorretiva)
      else Ok(())
  {
    assert ChavesTempoParado == [Qtd250h] + ([Qtd500h] + ([Qtd1000h] + ([Qtd16000h] + ([TaxaCorretiva] + []))));
    LerTodasPasso(d, Qtd250h, [Qtd500h, Qtd1000h, Qtd16000h, TaxaCorretiva]);
    LerTodasPasso(d, Qtd500h, [Qtd1000h, Qtd16000h, TaxaCorretiva]);
    LerTodasPasso(d, Qtd1000h, [Qtd16000h, TaxaCorretiva]);
    LerTodasPasso(d, Qtd16000h, [TaxaCorretiva]);
    LerTodasPasso(d, TaxaCorretiva, []);
  }

  /** The record has every key the stopped-hours computation reads. */
  predicate TemTempoParado(d: Campos)
  {
    Qtd250h in d && Qtd500h in d && Qtd1000h in d && Qtd16000h in d && TaxaCorretiva in d
  }

  /** Preventive downtime of all four tiers, before the corrective markup. */
  function HorasPreventivas(d: Campos): real
    requires TemTempoParado(d)
  {
    8.0 * d[Qtd250h] + 12.0 * d[Qtd500h] + 16.0 * d[Qtd1000h] + 168.0 * d[Qtd16000h]
  }

  /**
    Stopped hours of a truck: the preventive downtime of the four service
    tiers, increased by the corrective rate.
   */
  function TempoParado(d: Campos): (r: Result<real>)
    ensures r.Ok? <==> TemTempoParado(d)
    ensures r.KeyError? ==> LerTodas(d, ChavesTempoParado) == KeyError(r.key)
    ensures r.Ok? ==> r.value == HorasPreventivas(d) * (1.0 + d[TaxaCorretiva])
  {
    LerTempoParado(d);
    var q250 :- Ler(d, Qtd250h);
    var q500 :- Ler(d, Qtd500h);
    var q1000 :- Ler(d, Qtd1000h);
    var q16000 :- Ler(d, Qtd16000h);
    var total :=
      q250 * TempoPreventiva250h + q500 * TempoPreventiva500h
      + q1000 * TempoPreventiva1000h + q16000 * TempoPreventiva16000h;
    var taxa :- Ler(d, TaxaCorretiva);
    var corretivo := taxa * total;
    Ok(total + corretivo)
  }

  /** With no service at any tier the truck is never stopped, whatever its corrective rate. */
  lemma TempoParadoSemServicos(d: Campos)
    requires TemTempoParado(d)
    requires d[Qtd250h] == 0.0 && d[Qtd500h] == 0.0 && d[Qtd1000h] == 0.0 && d[Qtd16000h] == 0.0
    ensures TempoParado(d) == Ok(0.0)
  {
    assert HorasPreventivas(d) == 0.0;
  }

  /** Non-negative counts and rate give non-negative stopped hours. */
  lemma TempoParadoNaoNegativo(d: Campos)
    requires TemTempoParado(d)
    requires d[Qtd250h] >= 0.0 && d[Qtd500h] >= 0.0 && d[Qtd1000h] >= 0.0 && d[Qtd16000h] >= 0.0
    requires d[TaxaCorretiva] >= 0.0
    ensures TempoParado(d).Ok? && TempoParado(d).value >= 0.0
  {
  }

  /** The tiers of preventive service. */
  predicate Nivel(k: Campo)
  {
    k == Qtd250h || k == Qtd500h || k == Qtd1000h || k == Qtd16000h
  }

  /** Per-service downtime of a tier. */
  function DuracaoNivel(k: Campo): (h: real)
    requires Nivel(k)
    ensures h > 0.0
  {
    match k
    case Qtd250h => TempoPreventiva250h
    case Qtd500h => TempoPreventiva500h
    case Qtd1000h => TempoPreventiva1000h
    case Qtd16000h => TempoPreventiva16000h
  }

  /**
    Raising one tier's count by `delta` adds `delta` services of that tier,
    marked up by the corrective rate: never less when the markup factor
    `1 + taxa_corretiva` is not negative, strictly more when it is positive.
   */
  lemma TempoParadoMonotono(d: Campos, k: Campo, delta: real)
    requires TemTempoParado(d) && Nivel(k)
    requires delta >= 0.0 && 1.0 + d[TaxaCorretiva] >= 0.0
    ensures TempoParado(d[k := d[k] + delta]).Ok?
    ensures TempoParado(d[k := d[k] + delta]).value
      == TempoParado(d).value + delta * DuracaoNivel(k) * (1.0 + d[TaxaCorretiva])
    ensures TempoParado(d[k := d[k] + delta]).value >= TempoParado(d).value
    ensures delta > 0.0 && 1.0 + d[TaxaCorretiva] > 0.0 ==>
      TempoParado(d[k := d[k] + delta]).value > TempoParado(d).value
  {
    var d2 := d[k := d[k] + delta];
    var f := 1.0 + d[TaxaCorretiva];
    var extra := delta * DuracaoNivel(k);
    HorasPreventivasNivel(d, k, delta);
    var p, p2 := HorasPreventivas(d), HorasPreventivas(d2);
    var t1, t2 := TempoParado(d).value, TempoParado(d2).value;
    assert t1 == p * f && t2 == p2 * f && p2 == p + extra;
    Acrescimo(p, delta, DuracaoNivel(k), f);
    assert t2 == t1 + extra * f;
  }

  /**
    Scaling `p + delta * h` by a non-negative factor adds `delta * h` scaled:
    never less for a non-negative `delta`, and more when `delta` and the
    factor are positive.
   */
  lemma Acrescimo(p: real, delta: real, h: real, f: real)
    requires delta >= 0.0 && h > 0.0 && f >= 0.0
    ensures (p + delta * h) * f == p * f + delta * h * f
    ensures delta * h * f >= 0.0
    ensures delta > 0.0 && f > 0.0 ==> delta * h * f > 0.0
  {
  }

  /** Raising one tier's count adds that tier's per-service downtime for each added service. */
  lemma HorasPreventivasNivel(d: Campos, k: Campo, delta: real)
    requires TemTempoParado(d) && Nivel(k)
    ensures TemTempoParado(d[k := d[k] + delta])
    ensures d[k := d[k] + delta][TaxaCorretiva] == d[TaxaCorretiva]
    ensures HorasPreventivas(d[k := d[k] + delta]) == HorasPreventivas(d) + delta * DuracaoNivel(k)
  {
  }

  // ---------------------------------------------------------------------
  // Physical availability

  /**
    Physical availability (DF), in percent, of a truck stopped for
    `tempoTotalParado` hours of the year. It is not clamped: it is 100 exactly
    when the truck never stops, and negative exactly when it is stopped for
    more hours than the year has. Reading it back as hours of the year gives
    the hours the truck is not stopped.
   */
  function Df(tempoTotalParado: real): (df: real)
    ensures df == 100.0 <==> tempoTotalParado == 0.0
    ensures df < 0.0 <==> tempoTotalParado > HorasProgramadasAno
    ensures df == 0.0 <==> tempoTotalParado == HorasProgramadasAno
    ensures df <= 100.0 <==> tempoTotalParado >= 0.0
    ensures HorasProgramadasAno * (df / 100.0) == HorasProgramadasAno - tempoTotalParado
  {
    ((HorasProgramadasAno - tempoTotalParado) / HorasProgramadasAno) * 100.0
  }

  /** More stopped hours give strictly less physical availability. */
  lemma DfDecrescente(t1: real, t2: real)
    requires t1 < t2
    ensures Df(t1) > Df(t2)
  {
  }

  // ---------------------------------------------------------------------
  // Utilisation

  /** What the utilisation computation returns. */
  datatype ResultadoUtilizacao = ResultadoUtilizacao(
    utilizacao: real,          // percent of the available hours that are worked
    horasNaoUtilizadas: real,  // hours of unused-hour events
    horasTrabalhadas: real     // available hours minus unused hours
  )

  /** The record has every key utilisation reads before its zero guard. */
  predicate TemUtilizacao(d: Campos)
  {
    TemTempoParado(d) && QtdSemOperador in d && QtdParadaDesmonte in d
    && QtdParadaClimatica in d && QtdAlmoco in d && QtdTrocaTurno in d && QtdHnu in d
  }

  /** Hours of the operational stoppages of the year. */
  function HorasParadasOperacionais(d: Campos): real
    requires TemUtilizacao(d)
  {
    8.0 * d[QtdSemOperador] + 8.0 * d[QtdParadaDesmonte] + 8.0 * d[QtdParadaClimatica]
    + 1.0 * d[QtdAlmoco] + 0.5 * d[QtdTrocaTurno]
  }

  /**
    Available hours: the calendar hours of the year less the stopped hours
    (preventive with corrective markup) and the operational stoppages.
   */
  function HorasDisponiveis(d: Campos): real
    requires TemUtilizacao(d)
  {
    HorasProgramadasAno - (HorasPreventivas(d) * (1.0 + d[TaxaCorretiva]) + HorasParadasOperacionais(d))
  }

  /**
    The keys utilisation reads, in order: those before the zero guard, then,
    unless the available hours are zero, the two percentages.
   */
  function ChavesLidasUtilizacao(d: Campos): seq<Campo>
  {
    if TemUtilizacao(d) && HorasDisponiveis(d) == 0.0 then ChavesUtilizacao
    else ChavesUtilizacao + ChavesPercentuais
  }

  /** The error of reading the keys before the zero guard is that of the first one missing. */
  lemma LerUtilizacao(d: Campos)
    ensures LerTodas(d, ChavesUtilizacao) ==
      if LerTodas(d, ChavesTempoParado).KeyError? then LerTodas(d, ChavesTempoParado)
      else if QtdSemOperador !in d then KeyError(QtdSemOperador)
      else if QtdParadaDesmonte !in d then KeyError(QtdParadaDesmonte)
      else if QtdParadaClimatica !in d then KeyError(QtdParadaClimatica)
      else if QtdAlmoco !in d then KeyError(QtdAlmoco)
      else if QtdTrocaTurno !in d then KeyError(QtdTrocaTurno)
      else if QtdHnu !in d then KeyError(QtdHnu)
      else Ok(())
    ensures LerTodas(d, ChavesUtilizacao).Ok? <==> TemUtilizacao(d)
  {
    LerTempoParado(d);
    LerParadasHnu(d);
    LerTodasConcat(d, ChavesTempoParado, ChavesParadasHnu);
  }

  /** The error of reading the stoppage and unused-hour keys is that of the first one missing. */
  lemma LerParadasHnu(d: Campos)
    ensures LerTodas(d, ChavesParadasHnu) ==
      if QtdSemOperador !in d then KeyError(QtdSemOperador)
      else if QtdParadaDesmonte !in d then KeyError(QtdParadaDesmonte)
      else if QtdParadaClimatica !in d then KeyError(QtdParadaClimatica)
      else if QtdAlmoco !in d then KeyError(QtdAlmoco)
      else if QtdTrocaTurno !in d then KeyError(QtdTrocaTurno)
      else if QtdHnu !in d then KeyError(QtdHnu)
      else Ok(())
  {
    var ks := ChavesParadasHnu;
    assert ks == [QtdSemOperador] + ks[1..];
    assert ks[1..] == [QtdParadaDesmonte] + ks[2..];
    assert ks[2..] == [QtdParadaClimatica] + ks[3..];
    assert ks[3..] == [QtdAlmoco] + ks[4..];
    assert ks[4..] == [QtdTrocaTurno] + ks[5..];
    assert ks[5..] == [QtdHnu] + [];
    LerTodasPasso(d, QtdHnu, []);
    LerTodasPasso(d, QtdTrocaTurno, ks[5..]);
    LerTodasPasso(d, QtdAlmoco, ks[4..]);
    LerTodasPasso(d, QtdParadaClimatica, ks[3..]);
    LerTodasPasso(d, QtdParadaDesmonte, ks[2..]);
    LerTodasPasso(d, QtdSemOperador, ks[1..]);
  }

  /** The error of reading the two percentages is that of the first one missing. */
  lemma LerPercentuais(d: Campos)
    ensures LerTodas(d, ChavesPercentuais) ==
      if PercAbsenteismo !in d then KeyError(PercAbsenteismo)
      else if PercTreinamento !in d then KeyError(PercTreinamento)
      else Ok(())
  {
    assert ChavesPercentuais == [PercAbsenteismo] + ([PercTreinamento] + []);
    LerTodasPasso(d, PercAbsenteismo, [PercTreinamento]);
    LerTodasPasso(d, PercTreinamento, []);
  }

  /**
    Utilisation of a truck over the year.

    Available hours are the calendar hours less stopped hours and the
    operational stoppages; unused hours are 8 h per unused-hour event and
    worked hours are the available hours less the unused ones. When no hour
    is available the utilisation is 0 and nothing is divided; otherwise it is
    the worked share of the available hours, in percent. The absenteeism and
    training percentages are then read, but their values never reach the
    result. The computation fails exactly when one of the keys it reads is
    missing, with the first one.
   */
  function Utilizacao(d: Campos): (r: Result<ResultadoUtilizacao>)
    ensures r.Ok? <==> LerTodas(d, ChavesLidasUtilizacao(d)).Ok?
    ensures r.KeyError? ==> LerTodas(d, ChavesLidasUtilizacao(d)) == KeyError(r.key)
    ensures r.Ok? ==> TemUtilizacao(d)
    ensures r.Ok? ==> r.value.horasNaoUtilizadas == 8.0 * d[QtdHnu]
    ensures r.Ok? ==> r.value.horasTrabalhadas == HorasDisponiveis(d) - r.value.horasNaoUtilizadas
    ensures r.Ok? && HorasDisponiveis(d) == 0.0 ==> r.value.utilizacao == 0.0
    ensures r.Ok? && HorasDisponiveis(d) != 0.0 ==>
      r.value.utilizacao * HorasDisponiveis(d) == r.value.horasTrabalhadas * 100.0
  {
    LerUtilizacao(d);
    LerPercentuais(d);
    LerTodasConcat(d, ChavesUtilizacao, ChavesPercentuais);
    var tempoTotalParado :- TempoParado(d);
    var qtdSemOperador :- Ler(d, QtdSemOperador);
    var tempoSemOperador := TempoTotal(qtdSemOperador, TempoSemOperador);
    var qtdParadaDesmonte :- Ler(d, QtdParadaDesmonte);
    var tempoParadaDesmonte := TempoTotal(qtdParadaDesmonte, TempoParadaDesmonte);
    var qtdParadaClimatica :- Ler(d, QtdParadaClimatica);
    var tempoParadaClimatica := TempoTotal(qtdParadaClimatica, TempoParadaClimatica);
    var qtdAlmoco :- Ler(d, QtdAlmoco);
    var tempoAlmoco := TempoTotal(qtdAlmoco, TempoAlmoco);
    var qtdTrocaTurno :- Ler(d, QtdTrocaTurno);
    var tempoTrocaTurno := TempoTotal(qtdTrocaTurno, TempoTrocaTurno);
    var tempoTotalParado := tempoTotalParado
      + (tempoSemOperador + tempoParadaDesmonte + tempoParadaClimatica + tempoAlmoco + tempoTrocaTurno);
    var horasDisponiveis := HorasProgramadasAno - tempoTotalParado;
    var qtdHnu :- Ler(d, QtdHnu);
    var horasNaoUtilizadas := TempoTotal(qtdHnu, TempoHnu);
    var horasTrabalhadas := horasDisponiveis - horasNaoUtilizadas;
    if horasDisponiveis == 0.0 then
      Ok(ResultadoUtilizacao(0.0, horasNaoUtilizadas, horasTrabalhadas))
    else
      var utilizacao := (horasTrabalhadas / horasDisponiveis) * 100.0;
      var percAbsenteismo :- Ler(d, PercAbsenteismo);
      var tempoAbsenteismo := (percAbsenteismo / 100.0) * horasTrabalhadas;
      var percTreinamento :- Ler(d, PercTreinamento);
      var tempoTreinamento := (percTreinamento / 100.0) * horasTrabalhadas;
      // Absenteeism and training hours are not part of the result.
      Ok(ResultadoUtilizacao(utilizacao, horasNaoUtilizadas, horasTrabalhadas))
  }

  /**
    A record with every key and available hours yields a result, whatever
    its absenteeism and training percentages; with no available hour it needs
    neither percentage at all.
   */
  lemma UtilizacaoDefinida(d: Campos)
    requires TemUtilizacao(d)
    requires HorasDisponiveis(d) != 0.0 ==> PercAbsenteismo in d && PercTreinamento in d
    ensures Utilizacao(d).Ok?
  {
  }

  /** The returned triple does not depend on the absenteeism or training percentage. */
  lemma UtilizacaoIgnoraPercentuais(d: Campos, absenteismo: real, treinamento: real)
    requires TemUtilizacao(d)
    ensures Utilizacao(d[PercAbsenteismo := absenteismo][PercTreinamento := treinamento]).Ok?
    ensures Utilizacao(d).Ok? ==>
      Utilizacao(d[PercAbsenteismo := absenteismo][PercTreinamento := treinamento]) == Utilizacao(d)
  {
    var d2 := d[PercAbsenteismo := absenteismo][PercTreinamento := treinamento];
    assert TemUtilizacao(d2);
    assert HorasDisponiveis(d2) == HorasDisponiveis(d);
    UtilizacaoDefinida(d2);
  }

  /** With no available hour, the percentages need not be in the record at all. */
  lemma UtilizacaoSemHorasDisponiveis(d: Campos)
    requires TemUtilizacao(d) && HorasDisponiveis(d) == 0.0
    ensures Utilizacao(d) == Ok(ResultadoUtilizacao(0.0, 8.0 * d[QtdHnu], -8.0 * d[QtdHnu]))
    ensures Utilizacao(d - {PercAbsenteismo, PercTreinamento}) == Utilizacao(d)
  {
    var d2 := d - {PercAbsenteismo, PercTreinamento};
    assert TemUtilizacao(d2);
    assert HorasDisponiveis(d2) == HorasDisponiveis(d);
    UtilizacaoDefinida(d);
    UtilizacaoDefinida(d2);
  }

  /** Without unused-hour events every available hour is worked: utilisation is 100 %. */
  lemma UtilizacaoPlenaSemHnu(d: Campos)
    requires Utilizacao(d).Ok? && d[QtdHnu] == 0.0 && HorasDisponiveis(d) != 0.0
    ensures Utilizacao(d).value.utilizacao == 100.0
  {
    var r := Utilizacao(d).value;
    var h := HorasDisponiveis(d);
    assert r.horasTrabalhadas == h;
    assert (r.utilizacao - 100.0) * h == 0.0;
    ProdutoNulo(r.utilizacao - 100.0, h);
  }

  /** A product with a non-zero factor is zero only when the other factor is. */
  lemma ProdutoNulo(x: real, h: real)
    requires h != 0.0 && x * h == 0.0
    ensures x == 0.0
  {
  }

  /**
    The available hours are the calendar hours of the year weighted by the
    physical availability of all the hours the truck does not run for:
    stopped hours plus operational stoppages.
   */
  lemma HorasDisponiveisPelaDf(d: Campos)
    requires TemUtilizacao(d)
    ensures HorasDisponiveis(d)
      == HorasProgramadasAno * (Df(TempoParado(d).value + HorasParadasOperacionais(d)) / 100.0)
  {
  }

  /**
    Against the truck's own physical availability, which counts only the
    stopped hours, the available hours are its DF-derived hours less the
    operational stoppages; they are the DF-derived hours exactly when the
    operational stoppages cost nothing, as with no stoppage event at all.
   */
  lemma HorasDisponiveisDfDoCaminhao(d: Campos)
    requires TemUtilizacao(d)
    ensures HorasDisponiveis(d)
      == HorasProgramadasAno * (Df(TempoParado(d).value) / 100.0) - HorasParadasOperacionais(d)
    ensures HorasDisponiveis(d) == HorasProgramadasAno * (Df(TempoParado(d).value) / 100.0)
      <==> HorasParadasOperacionais(d) == 0.0
    ensures
      (&& d[QtdSemOperador] == 0.0 && d[QtdParadaDesmonte] == 0.0 && d[QtdParadaClimatica] == 0.0
       && d[QtdAlmoco] == 0.0 && d[QtdTrocaTurno] == 0.0)
      ==> HorasDisponiveis(d) == HorasProgramadasAno * (Df(TempoParado(d).value) / 100.0)
  {
  }

  /** The operational stoppage causes. */
  predicate Parada(k: Campo)
  {
    k == QtdSemOperador || k == QtdParadaDesmonte || k == QtdParadaClimatica
    || k == QtdAlmoco || k == QtdTrocaTurno
  }

  /** Hours lost per event of a stoppage cause. */
  function DuracaoParada(k: Campo): (h: real)
    requires Parada(k)
    ensures h > 0.0
  {
    match k
    case QtdSemOperador => TempoSemOperador
    case QtdParadaDesmonte => TempoParadaDesmonte
    case QtdParadaClimatica => TempoParadaClimatica
    case QtdAlmoco => TempoAlmoco
    case QtdTrocaTurno => TempoTrocaTurno
  }

  /**
    The hours the engine charges per cause are the time of a batch of
    services, count times per-event duration: the four preventive tiers make
    the preventive hours and the five stoppage causes the operational hours.
   */
  lemma TempoTotalPorCausa(d: Campos)
    requires TemUtilizacao(d)
    ensures HorasPreventivas(d) ==
      TempoTotal(d[Qtd250h], DuracaoNivel(Qtd250h)) + TempoTotal(d[Qtd500h], DuracaoNivel(Qtd500h))
      + TempoTotal(d[Qtd1000h], DuracaoNivel(Qtd1000h)) + TempoTotal(d[Qtd16000h], DuracaoNivel(Qtd16000h))
    ensures HorasParadasOperacionais(d) ==
      TempoTotal(d[QtdSemOperador], DuracaoParada(QtdSemOperador))
      + TempoTotal(d[QtdParadaDesmonte], DuracaoParada(QtdParadaDesmonte))
      + TempoTotal(d[QtdParadaClimatica], DuracaoParada(QtdParadaClimatica))
      + TempoTotal(d[QtdAlmoco], DuracaoParada(QtdAlmoco))
      + TempoTotal(d[QtdTrocaTurno], DuracaoParada(QtdTrocaTurno))
  {
  }

  /** One more stoppage event of any cause costs available hours: exactly that cause's duration. */
  lemma HorasDisponiveisParada(d: Campos, k: Campo, delta: real)
    requires TemUtilizacao(d) && Parada(k)
    ensures TemUtilizacao(d[k := d[k] + delta])
    ensures HorasDisponiveis(d[k := d[k] + delta]) == HorasDisponiveis(d) - delta * DuracaoParada(k)
    ensures delta > 0.0 ==> HorasDisponiveis(d[k := d[k] + delta]) < HorasDisponiveis(d)
  {
  }

  /**
    One more service at any tier strictly lowers both the physical
    availability and the available hours, while the markup factor
    `1 + taxa_corretiva` is positive.
   */
  lemma ServicoReduzDisponibilidade(d: Campos, k: Campo, delta: real)
    requires TemUtilizacao(d) && Nivel(k)
    requires delta > 0.0 && 1.0 + d[TaxaCorretiva] > 0.0
    ensures TemUtilizacao(d[k := d[k] + delta])
    ensures Df(TempoParado(d[k := d[k] + delta]).value) < Df(TempoParado(d).value)
    ensures HorasDisponiveis(d[k := d[k] + delta]) < HorasDisponiveis(d)
  {
    var d2 := d[k := d[k] + delta];
    TempoParadoMonotono(d, k, delta);
    DfDecrescente(TempoParado(d).value, TempoParado(d2).value);
    assert HorasParadasOperacionais(d2) == HorasParadasOperacionais(d);
  }

  // ---------------------------------------------------------------------
  // Lost-time breakdown

  /** The keys of the lost-time breakdown. */
  const RotuloSemOperador: string := "Sem Operador"
  const RotuloParadaDesmonte: string := "Parada Desmonte"
  const RotuloParadaClimatica: string := "Parada Climática"

  /**
    Hours lost per stoppage cause: lack of operator, blasting and weather,
    each at 8 h per event. Fails exactly when one of the three counts is
    missing, with the first one.
   */
  function TempoPerdido(d: Campos): (r: Result<map<string, real>>)
    ensures r.Ok? <==> LerTodas(d, ChavesTempoPerdido).Ok?
    ensures r.KeyError? ==> LerTodas(d, ChavesTempoPerdido) == KeyError(r.key)
    ensures r.Ok? ==>
      && r.value.Keys == {RotuloSemOperador, RotuloParadaDesmonte, RotuloParadaClimatica}
      && r.value[RotuloSemOperador] == 8.0 * d[QtdSemOperador]
      && r.value[RotuloParadaDesmonte] == 8.0 * d[QtdParadaDesmonte]
      && r.value[RotuloParadaClimatica] == 8.0 * d[QtdParadaClimatica]
  {
    assert ChavesTempoPerdido == [QtdSemOperador] + ([QtdParadaDesmonte] + ([QtdParadaClimatica] + []));
    LerTodasPasso(d, QtdSemOperador, [QtdParadaDesmonte, QtdParadaClimatica]);
    LerTodasPasso(d, QtdParadaDesmonte, [QtdParadaClimatica]);
    LerTodasPasso(d, QtdParadaClimatica, []);
    var tempoPerdido: map<string, real> := map[];
    var qtdSemOperador :- Ler(d, QtdSemOperador);
    var tempoPerdido := tempoPerdido[RotuloSemOperador := TempoTotal(qtdSemOperador, TempoSemOperador)];
    var qtdParadaDesmonte :- Ler(d, QtdParadaDesmonte);
    var tempoPerdido := tempoPerdido[RotuloParadaDesmonte := TempoTotal(qtdParadaDesmonte, TempoParadaDesmonte)];
    var qtdParadaClimatica :- Ler(d, QtdParadaClimatica);
    var tempoPerdido := tempoPerdido[RotuloParadaClimatica := TempoTotal(qtdParadaClimatica, TempoParadaClimatica)];
    Ok(tempoPerdido)
  }

  /**
    The lost-time breakdown accounts for the 8-hour stoppages that
    utilisation charges: the calendar hours less the stopped hours, the three
    entries of the breakdown, lunch and shift changes are the available hours.
   */
  lemma TempoPerdidoNaUtilizacao(d: Campos)
    requires TemUtilizacao(d)
    ensures TempoPerdido(d).Ok?
    ensures var m := TempoPerdido(d).value;
      HorasDisponiveis(d) == HorasProgramadasAno - TempoParado(d).value
        - (m[RotuloSemOperador] + m[RotuloParadaDesmonte] + m[RotuloParadaClimatica])
        - (1.0 * d[QtdAlmoco] + 0.5 * d[QtdTrocaTurno])
  {
  }
}
