/**
  Construction of the default fleet: one record per truck, labelled
  `CM-001`, `CM-002`, ... and carrying the same default counters.
 */
module Frota {
  import opened Registro
  import opened Formato
  import opened Calculos

  /** One truck's dictionary: its label (key "caminhao") and its numeric entries. */
  datatype Caminhao = Caminhao(caminhao: string, dados: Campos)

  /**
    The default numeric entries of a new truck: 35, 18, 9 and 0 services at
    the four tiers, corrective rate 0.25, no stoppage, both percentages 0.
    There is no unused-hour count ("qtd_hnu") among them.
   */
  const CamposPadrao: Campos := map[
    Qtd250h := 35.0,
    Qtd500h := 18.0,
    Qtd1000h := 9.0,
    Qtd16000h := 0.0,
    TaxaCorretiva := 0.25,
    QtdSemOperador := 0.0,
    QtdParadaDesmonte := 0.0,
    QtdParadaClimatica := 0.0,
    QtdAlmoco := 0.0,
    QtdTrocaTurno := 0.0,
    PercAbsenteismo := 0.0,
    PercTreinamento := 0.0
  ]

  /**
    Label of the truck at index `i`: "CM-" and the truck number `i + 1`,
    zero-padded to at least three digits.
   */
  function Rotulo(i: nat): string
  {
    "CM-" + Formatar03(i + 1)
  }

  /**
    A label is "CM-" followed by at least three decimal digits (exactly
    three for the first 999 trucks) that denote the truck number `i + 1`.
   */
  lemma RotuloLegivel(i: nat)
    ensures |Rotulo(i)| >= 6 && Rotulo(i)[..3] == "CM-"
    ensures SoDigitos(Rotulo(i)[3..]) && Valor(Rotulo(i)[3..]) == i + 1
    ensures i < 999 ==> |Rotulo(i)| == 6
  {
    assert Rotulo(i)[3..] == Formatar03(i + 1);
    Formatar03Legivel(i + 1);
  }

  /** Trucks at different indices get different labels. */
  lemma RotulosDistintos(i: nat, j: nat)
    requires i != j
    ensures Rotulo(i) != Rotulo(j)
  {
    RotuloLegivel(i);
    RotuloLegivel(j);
    assert Rotulo(i)[3..] != Rotulo(j)[3..];
  }

  /**
    The fleet of `numCaminhoes` trucks (none when it is not positive): the
    truck at index `i` is labelled `Rotulo(i)` and has the default entries.
   */
  method InicializarDados(numCaminhoes: int) returns (dadosCaminhoes: seq<Caminhao>)
    ensures |dadosCaminhoes| == if numCaminhoes > 0 then numCaminhoes else 0
    ensures forall i :: 0 <= i < |dadosCaminhoes| ==>
      dadosCaminhoes[i] == Caminhao(Rotulo(i), CamposPadrao)
  {
    dadosCaminhoes := [];
    var i := 0;
    while i < numCaminhoes
      invariant 0 <= i <= if numCaminhoes > 0 then numCaminhoes else 0
      invariant |dadosCaminhoes| == i
      invariant forall j :: 0 <= j < i ==> dadosCaminhoes[j] == Caminhao(Rotulo(j), CamposPadrao)
    {
      var caminhao := Rotulo(i);
      dadosCaminhoes := dadosCaminhoes + [Caminhao(caminhao, CamposPadrao)];
      i := i + 1;
    }
  }

  /** The trucks of a fleet built by `InicializarDados` have pairwise distinct labels. */
  lemma FrotaRotulosDistintos(frota: seq<Caminhao>, i: nat, j: nat)
    requires forall k :: 0 <= k < |frota| ==> frota[k] == Caminhao(Rotulo(k), CamposPadrao)
    requires i < |frota| && j < |frota| && i != j
    ensures frota[i].caminhao != frota[j].caminhao
  {
    RotulosDistintos(i, j);
  }

  /** A default truck is stopped 640 h of preventive service, plus 25 %: 800 h. */
  lemma TempoParadoPadrao()
    ensures HorasPreventivas(CamposPadrao) == 640.0
    ensures TempoParado(CamposPadrao) == Ok(800.0)
  {
  }

  /** A default truck's physical availability is 7960 of the 8760 hours of the year. */
  lemma DfPadrao()
    ensures Df(TempoParado(CamposPadrao).value) == 7960.0 / 8760.0 * 100.0
  {
  }

  /** A default truck has no lost time: each cause of the breakdown costs 0 h. */
  lemma TempoPerdidoPadrao()
    ensures TempoPerdido(CamposPadrao) ==
      Ok(map[RotuloSemOperador := 0.0, RotuloParadaDesmonte := 0.0, RotuloParadaClimatica := 0.0])
  {
  }

  /**
    Utilisation cannot be computed on a default truck: its record has no
    unused-hour count, the first key utilisation reads that it lacks. Once
    one is added, a default truck with no unused-hour event is at 100 %.
   */
  lemma UtilizacaoPadrao(hnu: real)
    ensures Utilizacao(CamposPadrao) == KeyError(QtdHnu)
    ensures Utilizacao(CamposPadrao[QtdHnu := hnu]).Ok?
    ensures hnu == 0.0 ==> Utilizacao(CamposPadrao[QtdHnu := hnu]).value.utilizacao == 100.0
  {
    var d := CamposPadrao[QtdHnu := hnu];
    LerUtilizacao(CamposPadrao);
    LerTempoParado(CamposPadrao);
    assert TemUtilizacao(d);
    assert HorasDisponiveis(d) == 7960.0;
    UtilizacaoDefinida(d);
    if hnu == 0.0 {
      UtilizacaoPlenaSemHnu(d);
    }
  }
}
