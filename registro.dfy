/**
  The per-truck record the calculation engine reads.

  In the system a truck is a dictionary from key names to numbers (plus a
  label, see module Frota). Here the numeric part is a map from an enumerated
  key to an exact real; a key the dictionary lacks is simply absent from the
  map, and reading it is a key error, as it is in the system.
 */
module Registro {

  /** The numeric keys of a truck record; the dictionary key is given beside each. */
  datatype Campo =
    | Qtd250h             // "qtd_250h": services at the 250 h tier
    | Qtd500h             // "qtd_500h": services at the 500 h tier
    | Qtd1000h            // "qtd_1000h": services at the 1000 h tier
    | Qtd16000h           // "qtd_16000h": services at the 16000 h tier
    | TaxaCorretiva       // "taxa_corretiva": corrective markup on preventive downtime
    | QtdSemOperador      // "qtd_sem_operador": stoppages for lack of an operator
    | QtdParadaDesmonte   // "qtd_parada_desmonte": stoppages for blasting
    | QtdParadaClimatica  // "qtd_parada_climatica": stoppages for weather
    | QtdAlmoco           // "qtd_almoco": lunch breaks
    | QtdTrocaTurno       // "qtd_troca_turno": shift changes
    | QtdHnu              // "qtd_hnu": unused-hour events
    | PercAbsenteismo     // "perc_absenteismo": absenteeism percentage
    | PercTreinamento     // "perc_treinamento": training percentage

  /** The numeric entries of one truck's dictionary. */
  type Campos = map<Campo, real>

  /** A value, or the key error raised by reading a key the record lacks. */
  datatype Result<+T> = Ok(value: T) | KeyError(key: Campo) {
    predicate IsFailure() { KeyError? }

    function PropagateFailure<U>(): Result<U>
      requires KeyError?
    {
      KeyError(key)
    }

    function Extract(): T
      requires Ok?
    {
      value
    }
  }

  /** Reads one entry, as `dados_caminhao[key]` does. */
  function Ler(d: Campos, k: Campo): (r: Result<real>)
    ensures r.Ok? <==> k in d
    ensures r.Ok? ==> r.value == d[k]
    ensures r.KeyError? ==> r.key == k
  {
    if k in d then Ok(d[k]) else KeyError(k)
  }

  /**
    Position of the first key of `ks` that `d` lacks, or `|ks|` when it has
    them all: reading the keys of `ks` one after another fails exactly at
    this position.
   */
  function IndiceAusente(d: Campos, ks: seq<Campo>): (i: nat)
    ensures i <= |ks|
    ensures forall j :: 0 <= j < i ==> ks[j] in d
    ensures i < |ks| ==> ks[i] !in d
  {
    if ks == [] then 0
    else if ks[0] !in d then 0
    else 1 + IndiceAusente(d, ks[1..])
  }

  /**
    What reading the keys of `ks` in order and then doing nothing else
    yields: the error for the first missing key, or success.
   */
  function LerTodas(d: Campos, ks: seq<Campo>): (r: Result<()>)
    ensures r.Ok? <==> forall j :: 0 <= j < |ks| ==> ks[j] in d
    ensures r.KeyError? ==> IndiceAusente(d, ks) < |ks| && r.key == ks[IndiceAusente(d, ks)]
  {
    var i := IndiceAusente(d, ks);
    if i < |ks| then KeyError(ks[i]) else Ok(())
  }

  /** Reading `[k] + ks` fails at `k` when it is missing, and otherwise as reading `ks` does. */
  lemma LerTodasPasso(d: Campos, k: Campo, ks: seq<Campo>)
    ensures LerTodas(d, [k] + ks) == if k in d then LerTodas(d, ks) else KeyError(k)
  {
  }

  /** Reading `a + b` fails as reading `a` does, and when `a` is complete, as reading `b` does. */
  lemma {:induction false} LerTodasConcat(d: Campos, a: seq<Campo>, b: seq<Campo>)
    ensures LerTodas(d, a + b) == if LerTodas(d, a).KeyError? then LerTodas(d, a) else LerTodas(d, b)
  {
    if a == [] {
      assert a + b == b;
    } else {
      LerTodasPasso(d, a[0], a[1..] + b);
      LerTodasPasso(d, a[0], a[1..]);
      assert a + b == [a[0]] + (a[1..] + b);
      assert a == [a[0]] + a[1..];
      LerTodasConcat(d, a[1..], b);
    }
  }
}
