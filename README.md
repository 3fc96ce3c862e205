# Haul-truck availability and utilisation engine, in Dafny

This project models the calculation engine of a mining fleet dashboard
(`calculos.py`) and the construction of its default fleet (`inicializar_dados`
in `main.py`), and proves what the engine promises about one truck's yearly
counters:

- **stopped hours** (`TempoParado`): 8, 12, 16 and 168 h per preventive service
  at the 250 h, 500 h, 1000 h and 16000 h tiers, marked up by
  `1 + taxa_corretiva`;
- **physical availability** (`Df`): the share, in percent, of the 8760
  calendar hours of the year the truck is not stopped, never clamped;
- **utilisation** (`Utilizacao`): available hours are the calendar hours less
  the stopped hours and the operational stoppages (8 h per stoppage for lack of
  operator, blasting or weather, 1 h per lunch, 0.5 h per shift change);
  unused hours are 8 h per unused-hour event; worked hours are available less
  unused; utilisation is worked over available in percent, or 0 when no hour
  is available;
- **lost-time breakdown** (`TempoPerdido`): hours per stoppage cause;
- **default fleet** (`InicializarDados`): `n` records labelled `CM-001`,
  `CM-002`, ... with the same default counters.

A truck record is a dictionary in the system. It is modelled as a map from an
enumerated key (`Registro.Campo`) to an exact real. Reading a key the record
lacks raises a key error in the system; here every operation returns
`KeyError(k)` for the first missing key `k`, in the order the source reads the
keys. This matters for the default fleet: its records carry no unused-hour
count (`qtd_hnu`), so utilisation cannot be computed on a fresh record
(`Frota.UtilizacaoPadrao`), while stopped hours, availability and lost time can.

Files: `registro.dfy` (record keys, key reads and their errors), `calculos.dfy`
(the engine), `formato.dfy` (the `{n:03}` number format), `frota.dfy` (the
default fleet and what the engine yields on it).

The engine charges 8 h per no-operator, blasting and weather stoppage, 1 h
per lunch and 0.5 h per shift change; it has no guidance, absenteeism or
training term in the available hours, and returns the triple (utilisation,
unused hours, worked hours). Available hours are the calendar hours less the
stopped hours and the operational stoppages. The truck's physical
availability counts the stopped hours only, so the available hours are its
DF-derived hours (`8760 × DF / 100`) less the operational stoppages, and
equal them only when no operational stoppage is charged
(`Calculos.HorasDisponiveisDfDoCaminhao`).

## Model

| member | source | states |
|---|---|---|
| `Calculos.TempoTotal` | calculos.py:1-3 | the time of a batch of services: count times per-service duration, as written (no contract; see `Calculos.TempoTotalPorCausa`) |
| `Calculos.TempoTotalPorCausa` | calculos.py:55-69 | the preventive hours are the sum of `TempoTotal` of each tier's count and duration, and the operational hours the sum of `TempoTotal` of each stoppage cause's count and duration |
| `Registro.Ler` | calculos.py:13 | reading a key gives its value when the record has it and a key error naming it otherwise |
| `Calculos.TempoParado` | calculos.py:6-27 | stopped hours are `(8·qtd_250h + 12·qtd_500h + 16·qtd_1000h + 168·qtd_16000h) × (1 + taxa_corretiva)`; a key error, for the first missing of the five keys in reading order, exactly when one is missing |
| `Calculos.LerTempoParado` | calculos.py:13-25 | the five stopped-hours keys are read in the order qtd_250h, qtd_500h, qtd_1000h, qtd_16000h, taxa_corretiva |
| `Calculos.TempoParadoSemServicos` | calculos.py:8-27 | with all four tier counts 0, stopped hours are 0 whatever the corrective rate |
| `Calculos.TempoParadoNaoNegativo` | calculos.py:13-26 | non-negative counts and rate give non-negative stopped hours |
| `Calculos.DuracaoNivel` | calculos.py:8-11 | every tier's per-service downtime is positive |
| `Calculos.HorasPreventivasNivel` | calculos.py:13-24 | raising one tier's count by `delta` adds `delta` times that tier's per-service downtime to preventive hours and leaves the rate alone |
| `Calculos.TempoParadoMonotono` | calculos.py:13-26 | raising one tier's count by `delta` adds `delta · duration · (1 + rate)` hours: never fewer when `1 + rate ≥ 0`, strictly more when `delta > 0` and `1 + rate > 0` |
| `Calculos.Df` | calculos.py:30-37 | DF is 100 iff no hour is stopped, 0 iff all 8760 are, negative iff more than 8760 are (no clamping), at most 100 iff stopped hours are non-negative; `8760 × DF / 100` gives back the hours not stopped |
| `Calculos.DfDecrescente` | calculos.py:30-37 | DF is strictly decreasing in the stopped hours |
| `Calculos.LerUtilizacao` | calculos.py:55-90 | utilisation reads the stopped-hours keys, then the five stoppage counts, then qtd_hnu, and fails at the first missing one; it can go on exactly when all eleven are present |
| `Calculos.LerParadasHnu` | calculos.py:65-90 | the stoppage and unused-hour keys are read in the order qtd_sem_operador, qtd_parada_desmonte, qtd_parada_climatica, qtd_almoco, qtd_troca_turno, qtd_hnu |
| `Calculos.LerPercentuais` | calculos.py:102-103 | perc_absenteismo is read before perc_treinamento |
| `Calculos.Utilizacao` | calculos.py:40-105 | unused hours are `8·qtd_hnu`; worked hours are available hours (`8760 − (stopped + 8·no-operator + 8·blasting + 8·weather + 1·lunch + 0.5·shift change)`) less unused hours; with no available hour utilisation is 0, otherwise utilisation × available = worked × 100; fails exactly when a key read is missing, the two percentages being read only when available hours are not 0 |
| `Calculos.UtilizacaoDefinida` | calculos.py:62-105 | a record with the eleven keys yields a result, and needs the two percentages only when available hours are not 0 |
| `Calculos.UtilizacaoIgnoraPercentuais` | calculos.py:99-105 | changing the absenteeism and training percentages never changes the returned triple |
| `Calculos.UtilizacaoSemHorasDisponiveis` | calculos.py:96-97 | with no available hour the result is `(0, 8·qtd_hnu, −8·qtd_hnu)`, with or without the two percentage keys: nothing is divided |
| `Calculos.UtilizacaoPlenaSemHnu` | calculos.py:90-99 | with no unused-hour event and available hours, utilisation is exactly 100 |
| `Calculos.HorasDisponiveis` | calculos.py:85-87 | computes the calendar hours less the stopped hours (preventive with markup) and the operational stoppages (no contract; see the lemmas below) |
| `Calculos.HorasDisponiveisDfDoCaminhao` | calculos.py:30-37 | available hours are `8760 × DF / 100` of the truck's stopped hours less the operational stoppages, equal to that DF-derived value iff the operational stoppages cost nothing, in particular when all five stoppage counts are 0 |
| `Calculos.HorasDisponiveisPelaDf` | calculos.py:75-87 | available hours are `8760 × DF / 100` of all the hours the truck does not run for (stopped hours plus operational stoppages) |
| `Calculos.DuracaoParada` | calculos.py:65-69 | every stoppage cause's per-event duration is positive |
| `Calculos.HorasDisponiveisParada` | calculos.py:65-87 | raising one stoppage count by `delta` takes `delta` times that cause's duration off the available hours, strictly fewer hours when `delta > 0` |
| `Calculos.ServicoReduzDisponibilidade` | calculos.py:13-37 | one more service at any tier strictly lowers DF and the available hours while `1 + rate > 0` |
| `Calculos.TempoPerdido` | calculos.py:108-120 | the breakdown maps exactly "Sem Operador", "Parada Desmonte" and "Parada Climática" to 8 h times the matching count; a key error for the first missing of the three counts, exactly when one is missing |
| `Calculos.TempoPerdidoNaUtilizacao` | calculos.py:111-120 | the three breakdown entries are the 8-hour stoppages utilisation charges: calendar hours less stopped hours, the entries, lunch and shift changes equal the available hours |
| `Formato.Decimal` | main.py:28 | a number's decimal digits: at least one, digits only, no leading zero, one digit exactly below 10 |
| `Formato.ValorDecimal` | main.py:28 | reading a number's decimal digits back gives the number |
| `Formato.ValorZerosAEsquerda` | main.py:28 | leading zeros do not change the number a digit string denotes |
| `Formato.DigitosDeMenorQueMil` | main.py:28 | numbers below 1000 have at most three digits |
| `Formato.Formatar03Legivel` | main.py:28 | `{n:03}` writes at least three digits, exactly three below 1000, never cuts a longer number, and denotes `n` |
| `Formato.Formatar03Injetiva` | main.py:28 | distinct numbers are written differently |
| `Formato.Formatar03` | main.py:28 | computes the decimal digits of `n` padded on the left with zeros to three characters (no contract; see `Formato.Formatar03Legivel`) |
| `Frota.Rotulo` | main.py:28 | computes "CM-" followed by `Formatar03(i + 1)` (no contract; see `Frota.RotuloLegivel`) |
| `Frota.RotuloLegivel` | main.py:28 | a truck label is "CM-" and at least three digits denoting the truck number `i + 1` (exactly three for the first 999 trucks) |
| `Frota.RotulosDistintos` | main.py:27-28 | trucks at different indices get different labels |
| `Frota.InicializarDados` | main.py:24-44 | the fleet has exactly `n` records (none when `n ≤ 0`); record `i` is labelled `CM-` and `i + 1` zero-padded to three digits and carries the defaults 35/18/9/0 services, rate 0.25, no stoppage, percentages 0 |
| `Frota.FrotaRotulosDistintos` | main.py:26-44 | the records of a default fleet have pairwise distinct labels |
| `Frota.TempoParadoPadrao` | main.py:31-35 | a default record has 640 h of preventive service and 800 h stopped |
| `Frota.DfPadrao` | main.py:31-35 | a default record's DF is 7960 / 8760 × 100 |
| `Frota.TempoPerdidoPadrao` | main.py:36-38 | a default record's lost-time breakdown is 0 h for each of the three causes |
| `Frota.UtilizacaoPadrao` | main.py:29-43 | utilisation of a default record fails on the missing qtd_hnu key; with qtd_hnu added it succeeds, and is 100 % when qtd_hnu is 0 |

## Left out

- Floating point: quantities are exact reals, so IEEE-754 rounding (and the exactness of the `horas_disponiveis == 0` test) is abstracted.
- Value types: every numeric entry is a real; Python's integer/float distinction and the behaviour of `*` on non-numbers (a string label, say) are not modelled.
- `calcular_tempo_perdido` beyond line 120: the source is cut off at line 123, so the lunch entry and any later entries, and the keys they read, are not part of this model. `Calculos.TempoPerdido` returns the three-entry map built by line 120; the source has no return there and goes on filling the map.
- The discarded locals at calculos.py:55-58 are left out: they read the same four keys in the same order as `calcular_tempo_parado` right after, so they change neither the result nor which key error is raised. The absenteeism and training hours at calculos.py:102-103 are computed and dropped, as in the source.
- The haul-cycle productivity estimator (`calcular_tempo_ciclo`, `calcular_tempo_ciclo_total`, `calcular_capacidade_liquida`, `calcular_produtividade_horaria`): a separate computation, not modelled.
- The dashboard (main.py:16-21 and 46-104): page setup, session state, sidebar, forms, metrics and charts are UI glue on a third-party framework; the calls there to an undefined `calcular_metrica_caminhao`, of `calcular_df` on a dictionary and of `gerar_grafico` with five arguments are broken glue with no behaviour to model.
- graficos.py (chart rendering) and multipage.py (page navigation) are not part of this model.
