/**
 * Descriptive statistics: the browser's `processStats` (script.js) and the console
 * simulator's `calcular_estatisticas` (r_simulator.py). Square roots are taken by
 * a function passed in (`Math.sqrt`, or the root inside `statistics.stdev`); the
 * model says nothing about how it rounds.
 */
module Stats {
  import opened Wrappers
  import opened Numbers

  /** `Math.pow(x, 2)`. */
  function Square(x: real): (r: real)
    ensures r >= 0.0
  {
    x * x
  }

  /** Sum of squared deviations from `mean`, accumulated left to right as the `reduce` does. */
  function SumSquares(xs: seq<real>, mean: real): (r: real)
    ensures r >= 0.0
    decreases |xs|
  {
    if xs == [] then 0.0 else SumSquares(xs[..|xs| - 1], mean) + Square(xs[|xs| - 1] - mean)
  }

  /** The middle element of an ascending sequence, or the mean of the two middle ones for an even length. */
  function MedianOfSorted(s: seq<real>): (m: real)
    requires |s| > 0
    ensures Sorted(s) ==> s[(|s| - 1) / 2] <= m <= s[|s| / 2]
    ensures |s| % 2 == 1 ==> m == s[|s| / 2]
    ensures |s| % 2 == 0 ==> m + m == s[|s| / 2 - 1] + s[|s| / 2]
  {
    var n := |s|;
    if n % 2 == 0 then (s[n / 2 - 1] + s[n / 2]) / 2.0 else s[n / 2]
  }

  /** The median of an ascending sequence lies between its first and last elements. */
  lemma MedianBetween(s: seq<real>)
    requires |s| > 0 && Sorted(s)
    ensures s[0] <= MedianOfSorted(s) <= s[|s| - 1]
  {
    var n := |s|;
    if n % 2 == 0 {
      assert s[0] <= s[n / 2 - 1] <= s[n / 2] <= s[n - 1];
    } else {
      assert s[0] <= s[n / 2] <= s[n - 1];
    }
  }

  /** Where the values sit once sorted: the two ends and the median of an ascending copy. */
  datatype Ordem = Ordem(min: real, median: real, max: real)

  /** Reads the minimum, median and maximum off an ascending copy of `values`. */
  function OrdemDe(values: seq<real>): (o: Ordem)
    requires |values| > 0
    ensures o.min == Min(values) && o.max == Max(values)
    ensures o.min <= o.median <= o.max
    ensures o.median == MedianOfSorted(SortedCopy(values))
  {
    var sorted := SortedCopy(values);
    SortedEnds(sorted, values);
    MedianBetween(sorted);
    Ordem(sorted[0], MedianOfSorted(sorted), sorted[|sorted| - 1])
  }

  /** A quotient with a non-zero divisor, given back through the product it undoes. */
  function Quotient(num: real, den: real): (q: real)
    requires den != 0.0
    ensures q * den == num
    ensures num >= 0.0 && den > 0.0 ==> q >= 0.0
  {
    num / den
  }

  /** `sum / n`, with `n` positive. */
  function Mean(xs: seq<real>): (m: real)
    requires |xs| > 0
    ensures m * (|xs| as real) == Total(xs)
  {
    Quotient(Total(xs), |xs| as real)
  }

  /** The population variance: squared deviations from the mean, divided by n. */
  function PopulationVariance(xs: seq<real>): (v: real)
    requires |xs| > 0
    ensures v * (|xs| as real) == SumSquares(xs, Mean(xs))
    ensures v >= 0.0
  {
    Quotient(SumSquares(xs, Mean(xs)), |xs| as real)
  }

  /** The sample variance: squared deviations from the mean, divided by n - 1. */
  function SampleVariance(xs: seq<real>): (v: real)
    requires |xs| > 1
    ensures v * ((|xs| - 1) as real) == SumSquares(xs, Mean(xs))
    ensures v >= 0.0
  {
    Quotient(SumSquares(xs, Mean(xs)), (|xs| - 1) as real)
  }

  /** The coefficient of variation in percent, `dp / media * 100`, and 0 when the mean is 0. */
  function CoefVariacao(dp: real, media: real): (c: real)
    ensures media == 0.0 ==> c == 0.0
    ensures media != 0.0 ==> c * media == dp * 100.0
  {
    if media != 0.0 then Quotient(dp * 100.0, media) else 0.0
  }

  /** What `processStats` shows. */
  datatype Estatisticas = Estatisticas(
    n: nat, mean: real, variance: real, stdDev: real, median: real,
    min: real, max: real, range: real, coefVariacao: real)

  /** The `forEach` over the inputs: the fields that parse to a number, in order. */
  function ValoresValidos(inputs: seq<Option<real>>): (values: seq<real>)
    ensures |values| <= |inputs|
    ensures forall v :: v in values <==> Some(v) in inputs
    decreases |inputs|
  {
    if inputs == [] then []
    else
      var rest := ValoresValidos(inputs[..|inputs| - 1]);
      var last := inputs[|inputs| - 1];
      assert inputs == inputs[..|inputs| - 1] + [last];
      if last.Some? then rest + [last.value] else rest
  }

  /** Reading the fields in order: the valid numbers of a concatenation are those of each part. */
  lemma {:induction false} ValoresValidosAppend(a: seq<Option<real>>, b: seq<Option<real>>)
    ensures ValoresValidos(a + b) == ValoresValidos(a) + ValoresValidos(b)
    decreases |b|
  {
    if b == [] {
      assert a + b == a;
    } else {
      var b' := b[..|b| - 1];
      assert (a + b)[..|a + b| - 1] == a + b';
      ValoresValidosAppend(a, b');
    }
  }

  /** The `forEach` of `processStats`: pushes each field that parses to a number. */
  method LerValores(inputs: seq<Option<real>>) returns (values: seq<real>)
    ensures values == ValoresValidos(inputs)
  {
    values := [];
    var i := 0;
    while i < |inputs|
      invariant 0 <= i <= |inputs|
      invariant values == ValoresValidos(inputs[..i])
    {
      assert inputs[..i + 1] == inputs[..i] + [inputs[i]];
      ValoresValidosAppend(inputs[..i], [inputs[i]]);
      assert ValoresValidos([inputs[i]]) == if inputs[i].Some? then [inputs[i].value] else [] by {
        assert [inputs[i]][..0] == [];
      }
      if inputs[i].Some? {
        values := values + [inputs[i].value];
      }
      i := i + 1;
    }
    assert inputs[..i] == inputs;
  }

  /**
   * The figures `processStats` shows for a non-empty list: the mean, the population
   * variance (divided by n), its root, and the median, minimum and maximum read off
   * an ascending copy.
   */
  function Descrever(values: seq<real>, sqrt: real -> real): (st: Estatisticas)
    requires values != []
    ensures st.n == |values|
    ensures st.mean == Mean(values)
    ensures st.variance == PopulationVariance(values) && st.variance >= 0.0
    ensures st.stdDev == sqrt(st.variance)
    ensures st.min == Min(values) && st.max == Max(values)
    ensures st.min <= st.median <= st.max
    ensures st.median == MedianOfSorted(SortedCopy(values))
    ensures st.range == st.max - st.min && st.range >= 0.0
    ensures st.coefVariacao == CoefVariacao(st.stdDev, st.mean)
    ensures st.mean == 0.0 ==> st.coefVariacao == 0.0
  {
    var mean := Mean(values);
    var variance := PopulationVariance(values);
    var stdDev := sqrt(variance);
    var o := OrdemDe(values);
    Estatisticas(|values|, mean, variance, stdDev, o.median, o.min, o.max, o.max - o.min, CoefVariacao(stdDev, mean))
  }

  /** `processStats` after reading the inputs: an empty list returns before anything is shown. */
  function ProcessStats(values: seq<real>, sqrt: real -> real): (r: Option<Estatisticas>)
    ensures r.None? <==> values == []
    ensures r.Some? ==> r.value.n == |values| && r.value.min <= r.value.median <= r.value.max
  {
    if values == [] then None else Some(Descrever(values, sqrt))
  }

  /**
   * Sorting works on a copy and only the values matter, not their order: two
   * arrangements of the same values have the same count, median, minimum and maximum.
   */
  lemma OrderDoesNotMatter(a: seq<real>, b: seq<real>, sqrt: real -> real)
    requires multiset(a) == multiset(b) && a != []
    ensures var ra, rb := Descrever(a, sqrt), Descrever(b, sqrt);
      ra.n == rb.n && ra.median == rb.median && ra.min == rb.min && ra.max == rb.max
  {
    assert |a| == |multiset(a)| == |multiset(b)| == |b|;
    SortedUnique(SortedCopy(a), SortedCopy(b));
  }

  /** What `calcular_estatisticas` returns (before rounding). */
  datatype EstatisticasPy = EstatisticasPy(
    n: nat, media: real, desvioPadrao: real, variancia: real, mediana: real,
    minimo: real, maximo: real, amplitude: real, coefVariacao: real)

  /**
   * `calcular_estatisticas`: `None` for an empty list; the sample variance (divided
   * by n - 1) and its root when there are at least two values, 0 for both otherwise.
   */
  function CalcularEstatisticas(dados: seq<real>, sqrt: real -> real): (r: Option<EstatisticasPy>)
    ensures r.None? <==> dados == []
    ensures r.Some? ==>
      && r.value.n == |dados|
      && r.value.media == Mean(dados)
      && (|dados| > 1 ==> r.value.variancia == SampleVariance(dados))
      && (|dados| > 1 ==> r.value.desvioPadrao == sqrt(r.value.variancia))
      && (|dados| == 1 ==> r.value.variancia == 0.0 && r.value.desvioPadrao == 0.0)
      && r.value.variancia >= 0.0
      && r.value.minimo == Min(dados) && r.value.maximo == Max(dados)
      && r.value.minimo <= r.value.mediana <= r.value.maximo
      && r.value.mediana == MedianOfSorted(SortedCopy(dados))
      && r.value.amplitude == r.value.maximo - r.value.minimo && r.value.amplitude >= 0.0
      && r.value.coefVariacao == CoefVariacao(r.value.desvioPadrao, r.value.media)
      && (r.value.media == 0.0 ==> r.value.coefVariacao == 0.0)
  {
    if dados == [] then None
    else
      var media := Mean(dados);
      var variancia := if |dados| > 1 then SampleVariance(dados) else 0.0;
      var desvioPadrao := if |dados| > 1 then sqrt(variancia) else 0.0;
      var o := OrdemDe(dados);
      Some(EstatisticasPy(|dados|, media, desvioPadrao, variancia, o.median, o.min, o.max, o.max - o.min, CoefVariacao(desvioPadrao, media)))
  }

  /** A single value is its own mean, so it has no spread: its population variance is 0. */
  lemma SingleValueHasNoSpread(v: real)
    ensures Mean([v]) == v
    ensures PopulationVariance([v]) == 0.0
  {
    assert [v][..0] == [];
    assert Total([v]) == v;
    assert SumSquares([v], v) == 0.0;
  }

  /** Both variances divide the same sum of squared deviations, one by n and one by n - 1. */
  lemma VarianceDivisors(xs: seq<real>)
    requires |xs| > 1
    ensures PopulationVariance(xs) * (|xs| as real) == SampleVariance(xs) * ((|xs| - 1) as real)
    ensures PopulationVariance(xs) <= SampleVariance(xs)
  {
    var n, p, q := |xs| as real, PopulationVariance(xs), SampleVariance(xs);
    assert ((|xs| - 1) as real) == n - 1.0;
    assert p * n == q * (n - 1.0);
    assert (q - p) * n == q by {
      assert q * (n - 1.0) == q * n - q;
      assert (q - p) * n == q * n - p * n;
    }
    NonNegativeFactor(q - p, n);
  }

  /** A product with a positive factor is non-negative only if the other factor is. */
  lemma NonNegativeFactor(x: real, n: real)
    requires n > 0.0 && x * n >= 0.0
    ensures x >= 0.0
  {
    if x < 0.0 {
      assert false;
    }
  }

  /**
   * The browser and the console agree on everything but the variance: the browser
   * divides by n where the console divides by n - 1, so for two or more values the
   * browser's variance is the console's times (n - 1) / n (`VarianceDivisors`) and
   * never larger; for one value both are 0.
   */
  lemma BrowserVersusConsole(values: seq<real>, sqrt: real -> real)
    requires values != []
    ensures var js, py := Descrever(values, sqrt), CalcularEstatisticas(values, sqrt).value;
      && js.n == py.n && js.mean == py.media && js.median == py.mediana
      && js.min == py.minimo && js.max == py.maximo && js.range == py.amplitude
      && (js.n > 1 ==> js.variance == PopulationVariance(values) && py.variancia == SampleVariance(values))
      && (js.n > 1 ==> js.variance <= py.variancia)
      && (js.n == 1 ==> js.variance == 0.0 && py.variancia == 0.0)
  {
    if |values| == 1 {
      assert values == [values[0]];
      SingleValueHasNoSpread(values[0]);
    } else {
      VarianceDivisors(values);
    }
  }

  /** Any ascending arrangement of the values gives the same ends and median as the sorted copy. */
  lemma OrdemFromArrangement(values: seq<real>, sorted: seq<real>)
    requires values != [] && Sorted(sorted) && multiset(sorted) == multiset(values)
    ensures |sorted| == |values|
    ensures OrdemDe(values) == Ordem(sorted[0], MedianOfSorted(sorted), sorted[|sorted| - 1])
  {
    assert |sorted| == |multiset(sorted)| == |multiset(values)| == |values|;
    SortedUnique(SortedCopy(values), sorted);
  }

  /** One of the simulator's sample series. */
  datatype Serie = Serie(categoria: string, valores: seq<real>)

  /** The simulator's sample data, in the order the dictionary lists it. */
  const DadosExemplo: seq<Serie> := [
    Serie("producao", [1200.0, 1350.0, 1180.0, 1420.0, 1290.0, 1380.0, 1150.0, 1340.0]),
    Serie("custos", [45000.0, 52000.0, 43000.0, 58000.0, 49000.0, 55000.0, 41000.0, 53000.0]),
    Serie("areas", [12.5, 15.2, 11.8, 16.7, 13.9, 15.8, 10.9, 14.6]),
    Serie("temperaturas", [23.5, 25.2, 22.8, 26.1, 24.3, 25.7, 21.9, 24.8])]

  /** `dados_exemplo.get(tipo, [])`. */
  function SerieExemplo(tipo: string): (valores: seq<real>)
    ensures valores != [] <==> exists k :: 0 <= k < |DadosExemplo| && DadosExemplo[k].categoria == tipo
  {
    if tipo == "producao" then DadosExemplo[0].valores
    else if tipo == "custos" then DadosExemplo[1].valores
    else if tipo == "areas" then DadosExemplo[2].valores
    else if tipo == "temperaturas" then DadosExemplo[3].valores
    else []
  }

  /**
   * The series `gerar_relatorio_estatistico` goes through: the named one (an empty
   * list for an unknown name), or all four when no name is given (the empty string
   * is false in Python).
   */
  function SeriesParaAnalise(tipo: string): (r: seq<Serie>)
    ensures tipo == "" ==> r == DadosExemplo
    ensures tipo != "" ==> r == [Serie(tipo, SerieExemplo(tipo))]
  {
    if tipo != "" then [Serie(tipo, SerieExemplo(tipo))] else DadosExemplo
  }

  /** The loop's `if not valores: continue`: the non-empty series, in order. */
  function NaoVazias(series: seq<Serie>): (r: seq<Serie>)
    ensures |r| <= |series|
    ensures forall i :: 0 <= i < |r| ==> r[i].valores != []
    ensures forall s :: s in r <==> s in series && s.valores != []
    decreases |series|
  {
    if series == [] then []
    else
      var rest := NaoVazias(series[..|series| - 1]);
      var last := series[|series| - 1];
      assert series == series[..|series| - 1] + [last];
      if last.valores == [] then rest else rest + [last]
  }

  /** Skipping empty series passes a list with none over unchanged. */
  lemma {:induction false} NaoVaziasKeepsAll(series: seq<Serie>)
    requires forall i :: 0 <= i < |series| ==> series[i].valores != []
    ensures NaoVazias(series) == series
    decreases |series|
  {
    if series != [] {
      var init := series[..|series| - 1];
      NaoVaziasKeepsAll(init);
      assert series == init + [series[|series| - 1]];
    }
  }

  /** The series whose statistics are reported. */
  function SeriesAnalisadas(tipo: string): (r: seq<Serie>)
    ensures forall i :: 0 <= i < |r| ==> r[i].valores != []
  {
    NaoVazias(SeriesParaAnalise(tipo))
  }

  /** `gerar_relatorio_estatistico` without the printing: each analysed series with its statistics. */
  function GerarRelatorioEstatistico(tipo: string, sqrt: real -> real): (r: seq<(string, EstatisticasPy)>)
    ensures |r| == |SeriesAnalisadas(tipo)|
    ensures forall i :: 0 <= i < |r| ==>
      r[i].0 == SeriesAnalisadas(tipo)[i].categoria && r[i].1.n == |SeriesAnalisadas(tipo)[i].valores| > 0
    ensures forall i :: 0 <= i < |r| ==> CalcularEstatisticas(SeriesAnalisadas(tipo)[i].valores, sqrt) == Some(r[i].1)
  {
    var series := SeriesAnalisadas(tipo);
    seq(|series|, i requires 0 <= i < |series| => (series[i].categoria, CalcularEstatisticas(series[i].valores, sqrt).value))
  }

  /** With no category (the empty string) all four sample series are analysed, in the dictionary's order. */
  lemma AllSeriesWithoutCategory()
    ensures SeriesAnalisadas("") == DadosExemplo
  {
    NaoVaziasKeepsAll(DadosExemplo);
  }

  /** A known category gives exactly its own series; an unknown one maps to an empty list, which is skipped. */
  lemma OneCategory(tipo: string)
    requires tipo != ""
    ensures SerieExemplo(tipo) != [] ==> SeriesAnalisadas(tipo) == [Serie(tipo, SerieExemplo(tipo))]
    ensures SerieExemplo(tipo) == [] ==> SeriesAnalisadas(tipo) == []
  {
    var series := [Serie(tipo, SerieExemplo(tipo))];
    assert series[..0] == [];
  }
}
