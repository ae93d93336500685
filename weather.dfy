/**
 * The simulated weather: the console simulator's per-city lookup with its default
 * city (r_simulator.py) and the browser's agronomic reading of a weather record
 * (`getAnaliseAgricola` in script.js).
 */
module Weather {

  /** One city's simulated conditions. */
  datatype Clima = Clima(
    temperatura: real, umidade: real, pressao: real, vento: real,
    condicao: string, visibilidade: int, uvIndex: int)

  const SaoPaulo: Clima := Clima(23.5, 65.0, 1013.2, 12.3, "Parcialmente nublado", 10, 6)
  const RioDeJaneiro: Clima := Clima(28.2, 72.0, 1015.8, 8.7, "Ensolarado", 15, 8)
  const Brasilia: Clima := Clima(25.1, 45.0, 1012.5, 15.2, "Céu limpo", 20, 9)

  /** The simulator's table, keyed by the city's display name. */
  const DadosSimulados: map<string, Clima> :=
    map["São Paulo" := SaoPaulo, "Rio de Janeiro" := RioDeJaneiro, "Brasília" := Brasilia]

  /**
   * `obter_dados_meteorologicos`: the entry for a listed city, São Paulo's for any
   * other name. The answer is always one of the three entries, and it is São Paulo's
   * exactly when the name is neither of the other two cities.
   */
  function ObterDadosMeteorologicos(cidade: string): (c: Clima)
    ensures c == SaoPaulo || c == RioDeJaneiro || c == Brasilia
    ensures c == SaoPaulo <==> cidade != "Rio de Janeiro" && cidade != "Brasília"
    ensures c == RioDeJaneiro <==> cidade == "Rio de Janeiro"
    ensures c == Brasilia <==> cidade == "Brasília"
  {
    if cidade in DadosSimulados then DadosSimulados[cidade] else DadosSimulados["São Paulo"]
  }

  /** Calling without a city is asking for São Paulo. */
  lemma DefaultCity()
    ensures ObterDadosMeteorologicos("São Paulo") == SaoPaulo
    ensures forall cidade :: cidade !in DadosSimulados ==> ObterDadosMeteorologicos(cidade) == SaoPaulo
  {
  }

  /** The browser's record: the same readings, without visibility and UV index. */
  datatype ClimaWeb = ClimaWeb(cidade: string, temperatura: real, umidade: real, pressao: real, vento: real, condicao: string)

  /** The browser's `weatherData`, keyed by the value of the city selector. */
  const WeatherData: map<string, ClimaWeb> := map[
    "sao-paulo" := ClimaWeb("São Paulo", 23.5, 65.0, 1013.2, 12.3, "Parcialmente nublado"),
    "rio-janeiro" := ClimaWeb("Rio de Janeiro", 28.2, 72.0, 1015.8, 8.7, "Ensolarado"),
    "brasilia" := ClimaWeb("Brasília", 25.1, 45.0, 1012.5, 15.2, "Céu limpo"),
    "salvador" := ClimaWeb("Salvador", 29.8, 78.0, 1016.3, 18.5, "Parcialmente nublado"),
    "belo-horizonte" := ClimaWeb("Belo Horizonte", 22.7, 58.0, 1014.1, 9.8, "Nublado")]

  /** Whether a browser record and a console record report the same readings. */
  predicate MesmasLeituras(w: ClimaWeb, c: Clima)
  {
    w.temperatura == c.temperatura && w.umidade == c.umidade && w.pressao == c.pressao
    && w.vento == c.vento && w.condicao == c.condicao
  }

  /**
   * Every city the console knows is also in the browser's table, under its display
   * name and with the same readings; the browser adds Salvador and Belo Horizonte,
   * which the console answers with São Paulo's data.
   */
  lemma BrowserAndConsoleAgree()
    ensures forall chave :: chave in WeatherData && WeatherData[chave].cidade in DadosSimulados ==>
      MesmasLeituras(WeatherData[chave], ObterDadosMeteorologicos(WeatherData[chave].cidade))
    ensures forall cidade :: cidade in DadosSimulados ==>
      exists chave :: chave in WeatherData && WeatherData[chave].cidade == cidade
    ensures ObterDadosMeteorologicos(WeatherData["salvador"].cidade) == SaoPaulo
  {
    assert WeatherData["sao-paulo"].cidade == "São Paulo";
    assert WeatherData["rio-janeiro"].cidade == "Rio de Janeiro";
    assert WeatherData["brasilia"].cidade == "Brasília";
  }

  /** A reading against a band: below it, inside it, or above it. */
  datatype Nivel = Baixo | Adequado | Alto

  /** The three remarks of `getAnaliseAgricola`, one per reading. */
  datatype Analise = Analise(temperatura: Nivel, umidade: Nivel, ventoForte: bool)

  /**
   * `getAnaliseAgricola`: temperature below 15 is low and above 35 high; humidity
   * below 40 is low and above 80 high; wind above 25 is strong. Each reading gets
   * exactly one remark, and the bands' ends belong to the adequate band.
   */
  function GetAnaliseAgricola(temperatura: real, umidade: real, vento: real): (a: Analise)
    ensures a.temperatura == Baixo <==> temperatura < 15.0
    ensures a.temperatura == Alto <==> temperatura > 35.0
    ensures a.temperatura == Adequado <==> 15.0 <= temperatura <= 35.0
    ensures a.umidade == Baixo <==> umidade < 40.0
    ensures a.umidade == Alto <==> umidade > 80.0
    ensures a.umidade == Adequado <==> 40.0 <= umidade <= 80.0
    ensures a.ventoForte <==> vento > 25.0
  {
    var t := if temperatura < 15.0 then Baixo else if temperatura > 35.0 then Alto else Adequado;
    var u := if umidade < 40.0 then Baixo else if umidade > 80.0 then Alto else Adequado;
    Analise(t, u, vento > 25.0)
  }

  /** The analysis only moves up as a reading rises: it never goes from high back to adequate or low. */
  lemma AnaliseMonotone(t1: real, t2: real, u1: real, u2: real, v1: real, v2: real)
    requires t1 <= t2 && u1 <= u2 && v1 <= v2
    ensures var a1, a2 := GetAnaliseAgricola(t1, u1, v1), GetAnaliseAgricola(t2, u2, v2);
      && (a1.temperatura == Alto ==> a2.temperatura == Alto)
      && (a2.temperatura == Baixo ==> a1.temperatura == Baixo)
      && (a1.umidade == Alto ==> a2.umidade == Alto)
      && (a2.umidade == Baixo ==> a1.umidade == Baixo)
      && (a1.ventoForte ==> a2.ventoForte)
  {
  }

  /** Every city in the browser's table reads adequate for temperature, humidity and wind. */
  lemma SimulatedCitiesAreAdequate()
    ensures forall chave :: chave in WeatherData ==>
      GetAnaliseAgricola(WeatherData[chave].temperatura, WeatherData[chave].umidade, WeatherData[chave].vento)
        == Analise(Adequado, Adequado, false)
  {
  }
}
