/**
 * Planting-area calculators: the browser's `calcularArea` (script.js) and the
 * console's `CalculadoraArea` (fiap_farm.py). Lengths are in metres.
 */
module Geometry {
  import opened Wrappers

  /** Square metres in a hectare. */
  const M2PorHectare: real := 10000.0

  /** What a planting record keeps of its shape: `{lado}`, `{largura, altura}`, or `{}` for a record typed in by hand. */
  datatype Dimensoes = Lado(lado: real) | LarguraAltura(largura: real, altura: real) | SemDimensoes

  datatype Area = Area(areaM2: real, perimetro: real, dimensoes: Dimensoes, areaHectares: real)

  datatype AreaError = LadoInvalido | AlturaInvalida

  function Hectares(m2: real): (ha: real)
    ensures ha * M2PorHectare == m2
    ensures m2 > 0.0 ==> ha > 0.0
  {
    m2 / M2PorHectare
  }

  /**
   * `calcularArea`: a square when the type is "quadrado", a rectangle for any other
   * type; the side (or width) is checked first, the height only for a rectangle.
   */
  function CalcularArea(areaType: string, lado: Option<real>, altura: Option<real>): (r: Result<Area, AreaError>)
    ensures r.Ok? <==> Positive(lado) && (areaType == "quadrado" || Positive(altura))
    ensures !Positive(lado) ==> r == Err(LadoInvalido)
    ensures r.Ok? ==> r.value.perimetro > 0.0
    ensures r.Ok? ==> r.value.areaHectares * M2PorHectare == r.value.areaM2
    ensures r.Ok? && areaType == "quadrado" ==> r.value.dimensoes == Lado(lado.value)
    ensures r.Ok? && areaType != "quadrado" ==> r.value.dimensoes == LarguraAltura(lado.value, altura.value)
  {
    if !Positive(lado) then Err(LadoInvalido)
    else
      var l := lado.value;
      if areaType == "quadrado" then
        var m2 := l * l;
        Ok(Area(m2, 4.0 * l, Lado(l), Hectares(m2)))
      else if !Positive(altura) then Err(AlturaInvalida)
      else
        var h := altura.value;
        var m2 := l * h;
        Ok(Area(m2, 2.0 * (l + h), LarguraAltura(l, h), Hectares(m2)))
  }

  /** The area and perimeter of a result follow from the dimensions it records, and a rectangle's area is positive. */
  lemma AreaFromDimensoes(areaType: string, lado: Option<real>, altura: Option<real>)
    requires CalcularArea(areaType, lado, altura).Ok?
    ensures var a := CalcularArea(areaType, lado, altura).value;
      match a.dimensoes
      case Lado(l) => a.areaM2 == l * l && a.perimetro == 4.0 * l
      case LarguraAltura(w, h) => a.areaM2 == w * h && a.perimetro == 2.0 * (w + h) && a.areaM2 > 0.0
      case SemDimensoes => false
  {
    var a := CalcularArea(areaType, lado, altura).value;
    if a.dimensoes.LarguraAltura? {
      PositiveProduct(a.dimensoes.largura, a.dimensoes.altura);
    }
  }

  /** The product of two positive reals is positive. */
  lemma PositiveProduct(a: real, b: real)
    requires a > 0.0 && b > 0.0
    ensures a * b > 0.0
  {
  }

  /** A square of side l gives the same result as an l-by-l rectangle, apart from the dimensions recorded. */
  lemma SquareIsEqualSidedRectangle(l: real, other: string, altura: Option<real>)
    requires l > 0.0 && other != "quadrado"
    ensures var sq := CalcularArea("quadrado", Some(l), altura);
            var rect := CalcularArea(other, Some(l), Some(l));
            sq.Ok? && rect.Ok? && sq.value.areaM2 == rect.value.areaM2 &&
            sq.value.perimetro == rect.value.perimetro &&
            sq.value.areaHectares == rect.value.areaHectares
  {
  }

  /** `CalculadoraArea.calcular_quadrado`: `lado ** 2`, the area of a rectangle with equal sides. */
  function CalcularQuadrado(lado: real): (m2: real)
    ensures m2 == CalcularRetangulo(lado, lado)
  {
    lado * lado
  }

  /** `CalculadoraArea.calcular_retangulo`: `largura * altura`. */
  function CalcularRetangulo(largura: real, altura: real): (m2: real)
    ensures largura > 0.0 && altura > 0.0 ==> m2 > 0.0
  {
    if largura > 0.0 && altura > 0.0 then PositiveProduct(largura, altura); largura * altura
    else largura * altura
  }

  /** The console and browser calculators give the same square metres on every input the browser accepts. */
  lemma ConsoleAgreesWithBrowser(areaType: string, lado: Option<real>, altura: Option<real>)
    requires CalcularArea(areaType, lado, altura).Ok?
    ensures var a := CalcularArea(areaType, lado, altura).value;
      if areaType == "quadrado" then a.areaM2 == CalcularQuadrado(lado.value)
      else a.areaM2 == CalcularRetangulo(lado.value, altura.value)
  {
  }
}
