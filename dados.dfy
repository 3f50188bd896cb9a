/** The reference dataset drawn on the chart: eleven sample points, evenly
    spaced ten square metres apart from 50 to 150, each lying exactly on the
    model line. It is built once, when the program loads, and never changes. */
module Amostra {
  import opened Regressao

  /** One sample point of the chart: an area and its price. */
  datatype Ponto = Ponto(area: int, preco: int)

  /** Number of sample points. */
  const TAMANHO: nat := 11

  /** Area of the first sample point. */
  const AREA_INICIAL: int := 50

  /** Distance between the areas of consecutive sample points. */
  const PASSO: int := 10

  /** The point's price is the model's price for its area. */
  predicate NaReta(p: Ponto)
  {
    p.preco == Modelo(p.area)
  }

  /** Each point's area is `passo` more than the area of the point before it. */
  predicate EspacamentoUniforme(s: seq<Ponto>, passo: int)
  {
    forall k :: 0 < k < |s| ==> s[k].area == s[k - 1].area + passo
  }

  /** The areas of `s` increase strictly from each point to every later one. */
  predicate AreasEstritamenteCrescentes(s: seq<Ponto>)
  {
    forall i, j :: 0 <= i < j < |s| ==> s[i].area < s[j].area
  }

  /** The prices of `s` increase strictly from each point to every later one. */
  predicate PrecosEstritamenteCrescentes(s: seq<Ponto>)
  {
    forall i, j :: 0 <= i < j < |s| ==> s[i].preco < s[j].preco
  }

  /** The dataset: point `i` has area `i * 10 + 50` and the model's price for
      that area. Its contract says what that yields: eleven points, from 50 to
      150, ten apart, every one on the model line. */
  function Dados(): (d: seq<Ponto>)
    ensures |d| == 11
    ensures d[0].area == 50 && d[|d| - 1].area == 150
    ensures EspacamentoUniforme(d, 10)
    ensures forall i :: 0 <= i < |d| ==> NaReta(d[i])
    ensures forall i :: 0 <= i < |d| ==> 50 <= d[i].area <= 150
  {
    seq(TAMANHO, i => Ponto(i * PASSO + AREA_INICIAL, Modelo(i * PASSO + AREA_INICIAL)))
  }

  /** In a uniformly spaced sequence the areas form an arithmetic progression. */
  lemma {:induction false} AreasEmProgressao(s: seq<Ponto>, passo: int, i: int, j: int)
    requires EspacamentoUniforme(s, passo)
    requires 0 <= i <= j < |s|
    ensures s[j].area == s[i].area + passo * (j - i)
    decreases j - i
  {
    if i < j {
      AreasEmProgressao(s, passo, i, j - 1);
      assert s[j].area == s[j - 1].area + passo;
      assert passo * (j - i) == passo * (j - 1 - i) + passo;
    }
  }

  /** A positive spacing makes the areas strictly increasing over the whole
      sequence, not only between neighbours. */
  lemma {:induction false} AreasCrescentes(s: seq<Ponto>, passo: int)
    requires passo > 0
    requires EspacamentoUniforme(s, passo)
    ensures AreasEstritamenteCrescentes(s)
  {
    forall i, j | 0 <= i < j < |s|
      ensures s[i].area < s[j].area
    {
      AreasEmProgressao(s, passo, i, j);
      ProdutoPositivo(passo, j - i);
    }
  }

  /** A product of two positive integers is positive: a nonlinear-arithmetic
      step that exists only to help the proof of `AreasCrescentes`. */
  lemma ProdutoPositivo(a: int, b: int)
    requires a > 0 && b > 0
    ensures a * b > 0
  {
  }

  /** Points on the model line whose areas increase strictly have prices that
      increase strictly. */
  lemma PrecosCrescentes(s: seq<Ponto>)
    requires forall i :: 0 <= i < |s| ==> NaReta(s[i])
    requires AreasEstritamenteCrescentes(s)
    ensures PrecosEstritamenteCrescentes(s)
  {
    forall i, j | 0 <= i < j < |s|
      ensures s[i].preco < s[j].preco
    {
      ModeloCrescente(s[i].area, s[j].area);
    }
  }

  /** Points on the model line spaced `passo` apart in area are spaced
      `6834 * passo` apart in price. */
  lemma PrecosEspacados(s: seq<Ponto>, passo: int)
    requires forall i :: 0 <= i < |s| ==> NaReta(s[i])
    requires EspacamentoUniforme(s, passo)
    ensures forall k :: 0 < k < |s| ==> s[k].preco == s[k - 1].preco + INCLINACAO * passo
  {
    forall k | 0 < k < |s|
      ensures s[k].preco == s[k - 1].preco + INCLINACAO * passo
    {
      ModeloDiferenca(s[k - 1].area, s[k].area);
    }
  }

  /** The dataset's areas and prices both increase strictly, and consecutive
      prices differ by exactly 68340 (ten square metres at 6834 each). */
  lemma DadosCrescentes()
    ensures AreasEstritamenteCrescentes(Dados())
    ensures PrecosEstritamenteCrescentes(Dados())
    ensures forall k :: 0 < k < |Dados()| ==> Dados()[k].preco - Dados()[k - 1].preco == 68340
  {
    var d := Dados();
    AreasCrescentes(d, 10);
    PrecosCrescentes(d);
    PrecosEspacados(d, 10);
  }
}
