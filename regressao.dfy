/** The fixed linear price model of the house-price explorer: a built area
    (in square metres) is mapped to an estimated price (in reais) by
    `Preço = 6834 × Área + 23803`. The coefficients are constants; nothing is
    fitted at run time. Every quantity the program feeds it is a small integer,
    exactly representable as a JavaScript number, so the model works over `int`. */
module Regressao {

  /** Price added by each extra square metre of built area. */
  const INCLINACAO: int := 6834

  /** Price of a (hypothetical) zero-area property. */
  const INTERCEPTO: int := 23803

  /** The estimated price of a property with the given built area. */
  function Modelo(area: int): int
  {
    INCLINACAO * area + INTERCEPTO
  }

  /** The values quoted for the ends and the middle of the sample range. */
  lemma ModeloExemplos()
    ensures Modelo(50) == 365503
    ensures Modelo(100) == 707203
    ensures Modelo(150) == 1048903
    ensures Modelo(200) == 1390603
  {
  }

  /** Every extra square metre adds exactly 6834 to the price, and more
      generally the price difference is the slope times the area difference. */
  lemma ModeloDiferenca(a1: int, a2: int)
    ensures Modelo(a1 + 1) - Modelo(a1) == INCLINACAO
    ensures Modelo(a2) - Modelo(a1) == INCLINACAO * (a2 - a1)
  {
  }

  /** The model is strictly increasing, in both directions: a larger area gives
      a larger price and a larger price comes only from a larger area. Hence
      the model is also injective. */
  lemma ModeloCrescente(a1: int, a2: int)
    ensures a1 < a2 <==> Modelo(a1) < Modelo(a2)
    ensures Modelo(a1) == Modelo(a2) ==> a1 == a2
  {
  }
}
