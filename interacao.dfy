/** The interactive part of the page: one piece of state, the area chosen on
    the range slider. It starts at 100 and every change event of the slider
    overwrites it with the slider's value; the estimated price shown beside it
    is always recomputed from the current area. The slider itself keeps the
    value between 50 and 200; the program never clamps it. */
module Interacao {
  import opened Regressao
  import opened Amostra

  /** Lower bound of the area slider. */
  const AREA_MINIMA: int := 50

  /** Upper bound of the area slider. */
  const AREA_MAXIMA: int := 200

  /** Area shown when the page first renders. */
  const AREA_PADRAO: int := 100

  /** The page's interaction state: the currently selected area. */
  class EstadoArea {
    var area: int

    /** The area is one the slider can produce. */
    ghost predicate Valid()
      reads this
    {
      AREA_MINIMA <= area <= AREA_MAXIMA
    }

    /** The estimated price displayed for the current area. Whatever the
        slider position, it lies between the model's prices at the slider's
        two ends, 365503 and 1390603. */
    function PrecoEstimado(): (p: int)
      reads this
      requires Valid()
      ensures Modelo(AREA_MINIMA) <= p <= Modelo(AREA_MAXIMA)
    {
      Modelo(area)
    }

    /** The initial state: area 100, displayed price 707203. */
    constructor ()
      ensures Valid()
      ensures area == AREA_PADRAO
      ensures PrecoEstimado() == 707203
    {
      area := AREA_PADRAO;
    }

    /** A change event of the slider carrying value `v`: the area becomes `v`
        and the displayed price follows it. Only this object changes; the
        dataset is a fixed value and is untouched. */
    method SetArea(v: int)
      requires Valid()
      requires AREA_MINIMA <= v <= AREA_MAXIMA
      modifies this
      ensures Valid()
      ensures area == v
      ensures PrecoEstimado() == Modelo(v)
    {
      area := v;
    }
  }

  /** Two change events with the same value leave the state the first one
      left: a repeated `SetArea(v)` changes nothing. Since `area` is the
      whole state, these postconditions are exactly the state that a single
      `SetArea(v)` leaves. */
  method SetAreaIdempotente(e: EstadoArea, v: int)
    requires e.Valid()
    requires AREA_MINIMA <= v <= AREA_MAXIMA
    modifies e
    ensures e.Valid()
    ensures e.area == v
    ensures e.PrecoEstimado() == Modelo(v)
  {
    e.SetArea(v);
    var areaUmaVez := e.area;
    var precoUmaVez := e.PrecoEstimado();
    e.SetArea(v);
    assert e.area == areaUmaVez && e.PrecoEstimado() == precoUmaVez;
  }

  /** Every area of the dataset is one the slider can select, but the dataset
      stops at 150 while the slider goes on to 200. */
  lemma DadosDentroDoSlider()
    ensures forall i :: 0 <= i < |Dados()| ==> AREA_MINIMA <= Dados()[i].area <= AREA_MAXIMA
    ensures Dados()[0].area == AREA_MINIMA
    ensures Dados()[|Dados()| - 1].area < AREA_MAXIMA
  {
  }
}
