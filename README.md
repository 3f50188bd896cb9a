# House-price explorer: the linear model, its sample dataset and the area slider

The page lets a user pick a built area on a range slider and shows the price
that a fixed linear regression, `Preço = 6834 × Área + 23803`, estimates for
it, next to a line chart of eleven sample points drawn from the same model.
This project models the three pieces of logic behind the page:

- `regressao.dfy`, module `Regressao`: the price model `modelo` as the function
  `Modelo` over `int`, with its worked values, its per-square-metre increment
  and its strict monotonicity.
- `dados.dfy`, module `Amostra`: the dataset `dados` as the sequence
  comprehension `Dados()` (point `i` has area `i * 10 + 50` and price
  `Modelo(area)`), with the lemmas that its areas form an arithmetic
  progression of step 10 from 50 to 150, that areas and prices increase
  strictly, and that consecutive prices differ by 68340.
- `interacao.dfy`, module `Interacao`: the `area` state cell as the class
  `EstadoArea` with one mutable field, its initial value 100, the slider's
  change event as `SetArea`, and the displayed price `PrecoEstimado`, always
  derived from the current area.

All quantities are small integers that a JavaScript number holds exactly, so
the model uses unbounded `int` with no rounding.

## Notes

- The code builds one fixed dataset: 11 points, areas 50 to 150, step 10,
  every price taken from the model. Nothing about it is configurable and its
  construction has no error path.
- The code never clamps the area: the slider's `min`/`max` attributes bound it.
  `SetArea` therefore requires `50 <= v <= 200` rather than clamping.
- The displayed price is recomputed from the state (`PrecoEstimado`) on every
  render; it is never stored.

## Model

| member | source | states |
|---|---|---|
| `Regressao.ModeloExemplos` | src/App.jsx:9 | the model gives 365503 at area 50, 707203 at 100, 1048903 at 150 and 1390603 at 200 |
| `Regressao.ModeloDiferenca` | src/App.jsx:55-59 | each extra square metre adds exactly 6834 to the price; the price difference of two areas is 6834 times their difference |
| `Regressao.ModeloCrescente` | src/App.jsx:9 | a smaller area gives a smaller price and conversely (if and only if); equal prices come only from equal areas |
| `Amostra.Dados` | src/App.jsx:11-14 | the dataset has 11 points, the first area is 50 and the last 150, consecutive areas differ by 10, every area lies in [50, 150] and every point lies on the model line |
| `Amostra.AreasEmProgressao` | src/App.jsx:12 | in a sequence of points whose areas step by a fixed amount, the area of point j is the area of point i plus the step times (j - i) |
| `Amostra.AreasCrescentes` | src/App.jsx:11-12 | a positive step makes the areas strictly increasing between any two points, not only neighbours |
| `Amostra.PrecosCrescentes` | src/App.jsx:13 | points on the model line with strictly increasing areas have strictly increasing prices |
| `Amostra.PrecosEspacados` | src/App.jsx:13 | points on the model line whose areas step by `passo` have prices that step by 6834 × `passo` |
| `Amostra.DadosCrescentes` | src/App.jsx:11-14 | the dataset's areas and prices are strictly increasing, and consecutive prices differ by exactly 68340 |
| `Interacao.EstadoArea.PrecoEstimado` | src/App.jsx:44 | the displayed price for any slider position lies between the model's prices at the slider's ends, 365503 and 1390603 |
| `Interacao.EstadoArea.constructor` | src/App.jsx:17 | the initial area is 100 and the displayed price is 707203 |
| `Interacao.EstadoArea.SetArea` | src/App.jsx:40 | a change event with value v in [50, 200] leaves area v and displayed price `Modelo(v)`; only the state object changes |
| `Interacao.SetAreaIdempotente` | src/App.jsx:40 | two change events with the same value leave the same state as one |
| `Interacao.DadosDentroDoSlider` | src/App.jsx:37-38 | every dataset area lies within the slider range [50, 200]; the dataset starts at the slider's minimum but stops at 150, short of its maximum 200 |

## Left out

- JSX markup, styling classes, the `Card`/`CardContent` and `Info` components, `framer-motion` animation and `recharts` chart rendering (src/App.jsx:19-80): presentation only, in libraries that are not part of this model.
- The `toLocaleString()` currency formatting of prices (src/App.jsx:44, 72): locale-dependent host formatting.
- The unused import `Slider` (src/App.jsx:4): a UI component that the page never renders.
- The string-to-number conversion `+e.target.value` of the change event (src/App.jsx:40): browser coercion; `SetArea` receives an integer already in [50, 200].
- React's re-render scheduling behind `useState` (src/App.jsx:17): only the resulting state value is modelled.
- Floating point: every value is a small integer that a JavaScript number represents exactly, so `int` is used.
