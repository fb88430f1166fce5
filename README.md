# AntiGiro dashboard core, modelled in Dafny

AntiGiro monitors containers of sharp medical waste. Each container carries a
weight and fill-level sensor, and a React dashboard shows the readings. This
project models the dashboard's decision logic:

- **Prediction engine** (`Prediction`). It finds and loads the LSTM network
  and its scaler. It prepares the 12-reading feature window and normalises
  it. The network's answer is denormalised and checked for plausibility; a
  rejected answer falls back to a one-hour least-squares heuristic. Then come
  the safety clamps, the data-quality confidence score and the
  colour and priority ladder.
- **Analysis page** (`Analysis`). It covers the model initialisation, the
  history fetches and the "predict" handler with its guards and its save of
  the record. It also covers the colour, badge and chart helpers the page
  renders from a prediction.
- **Configuration page** (`Configuration`). It covers the status badge, the
  alert list built from the latest reading, and the threshold form. The form
  is loaded from the selected container, reset to it and saved back into it.
- **Container edit dialog** (`EditContenedor`). It covers form filling, the
  change handler with its `Number(...)` coercion, and the five ordered
  validation checks before the update.
- **User edit dialog** (`EditUser`). It covers form filling, the name being
  upper-cased, the two required-field checks and the trimmed payload.
- **Readings hook** (`Lecturas`). It covers formatting the stored alerts and
  sorting them newest first, done in place on an array.
- **Route guard** (`ProtectedRoutes`). It decides between the login page, the
  home page and the protected page.

The shared modules are `Js` and `Records`.

- `Js` holds the JavaScript semantics the code relies on:
  - `||` defaults on strings and numbers, with their truthiness;
  - `NaN` comparisons;
  - `Number(...)` on decimal strings;
  - `trim`;
  - `toUpperCase` on Basic Latin and Latin-1 letters;
  - rendering integers as decimal strings.
- `Records` holds the API's value types: a container, a reading, a stored
  alert and a user.

Functions of the page state become methods of classes (`AnalysisView`,
`ConfigurationView`, `EditContenedorView`, `EditUserView`, `LecturasHook`,
`PredictionService`). Each method is proved against the pure function that
specifies it. Those functions carry the lemmas.

## Model

| member | source | states |
|---|---|---|
| Prediction.Preferido | src/services/predictionService.js:259-260 | `suave \|\| raw`: the smoothed value whenever it is present and non-zero, the raw one otherwise |
| Prediction.Ultimos | src/services/predictionService.js:239 | `slice(-k)` keeps exactly min(k, n) elements, and they are the last ones of the list |
| Prediction.PrepareSequence | src/services/predictionService.js:213-248 | the window fills exactly when there are at least 12 readings; otherwise the error carries the number received; the window is the feature rows of the last 12 readings, in order |
| Prediction.MensajeNombraCantidad | src/services/predictionService.js:241-242 | the insufficient-data message ends with the number of readings received |
| Prediction.NormalizeData | src/services/predictionService.js:62-69 | shape kept; each cell is `(v - min[j]) * scale[j]` of its column |
| Prediction.NormalizeRoundTrip | src/services/predictionService.js:62-74 | denormalising a normalised weight gives the weight back |
| Prediction.DenormalizeRoundTrip | src/services/predictionService.js:62-74 | normalising a denormalised output gives the output back |
| Prediction.Horas | src/services/predictionService.js:82-83 | one value per timestamp; the first is 0 and each one, times the milliseconds in an hour, is its timestamp's distance from the first |
| Prediction.PendienteDeLinea | src/services/predictionService.js:85-100 | sums taken along a line with slope b give the least-squares slope b, floored at 0 |
| Prediction.DenormalizePrediction | src/services/predictionService.js:71-74 | inverts the weight column's normalisation: `(r - min[0]) * scale[0]` is the scaled value |
| Prediction.CalcularTasaCrecimiento | src/services/predictionService.js:77-101 | fewer than two samples give rate 0; away from the degenerate denominator the rate is never negative |
| Prediction.TasaDeLinea | src/services/predictionService.js:77-101 | weights lying exactly on a line `a + b·hours`, over two samples or more with a non-degenerate denominator, give the rate max(0, b) |
| Prediction.TasaEjemploHorario | src/services/predictionService.js:77-101 | 1.0, 1.2 and 1.4 kg one hour apart grow at 0.2 kg/h, as an instance of `TasaDeLinea` |
| Prediction.TasaDegeneradaNegativa | src/services/predictionService.js:93-96 | the degenerate-denominator fallback is not floored: two readings at the same instant going 2 → 1 kg give -1 |
| Prediction.PredecirPorHeuristica | src/services/predictionService.js:104-123 | delta = rate × projection hours; prediction = current weight + delta |
| Prediction.HeuristicaSoloUltimos | src/services/predictionService.js:105-106 | readings older than the last eight have no influence |
| Prediction.HeuristicaUsaTodasSiPocas | src/services/predictionService.js:105-111 | with eight readings or fewer, all of them are fitted |
| Prediction.DesviacionComparada | src/services/predictionService.js:151-155 | comparing the standard deviation with a positive threshold is comparing the variance with its square |
| Prediction.Varianza | src/services/predictionService.js:207-211 | the variance is never negative, and equal values have variance 0 |
| Prediction.VarianzaPoblacional | src/services/predictionService.js:209 | the divisor is n, not n - 1 |
| Prediction.SensorEstaticoIff | src/services/predictionService.js:145-146 | the last five weights form a one-element set exactly when they are all equal to the last one |
| Prediction.Gaps | src/services/predictionService.js:179-183 | n - 1 consecutive differences, the i-th being `ts[i+1] - ts[i]` |
| Prediction.ContarInvalidas | src/services/predictionService.js:167-170 | the number of invalid readings is at most n, 0 exactly when every reading is valid and n exactly when every one is invalid |
| Prediction.Maximo | src/services/predictionService.js:185 | `Math.max` is an upper bound that occurs in the list |
| Prediction.HuecoGrande | src/services/predictionService.js:184-187 | the large-gap test holds exactly when some gap exceeds twice the mean gap; it fails when there are no gaps |
| Prediction.Confianza | src/services/predictionService.js:126-205 | the score is in [0, 100], at most 65 for the heuristic, and equal to the penalised value whenever no clamp applies |
| Prediction.ConfianzaHeuristicaEsTope | src/services/predictionService.js:192-198 | the heuristic's confidence is the model's confidence capped at 65 |
| Prediction.RecogerGaps | src/services/predictionService.js:180-183 | the loop collects exactly the consecutive differences |
| Prediction.CalcularConfianza | src/services/predictionService.js:126-205 | the loop-and-penalty method computes `Confianza`: it stays in [0, 100] and at most 65 for the heuristic |
| Prediction.PenalizarMuestras | src/services/predictionService.js:130-157 | the running confidence loses exactly the few-readings, frozen-sensor and low-variability penalties |
| Prediction.PenalizarCalidad | src/services/predictionService.js:159-190 | the running confidence loses exactly the level-at-100 %, invalid-values and large-gap penalties |
| Prediction.InterpretarPrediccion | src/services/predictionService.js:397-443 | each priority holds exactly on its level/delta range (99.5, 90, then delta 0.2 and 0.05); each colour holds exactly for its priorities; each priority comes with its rung's state and decision texts |
| Prediction.InterpretacionMonotona | src/services/predictionService.js:397-443 | a fuller container or a larger delta never lowers the priority |
| Prediction.CalidadDatos | src/services/predictionService.js:385 | 'Alta' exactly from 80, 'Media' exactly in [60, 80), 'Baja' exactly under 60 |
| Prediction.IntentarModelo | src/services/predictionService.js:268-313 | the gate's outcomes. Too few readings or no scaler reject without an output. An answer is accepted exactly when it passes both plausibility checks. A rejection names the check that failed. An inference failure rejects |
| Prediction.Estimar | src/services/predictionService.js:268-340 | the method is LSTM exactly for an accepted output, whose weight and delta are then the network's; the network's output is recorded whenever it answered; the heuristic's figures, rate and reason whenever it is used |
| Prediction.EstimarCoherente | src/services/predictionService.js:285-329 | the chosen estimator's delta is measured from the current weight |
| Prediction.Acotar | src/services/predictionService.js:346-364 | the weight is max(current, estimate); for an estimate measured from the current weight the delta is never negative, and a full container short of 0.25 kg is forced to exactly 0.25 and recorded |
| Prediction.Ensamblar | src/services/predictionService.js:375-389 | the result reports the current weight, level, sample count, time, method, confidence and its label, and the interpretation of the final delta |
| Prediction.EnsamblarAcotado | src/services/predictionService.js:346-389 | the predicted weight is max(current, estimate), the delta is non-negative, and `ajuste` is recorded exactly when the full-container clamp fires |
| Prediction.Prediccion | src/services/predictionService.js:250-395 | `predict` reports LSTM exactly when the gate accepts, with the heuristic's note otherwise |
| Prediction.PrediccionAcotada | src/services/predictionService.js:250-395 | `predict` reports the latest reading's weight and level, a prediction never below the current weight and a non-negative delta |
| Prediction.PrediccionConfianza | src/services/predictionService.js:250-395 | the confidence reported is the data-quality score for the estimator used |
| Prediction.PrimerExito | src/services/predictionService.js:15-46 | the first candidate path from which both the model and its scaler load; none when no path works |
| Prediction.PredictionService.constructor | src/services/predictionService.js:5-9 | not ready, no scaler |
| Prediction.PredictionService.Initialize | src/services/predictionService.js:11-60 | the scaler of the first path where both the model and the scaler load, and ready; a model loaded without any scaler still marks the engine ready but fails; every failure gives the one fixed message |
| Prediction.BuscarModelo | src/services/predictionService.js:21-46 | the model counts as loaded exactly when some path's model loads; the scaler kept is that of the first path where both the model and the scaler load |
| Prediction.ElegirEstimador | src/services/predictionService.js:268-340 | the imperative estimator choice computes `Estimar` of the gate's outcome and the heuristic, with the confidence `Confianza` for the estimator used |
| Prediction.AplicarLimites | src/services/predictionService.js:346-364 | the clamps applied variable by variable compute `Acotar` |
| Prediction.PredictionService.Predict | src/services/predictionService.js:250-395 | error when not initialised; the TypeError on empty input; otherwise exactly `Prediccion` of the readings |
| Analysis.GetColorClass | src/components/Interfaces/Analysis.jsx:129-136 | red and orange cards exactly for 'red' and 'orange'; green for anything else |
| Analysis.TarjetaDeInterpretacion | src/components/Interfaces/Analysis.jsx:129-136 | each interpretation colour selects its own card |
| Analysis.GetConfidenceColor | src/components/Interfaces/Analysis.jsx:138-142 | green exactly from 80, yellow exactly in [60, 80), red exactly below 60 |
| Analysis.GetConfidenceBarClass | src/components/Interfaces/Analysis.jsx:150-154 | the same three ranges for the bar |
| Analysis.ConfianzaConcuerda | src/components/Interfaces/Analysis.jsx:138-154 | text colour, bar colour and data-quality label always agree |
| Analysis.GetDeltaColor | src/components/Interfaces/Analysis.jsx:144-148 | red exactly from 0.2, green exactly in [0.05, 0.2), orange exactly below 0.05 |
| Analysis.DeltaSigueInterpretacion | src/components/Interfaces/Analysis.jsx:144-148 | below level 90 the delta colour is the interpretation's colour |
| Analysis.PrioridadDe | src/components/Interfaces/Analysis.jsx:156-165 | recognises exactly the five priority texts |
| Analysis.GetPrioridadBadgeClass | src/components/Interfaces/Analysis.jsx:156-165 | each known priority has its badge; anything else is gray |
| Analysis.PrioridadDeTexto | src/components/Interfaces/Analysis.jsx:156-165 | each priority's text is read back as that same priority, so every known key reaches its own badge |
| Analysis.InsigniaConocida | src/components/Interfaces/Analysis.jsx:156-165 | no known priority shows the gray fallback |
| Analysis.ConfianzaHeuristicaNuncaVerde | src/components/Interfaces/Analysis.jsx:138-154 | a heuristic prediction's confidence is never shown in green, neither as text nor as bar (its card, from `getColorClass`, can still be green) |
| Analysis.ChartData | src/components/Interfaces/Analysis.jsx:167-175 | the last 20 readings, indexed from 1, with weight, level and time label |
| Analysis.ConfianzaO0 | src/components/Interfaces/Analysis.jsx:181 | `confianza \|\| 0` |
| Analysis.HistoryChartData | src/components/Interfaces/Analysis.jsx:177-185 | the last 10 saved predictions, indexed from 1 |
| Analysis.ChartDataSoloUltimos | src/components/Interfaces/Analysis.jsx:167 | readings before the last 20 do not affect the chart |
| Analysis.HistoryChartDataSoloUltimos | src/components/Interfaces/Analysis.jsx:177 | predictions before the last 10 do not affect the chart |
| Analysis.MensajeFallo | src/components/Interfaces/Analysis.jsx:121-123 | the server's error, else the exception's message, else the default; never empty |
| Analysis.Guarda | src/components/Interfaces/Analysis.jsx:81-100 | proceeds exactly when ready with 12 readings or more; otherwise one specific message per failing guard |
| Analysis.GuardaIgualVentana | src/components/Interfaces/Analysis.jsx:96-100 | the page's guard agrees with the engine's window requirement |
| Analysis.MensajeInsuficientes | src/components/Interfaces/Analysis.jsx:96-100 | the fixed prefix followed by the count received, which `Number` reads back |
| Analysis.MensajeInsuficientesInyectivo | src/components/Interfaces/Analysis.jsx:96-100 | the message determines the number received |
| Analysis.RegistroDe | src/components/Interfaces/Analysis.jsx:105-117 | the stored body copies the result's figures, names the model after the estimator with ' (Híbrido)' appended, and carries the interpretation's state and decision |
| Analysis.RegistroDeResultado | src/components/Interfaces/Analysis.jsx:105-117 | the saved record carries the prediction's figures, the interpretation and the model name |
| Analysis.RegistroDePrediccion | src/components/Interfaces/Analysis.jsx:102-117 | the saved predicted weight is at least the current one, its delta is non-negative and its confidence is in [0, 100] |
| Analysis.AnalysisView.constructor | src/components/Interfaces/Analysis.jsx:22-28 | the initial page state |
| Analysis.AnalysisView.InitModel | src/components/Interfaces/Analysis.jsx:30-43 | the engine ends in the state `Initialize` states; ready with a scaler on success; on failure the prefixed load error; loading finishes either way |
| Analysis.AnalysisView.FetchHistory | src/components/Interfaces/Analysis.jsx:53-63 | history replaced only on a successful answer |
| Analysis.AnalysisView.FetchHistoricalData | src/components/Interfaces/Analysis.jsx:65-76 | readings replaced only on a successful answer |
| Analysis.AnalysisView.MostrarPrediccion | src/components/Interfaces/Analysis.jsx:103-120 | shows the prediction and saves its record; reloads the history exactly when the save succeeds |
| Analysis.AnalysisView.HandlePredict | src/components/Interfaces/Analysis.jsx:78-127 | predicts exactly when the guards pass, and then shows the engine's prediction; otherwise shows the guard's message |
| Configuration.GetStatus | src/components/Interfaces/Configuration.jsx:196-200 | critical exactly from 95, warning exactly from the configured level below 95, normal otherwise |
| Configuration.GetStatusText | src/components/Interfaces/Configuration.jsx:202-209 | every status has a non-empty label |
| Configuration.StatusTextInyectivo | src/components/Interfaces/Configuration.jsx:202-209 | different statuses have different labels |
| Configuration.StatusMonotono | src/components/Interfaces/Configuration.jsx:196-200 | a higher level never lowers the status |
| Configuration.NombreContenedor | src/components/Interfaces/Configuration.jsx:159 | the container's name when non-empty, else the default; never empty |
| Configuration.AlertaNivel | src/components/Interfaces/Configuration.jsx:155-171 | a level alert exactly when the status is not normal, at that status |
| Configuration.AlertaPeso | src/components/Interfaces/Configuration.jsx:173-181 | a critical weight alert exactly from the weight limit |
| Configuration.AlertaRegistrada | src/components/Interfaces/Configuration.jsx:183-191 | the stored alert shown exactly while active; critical exactly for 'sobrepeso' |
| Configuration.Lista | src/components/Interfaces/Configuration.jsx:152-193 | each condition pushes at most one alert |
| Configuration.ConstruirAlertas | src/components/Interfaces/Configuration.jsx:149-194 | level, weight and stored alerts in this order, each only when it applies; at most three, none normal |
| Configuration.CuentaAlertas | src/components/Interfaces/Configuration.jsx:149-194 | the number of alerts is the number of conditions that hold |
| Configuration.AlertaSigueEstado | src/components/Interfaces/Configuration.jsx:155-171 | the level alert and the status badge agree |
| Configuration.AlertaPesoIndependiente | src/components/Interfaces/Configuration.jsx:173-181 | the weight alert does not depend on the level |
| Configuration.FindContenedor | src/components/Interfaces/Configuration.jsx:55 | found exactly when some container has the id, and then it is the first such |
| Configuration.ConfigDesde | src/components/Interfaces/Configuration.jsx:58-62 | stored thresholds when non-zero numbers, 5 kg / 80 % otherwise; other settings kept |
| Configuration.ConfigDesdeIdempotente | src/components/Interfaces/Configuration.jsx:58-62 | loading twice is loading once |
| Configuration.GuardarYRestablecer | src/components/Interfaces/Configuration.jsx:113-117 | save then reset restores the thresholds exactly when neither is 0 |
| Configuration.Payload | src/components/Interfaces/Configuration.jsx:100-107 | container's name, place and owner, form thresholds, `activo ?? 1` |
| Configuration.AvisoError | src/components/Interfaces/Configuration.jsx:125 | the prefix followed by the error's message, or 'Error desconocido' |
| Configuration.ConfigurationView.constructor | src/components/Interfaces/Configuration.jsx:9-25 | the initial page state |
| Configuration.ConfigurationView.LoadContenedores | src/components/Interfaces/Configuration.jsx:37-51 | stores `data \|\| []`; selects the first container only when none is selected; a failure changes nothing |
| Configuration.ConfigurationView.LoadContenedorDetails | src/components/Interfaces/Configuration.jsx:53-68 | selects the first container with the id and loads its thresholds; unknown id changes nothing |
| Configuration.ConfigurationView.HandleChangePeso | src/components/Interfaces/Configuration.jsx:88-91 | sets the weight limit and clears `saved` |
| Configuration.ConfigurationView.HandleChangeNivel | src/components/Interfaces/Configuration.jsx:88-91 | sets the alert level and clears `saved` |
| Configuration.ConfigurationView.HandleSave | src/components/Interfaces/Configuration.jsx:93-129 | nothing sent without a selection; otherwise the payload is sent; success stores the thresholds, reloads the list from the reload's response and sets `saved`, while failure shows the error and keeps the list |
| Configuration.ConfigurationView.HandleReset | src/components/Interfaces/Configuration.jsx:131-147 | the selected container's thresholds, or every initial setting; clears `saved` |
| Configuration.ConfigurationView.RefreshAlerts | src/components/Interfaces/Configuration.jsx:149-194 | without a reading the alerts are kept, otherwise rebuilt |
| EditContenedor.FormDesde | src/components/Interfaces/Admin/EditContenedor.jsx:27-41 | each field from the container with its `\|\|`/`??` default; the owner only when truthy |
| EditContenedor.InactivoSeConserva | src/components/Interfaces/Admin/EditContenedor.jsx:36 | an inactive container (0) stays inactive in the form, thanks to `??` |
| EditContenedor.Cambiar | src/components/Interfaces/Admin/EditContenedor.jsx:43-51 | text fields verbatim, numeric fields through `Number(...)`; nothing else changes |
| EditContenedor.CambiarNumeroRecupera | src/components/Interfaces/Admin/EditContenedor.jsx:46-49 | typing a number's decimal text stores that number |
| EditContenedor.CambiarConmuta | src/components/Interfaces/Admin/EditContenedor.jsx:43-51 | edits to different fields commute; a later edit of the same field wins |
| EditContenedor.Validar | src/components/Interfaces/Admin/EditContenedor.jsx:66-80 | passes exactly when sendable; each message exactly when its check is the first to fail |
| EditContenedor.Enviar | src/components/Interfaces/Admin/EditContenedor.jsx:61-89 | the form is sent exactly when sendable; the parent is told exactly when the update succeeds; the error is the failing check's message, the update's error or its default, or empty on success |
| EditContenedor.NivelLimitesAceptados | src/components/Interfaces/Admin/EditContenedor.jsx:71-74 | levels 0 and 100 are accepted |
| EditContenedor.LetrasNoSonNumero | src/components/Interfaces/Admin/EditContenedor.jsx:46-49 | `Number('abc')` is NaN |
| EditContenedor.NoNumeroPasa | src/components/Interfaces/Admin/EditContenedor.jsx:66-80 | a non-numeric weight or level passes the checks (NaN compares false) |
| EditContenedor.NaNPasa | src/components/Interfaces/Admin/EditContenedor.jsx:72-77 | a sendable form stays sendable with a NaN weight or a NaN alert level |
| EditContenedor.PesoVacioRechazado | src/components/Interfaces/Admin/EditContenedor.jsx:68-70 | an empty weight (`Number('')` = 0) is rejected |
| EditContenedor.EditContenedorView.constructor | src/components/Interfaces/Admin/EditContenedor.jsx:8-15 | the initial form |
| EditContenedor.EditContenedorView.Abrir | src/components/Interfaces/Admin/EditContenedor.jsx:27-41 | fills the form when open with a container, and clears the error; otherwise nothing changes |
| EditContenedor.EditContenedorView.HandleChange | src/components/Interfaces/Admin/EditContenedor.jsx:43-51 | the form becomes `Cambiar` of the form |
| EditContenedor.EditContenedorView.HandleSubmit | src/components/Interfaces/Admin/EditContenedor.jsx:61-89 | installs `Enviar`'s outcome for the form (what is sent, whether the parent is told, the error shown), leaves the form as it was and ends with loading off |
| EditUser.FormDe | src/components/Interfaces/Admin/EditUser.jsx:17-26 | each field from the user with its `\|\|` default |
| EditUser.InactivoCargadoComoActivo | src/components/Interfaces/Admin/EditUser.jsx:23 | a user stored with `activo` = 0 loads as '1' |
| EditUser.Cambiar | src/components/Interfaces/Admin/EditUser.jsx:30-36 | the name upper-cased, other fields verbatim |
| EditUser.NombreEditadoEnMayusculas | src/components/Interfaces/Admin/EditUser.jsx:32-33 | an edited name is already upper case |
| EditUser.CambiarConmuta | src/components/Interfaces/Admin/EditUser.jsx:30-36 | edits to different fields commute |
| EditUser.Validar | src/components/Interfaces/Admin/EditUser.jsx:43-53 | passes exactly when name and e-mail are not blank; each message exactly for its case |
| EditUser.Payload | src/components/Interfaces/Admin/EditUser.jsx:56-61 | name and e-mail trimmed, role and state verbatim |
| EditUser.PayloadRecortado | src/components/Interfaces/Admin/EditUser.jsx:43-61 | a validated form sends non-empty, fully trimmed name and e-mail |
| EditUser.EditUserView.constructor | src/components/Interfaces/Admin/EditUser.jsx:7-12 | the initial form |
| EditUser.EditUserView.Cargar | src/components/Interfaces/Admin/EditUser.jsx:17-26 | fills the form from the user, if any |
| EditUser.EditUserView.HandleChange | src/components/Interfaces/Admin/EditUser.jsx:30-36 | the form becomes `Cambiar` of the form |
| EditUser.EditUserView.HandleSubmit | src/components/Interfaces/Admin/EditUser.jsx:38-75 | sends the trimmed payload exactly when the form validates; shows the failing check's message or the update's error; reports success (parent notified, dialog closed) exactly when the update succeeds |
| Lecturas.FormatAlert | src/hooks/useLecturas.js:21-30 | the stored id when non-empty, else the composite one; 'warning' when there is no severity; the other fields copied |
| Lecturas.FormatAlerts | src/hooks/useLecturas.js:19-30 | one formatted alert per stored alert, in order; none without a list |
| Lecturas.IdCompuestoAmbiguo | src/hooks/useLecturas.js:22 | two different alerts can get the same composite key |
| Lecturas.Intercambio | src/hooks/useLecturas.js:32-34 | swapping the moving alert past an older one preserves the insertion invariant and the multiset |
| Lecturas.Llegada | src/hooks/useLecturas.js:32-34 | the moving alert stops in order |
| Lecturas.Insertar | src/hooks/useLecturas.js:32-34 | one insertion step extends the sorted prefix, as a permutation |
| Lecturas.OrdenarDescendente | src/hooks/useLecturas.js:33-35 | the array ends sorted newest first and is a permutation of the input |
| Lecturas.Ordenadas | src/hooks/useLecturas.js:33-35 | the formatted alerts come back sorted newest first and as a permutation of the input |
| Lecturas.PrimeraEsMasReciente | src/hooks/useLecturas.js:32-36 | after sorting, the first alert is the most recent |
| Lecturas.LecturasHook.constructor | src/hooks/useLecturas.js:5-9 | the initial hook state |
| Lecturas.LecturasHook.FetchLectura | src/hooks/useLecturas.js:11-46 | on a successful answer with a reading, stores it with its alerts sorted newest first (a permutation of the formatted ones); otherwise keeps the state, recording any error |
| ProtectedRoutes.ProtectedRoute | src/components/ProtectedRoutes.jsx:4-17 | login exactly when anonymous; home exactly when signed in with a role outside a non-empty list; the page otherwise |
| ProtectedRoutes.SinRolesTodosPasan | src/components/ProtectedRoutes.jsx:4 | with the default empty list, every signed-in user gets the page |
| ProtectedRoutes.AnonimoSiempreAlLogin | src/components/ProtectedRoutes.jsx:8-10 | an anonymous visitor never gets the page |
| ProtectedRoutes.SoloImportaElConjunto | src/components/ProtectedRoutes.jsx:12-14 | only the set of roles matters, not order or repetition |
| ProtectedRoutes.MasRolesNoQuitanAcceso | src/components/ProtectedRoutes.jsx:12-14 | allowing more roles never takes the page away |

## Left out

- HTTP requests (axios, the services), `localStorage` tokens and `authService.getUsuarioId` are parameters. Their outcomes are given as `Result`/`Option` values, and the user id is the `userId` argument.
- EditContenedor.EditContenedorView.Abrir: `src/services/authService.js` does not define `getUsuarioId` (it has `login`, `logout`, `getToken`, `getUsuario`, `isAuthenticated` and `getUserRole`). As written, the open effect of the container dialog (src/components/Interfaces/Admin/EditContenedor.jsx:29) throws a TypeError before `setFormData` and `setError('')`, so the form is never filled and no update can be sent. `Abrir` and `FormDesde` model the intended call, taking the user id as the `userId` input.
- TensorFlow.js inference is the `red` parameter: a function from the normalised window to the scaled output, or None when inference throws. Loading the model is the `cargaModelo` parameter.
- Dates are the `timestamp` field in milliseconds. The pages and the alert list hold them as `int`; the prediction engine's `Reading.timestamp` holds the same integer milliseconds as a `real`, because its hours and least-squares sums are real arithmetic, and every integer instant is representable there. `new Date(...)`, `getHours`/`getDay` and the locale renderings (`toLocaleTimeString`, `toLocaleString`) are inputs or parameters (`hora`, `fecha`). Invalid dates, whose `getTime()` is NaN, are not modelled.
- Floating point is modelled as exact reals. Rounding, `toFixed`, `Infinity` and the NaN arising from a non-numeric reading are not modelled. `Math.sqrt` is handled by comparing squares, as shown in `DesviacionComparada`.
- Console logging, the `issues` strings of the confidence computation and the JSX rendering are not modelled.
- React effects, polling intervals, `setTimeout`, and the dialogs' `handleClose`/`isClosing` animation are not modelled. So is the add-container dialog (`handleContenedorAdded`). The effect handlers are methods, invoked explicitly.
- Analysis.AnalysisView.MostrarPrediccion: the `fetchHistory` call after a successful save is reported as the flag `recargaHistorial`, not performed.
- Prediction.PendienteDeLinea: the fitted rate is proved to recover the slope of any exact line (`TasaDeLinea`). The statistical optimality of the fit for scattered points is not stated.
- Prediction.PrediccionAcotada: does not restate the `ajuste` record. `EnsamblarAcotado` states it for the result's assembly.
- EditUser.Cambiar: the name is upper-cased only for Basic Latin and Latin-1 letters (`Js.UpperChar`). A character above U+00FF is kept as it is, whereas JavaScript's `toUpperCase` maps it by the full Unicode case tables, which are not modelled.
- Js.ParseNumber: reads decimal notation only. `Number` also accepts exponents (`"1e3"`), hexadecimal, octal and binary prefixes (`"0x10"`) and `"Infinity"`; the model gives NaN for those.
- Prediction.PredictionService.Initialize: requires every scaler the download can deliver to be well formed (`min` and `scale` of the feature count, non-zero `scale[0]`). The source checks nothing about the JSON; a malformed file would give NaN or `undefined` arithmetic, which is not modelled.
- Analysis.AnalysisView.InitModel: carries the same well-formed-scaler requirement as `Initialize`, for the same reason.
- Edit dialogs: a `handleChange` with a field name outside the form's known fields is not modelled, because the dialogs only ever pass their own fields.
- Lecturas.OrdenarDescendente: an insertion sort; the stability of JavaScript's `sort` is not stated (equal timestamps may appear in either order).
- Analysis.GetPrioridadBadgeClass: the badge classes are not proved pairwise distinct. The lookup `map[prioridad] || ...` on an object literal would also find inherited keys such as 'constructor' or 'toString' and return that function instead of the gray default; the engine never emits such a priority, and the model gives the default for every unknown text.
- Analysis.GetColorClass: the same inherited-key lookup applies to `map[color] || ...`; the model gives the green default for every unknown colour, which is what happens for every colour the engine emits.
- Lecturas and Configuration alert ids are kept as their parts; `IdTexto` renders them as strings.
