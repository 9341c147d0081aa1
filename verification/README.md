# Tourist preferences questionnaire — a Dafny model

This project models the questionnaire engine of the tourism app's preferences
page (`src/pages/Tourist_preferences.tsx`): a signed-in tourist answers a
random selection of twelve multiple-choice questions, every answer adds one
point to the category of the chosen option, and when the last question is
answered the scores are translated to the fixed keys of the preferences
endpoint and sent as one flat record. The endpoint's answer is turned into
`true`, or into `false` plus an error message for the page.

The model has six modules:

- `Wrappers` — `Option`, `Min`, distinct sequences and their element sets.
- `Sampler` — `obtenerPreguntasAleatorias`: shuffle the bank, keep
  `cantidad` questions, shuffle each kept question's options, keep four. The
  two `sort(() => Math.random() - 0.5)` calls are given as permutations
  (`perm`, and one `optPerms[i]` per kept question), so the statements hold
  whatever order the random source produces.
- `Scores` — the score-map updater passed to `setPuntos`, the scores after a
  run of answers (`Tally`), and their sum (`MapSum`).
- `Session` — class `Cuestionario`, holding the page state
  `(preguntas, indice, puntos, finalizado)` and the answer handler
  `manejarRespuesta`; a ghost field records the answers given so far.
- `Payload` — the `categoriaMap` table (as its labels `Etiquetas` and keys
  `Claves`, in declaration order), the `actividades` list, the `find` over the
  table, and the `forEach` loop that fills the payload map.
- `Submission` — the `try`/`catch` that classifies the response.

Three behaviours of the code shape the model:

- `categoriaMap` maps 16 labels, but `actividades` sends only 15 keys and
  leaves out `piscinas`, so the score of "Piscinas naturales, cenotes" never
  reaches the payload (`Payload.PiscinasIgnored`, `Payload.ConstruirPayload`).
- A non-OK response runs `response.json()` inside the `try`. A body that is
  not JSON makes it throw, so the `catch` reports the parser's message, and a
  body that is `null` makes `errorData.error` throw a TypeError, whose message
  the `catch` reports too. "Error desconocido" appears only when that message
  is empty (`Submission.UnparseableBodyScenario`,
  `Submission.NullBodyScenario`).
- The random comparator `() => Math.random() - 0.5` does not shuffle
  uniformly, so the model claims nothing about the distribution, only about
  sizes, membership and distinctness.

## Model

| member | source | states |
|---|---|---|
| `Sampler.Shuffle` | src/pages/Tourist_preferences.tsx:20-24 | the shuffled copy has the input's length and its element `i` is the input's element at position `perm[i]`; with `Sampler.ShuffleKeepsAll` it holds exactly the input's elements |
| `Sampler.PermutationCovers` | src/pages/Tourist_preferences.tsx:20 | a permutation of `n` positions reaches every position below `n` |
| `Sampler.ShuffleKeepsAll` | src/pages/Tourist_preferences.tsx:20 | an element is in the shuffled copy exactly when it is in the input: shuffling loses and invents nothing |
| `Sampler.Take` | src/pages/Tourist_preferences.tsx:21 | `slice(0, k)` yields `min(k, |s|)` elements and they are a prefix of `s` |
| `Sampler.BarajarOpciones` | src/pages/Tourist_preferences.tsx:21-26 | a kept question keeps its text and gets `min(4, |opciones|)` options, each the original option at its shuffled position |
| `Sampler.BarajarOpcionesSampled` | src/pages/Tourist_preferences.tsx:21-26 | a kept question's options are up to four options of the original, pairwise distinct when the original's are |
| `Sampler.ObtenerPreguntasAleatorias` | src/pages/Tourist_preferences.tsx:19-27 | the result has `min(cantidad, |preguntas|)` questions; question `i` is the option-shuffled bank question at shuffled position `i` |
| `Sampler.SampleFromBank` | src/pages/Tourist_preferences.tsx:19-27 | every sampled question comes from its own bank position (positions pairwise different) and is sampled from that question |
| `Sampler.SampleNoRepeats` | src/pages/Tourist_preferences.tsx:19-27 | if the bank's question texts are distinct, no question text appears twice in the sample |
| `Sampler.SampleWholeBank` | src/pages/Tourist_preferences.tsx:19-27 | when the bank has at most `cantidad` questions, the sample asks exactly the bank's questions |
| `Sampler.PageAsksTwelve` | src/pages/Tourist_preferences.tsx:44 | with the page's `cantidad = 12` and a bank of at least 12 questions, 12 questions are asked |
| `Scores.ValorO0` | src/pages/Tourist_preferences.tsx:129 | `m[c] || 0` equals the score of `c` counting an absent category as 0: the truthiness test loses no value |
| `Scores.Incrementar` | src/pages/Tourist_preferences.tsx:127-130 | the chosen category's score becomes its old score (0 if absent) plus 1; every other entry is unchanged and no other key appears |
| `Scores.IncrementarCommutes` | src/pages/Tourist_preferences.tsx:127-130 | two answers give the same scores in either order |
| `Scores.IncrementarSum` | src/pages/Tourist_preferences.tsx:127-130 | one answer raises the total of all scores by exactly 1 |
| `Scores.Tally` | src/pages/Tourist_preferences.tsx:126-130 | the scores after a run of `setPuntos` updates from `{}` have a key exactly for each category answered |
| `Scores.TallyCounts` | src/pages/Tourist_preferences.tsx:126-130 | after a run of answers a category has a score iff it was chosen, and the score is the number of times it was chosen |
| `Scores.TallyPositive` | src/pages/Tourist_preferences.tsx:129 | after a run of answers every score present is at least 1, so never negative |
| `Scores.TallyOrderIndependent` | src/pages/Tourist_preferences.tsx:126-130 | two runs with the same answers in any order give the same scores |
| `Scores.TallySum` | src/pages/Tourist_preferences.tsx:126-130 | after a run of answers the scores add up to the number of answers |
| `Scores.TwelveBuceo` | src/pages/Tourist_preferences.tsx:126-130 | twelve answers in "Buceo" give exactly the scores `{Buceo: 12}` |
| `Session.Cuestionario.constructor` | src/pages/Tourist_preferences.tsx:33-36 | a visit starts on the first of the sampled questions, with no scores and not finished |
| `Session.Cuestionario.ManejarRespuesta` | src/pages/Tourist_preferences.tsx:126-137 | the scores are updated by `Incrementar`; before the last question `indice` grows by 1 and the flag stays false, otherwise `indice` stays and `finalizado` becomes true; `indice` stays a valid question index and the state invariant is kept |
| `Session.Cuestionario.PuntosCuentanRespuestas` | src/pages/Tourist_preferences.tsx:126-130 | in every reachable state each score equals the number of answers in its category (at least 1) and the scores add up to the number of answers |
| `Payload.PrimeraPosicion` | src/pages/Tourist_preferences.tsx:82 | returns the first position holding the key, or the table length when none does |
| `Payload.BuscarEtiqueta` | src/pages/Tourist_preferences.tsx:82 | `find` yields a label mapped to the key, and yields none exactly when no label maps to it |
| `Payload.CategoriaMapInjective` | src/pages/Tourist_preferences.tsx:52-68 | the table has 16 distinct, non-empty labels and 16 distinct keys |
| `Payload.BuscarEtiquetaUnique` | src/pages/Tourist_preferences.tsx:82 | since the table is injective, `find` returns the one label mapped to the key |
| `Payload.ValorActividad` | src/pages/Tourist_preferences.tsx:82-83 | the value for a key is the score of the label `find` returns (0 when that label has no score), and 0 for a key outside the table |
| `Payload.ValorActividadMeaning` | src/pages/Tourist_preferences.tsx:82-83 | the value sent for a key is the score of the label mapped to it, 0 when that label has no score, and 0 when no label maps to the key |
| `Payload.ValorEnPosicion` | src/pages/Tourist_preferences.tsx:82-83 | the value sent for the key at table position `k` is the score of the label at `k` |
| `Payload.ActividadesShape` | src/pages/Tourist_preferences.tsx:74-78 | `actividades` has 15 distinct keys and contains neither `piscinas` nor `TouristID` |
| `Payload.ActividadEnTabla` | src/pages/Tourist_preferences.tsx:53-78 | every key of `actividades` is a key of `categoriaMap` |
| `Payload.PiscinasIgnored` | src/pages/Tourist_preferences.tsx:68-83 | changing the score of "Piscinas naturales, cenotes" changes no value of the payload |
| `Payload.PayloadKeys` | src/pages/Tourist_preferences.tsx:74-81 | the identity field and the 15 keys are 16 fields, `piscinas` not among them |
| `Payload.ConstruirPayload` | src/pages/Tourist_preferences.tsx:80-84 | the payload has exactly the fields `TouristID` and the 15 keys whatever was answered, `TouristID` holds the tourist's id and each key holds its computed score |
| `Payload.TwelveBuceoPayload` | src/pages/Tourist_preferences.tsx:80-84 | with scores `{Buceo: 12}` the payload sends `buceo: 12` and 0 for every other key |
| `Submission.OFallback` | src/pages/Tourist_preferences.tsx:95 | `m || 'Error desconocido'` is `m` when `m` is a non-empty string, and the fallback text when `m` is absent or empty; never empty |
| `Submission.Clasificar` | src/pages/Tourist_preferences.tsx:92-103 | the call returns true iff the response is OK, and stores an error exactly when it returns false; a stored error is non-empty and is either the fallback text or a text the response carried |
| `Submission.MensajeVerbatim` | src/pages/Tourist_preferences.tsx:92-103 | a failure whose only message is non-empty reports that message unchanged |
| `Submission.MensajeGenerico` | src/pages/Tourist_preferences.tsx:92-103 | a failure without a non-empty message reports "Error desconocido" |
| `Submission.InvalidIdScenario` | src/pages/Tourist_preferences.tsx:92-96 | a non-OK response with body `{"error": "invalid id"}` fails with "invalid id" |
| `Submission.UnparseableBodyScenario` | src/pages/Tourist_preferences.tsx:92-103 | a non-OK response with an unparseable body fails like a thrown error: with the parser's message, or the fallback when that is empty |
| `Submission.NullBodyScenario` | src/pages/Tourist_preferences.tsx:92-103 | a non-OK response whose body is `null` fails like a thrown error, with the TypeError's message |

## Left out

- React hooks and effect scheduling: the effect that samples the questions
  (src/pages/Tourist_preferences.tsx:40-47) and the effect that submits once
  `finalizado` is set (lines 107-116), with `loadingEnvio` and the `alert`.
  Whether the submission fires only once depends on React re-running that
  effect when `puntos` or `user` change, not on sequential logic.
- Authentication (`useAuthenticator`) and routing (`navigate`).
- The HTTP request (`fetch`), JSON encoding and decoding, and `console.error`.
  Only the classification of an already obtained response is modelled.
- `Math.random`: both shuffles are parameters (permutations). The model does
  not claim a uniform or any other distribution.
- The contents of `../questions.json`, which is not part of this model; the
  bank is an arbitrary sequence of questions.
- Rendering, colours and texts (src/pages/Tourist_preferences.tsx:118-124, 139-210).
- Sampler.ObtenerPreguntasAleatorias: `cantidad` is a natural number; the
  behaviour of `slice` with a negative or fractional count is not modelled.
- Session.Cuestionario.constructor: starts from the sampled questions. The
  page's first render, with an empty question list before the sampling effect
  has run, is not modelled, nor is re-sampling when the user changes.
- Session.Cuestionario.ManejarRespuesta: it does not itself state the sum of
  the scores; that follows from its invariant through
  `Session.Cuestionario.PuntosCuentanRespuestas`. Like the source, it has no
  guard against being called after `finalizado` (the page simply stops
  rendering the answer buttons).
- Scores.Incrementar: category names are assumed not to be names that a
  plain JavaScript object inherits from `Object.prototype` ("constructor",
  "toString", "__proto__", …). For such a name `prev[categoria]` reads the
  inherited value, `(… || 0) + 1` concatenates a string instead of giving 1,
  and the counting and sum properties (`Scores.TallyCounts`,
  `Scores.TallySum`) would not hold. The categories come from the question
  bank, whose contents are not part of this model.
- Scores are unbounded integers; JavaScript's floating-point numbers are
  exact only up to 2^53, far beyond any reachable score.
- Submission.Clasificar: `errorData.error` and an exception's `message` are
  modelled as absent or a string (a body parsed to `null` is its own case,
  `Nulo`, carrying the TypeError's message); values of other JavaScript types (numbers,
  objects) and their truthiness are not modelled.
