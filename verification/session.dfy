/**
 * The questionnaire's state machine: the component state
 * `(preguntas, indice, puntos, finalizado)` and the answer handler
 * `manejarRespuesta`.
 */
module Session {
  import opened Sampler
  import opened Scores

  /** The last valid question index, 0 for an empty question set. */
  function Ultimo(preguntas: seq<Pregunta>): (r: nat)
    ensures |preguntas| > 0 ==> r < |preguntas| && r + 1 == |preguntas|
    ensures |preguntas| == 0 ==> r == 0
  {
    if |preguntas| == 0 then 0 else |preguntas| - 1
  }

  class Cuestionario {
    /** The sampled questions of this visit. */
    var preguntas: seq<Pregunta>
    /** Position of the question on screen. */
    var indice: nat
    /** Scores accumulated so far. */
    var puntos: Puntos
    /** Set once the last question has been answered. */
    var finalizado: bool
    /** The categories chosen so far, oldest first. */
    ghost var respuestas: seq<string>

    ghost predicate Valid()
      reads this
    {
      && puntos == Tally(respuestas)
      && indice <= Ultimo(preguntas)
      && (!finalizado ==> |respuestas| == indice)
      && (finalizado ==> indice == Ultimo(preguntas) && |respuestas| > indice)
    }

    /** A fresh visit: the sampled questions, first question, no scores, not finished. */
    constructor (seleccionadas: seq<Pregunta>)
      ensures Valid()
      ensures preguntas == seleccionadas && indice == 0 && puntos == map[] && !finalizado
      ensures respuestas == []
    {
      preguntas := seleccionadas;
      indice := 0;
      puntos := map[];
      finalizado := false;
      respuestas := [];
    }

    /**
     * `manejarRespuesta(categoria)`: score the chosen category, then move to
     * the next question, or mark the questionnaire finished after the last one.
     */
    method ManejarRespuesta(categoria: string)
      requires Valid()
      modifies this
      ensures Valid()
      ensures preguntas == old(preguntas)
      ensures respuestas == old(respuestas) + [categoria]
      ensures puntos == Incrementar(old(puntos), categoria)
      ensures old(indice) < |preguntas| - 1 ==> indice == old(indice) + 1 && !finalizado
      ensures old(indice) >= |preguntas| - 1 ==> indice == old(indice) && finalizado
      ensures |preguntas| > 0 ==> indice < |preguntas|
    {
      TallySnoc(respuestas, categoria);
      puntos := Incrementar(puntos, categoria);
      respuestas := respuestas + [categoria];
      if indice < |preguntas| - 1 {
        indice := indice + 1;
      } else {
        finalizado := true;
      }
    }

    /**
     * In every reachable state the scores count the answers: a category has
     * a score exactly when it was chosen, its score is how often it was
     * chosen (so at least 1), and all scores add up to the number of answers.
     */
    lemma PuntosCuentanRespuestas()
      requires Valid()
      ensures forall c :: c in puntos <==> c in respuestas
      ensures forall c :: c in puntos ==> puntos[c] == multiset(respuestas)[c] >= 1
      ensures MapSum(puntos) == |respuestas|
    {
      TallyCounts(respuestas);
      TallySum(respuestas);
    }
  }
}
