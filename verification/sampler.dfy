/**
 * Random selection of the questionnaire: `obtenerPreguntasAleatorias`.
 *
 * The page shuffles a copy of the question bank, keeps its first `cantidad`
 * questions and, for each kept question, shuffles a copy of its options and
 * keeps the first four. The shuffles are supplied here as permutations (a
 * sequence `perm` of distinct indices below `n`, with `perm[i]` the index of
 * the input element that lands at position `i`), so every statement below
 * holds for whatever order the random source produces.
 */
module Sampler {
  import opened Wrappers

  /** One answer choice: the text shown and the category it scores. */
  datatype Opcion = Opcion(texto: string, categoria: string)

  /** One question of the bank. */
  datatype Pregunta = Pregunta(pregunta: string, opciones: seq<Opcion>)

  /** Number of questions the page asks for. */
  const CANTIDAD: nat := 12
  /** Number of options kept per question. */
  const OPCIONES_POR_PREGUNTA: nat := 4

  /** `perm` rearranges `n` positions: it lists each index below `n` exactly once. */
  predicate IsPermutation(perm: seq<nat>, n: nat) {
    && |perm| == n
    && (forall i :: 0 <= i < n ==> perm[i] < n)
    && (forall i, j :: 0 <= i < j < n ==> perm[i] != perm[j])
  }

  /** The copy of `s` reordered by `perm` (the `[...s].sort(random)` step). */
  function Shuffle<T>(s: seq<T>, perm: seq<nat>): (r: seq<T>)
    requires IsPermutation(perm, |s|)
    ensures |r| == |s|
    ensures forall i :: 0 <= i < |r| ==> r[i] == s[perm[i]]
  {
    seq(|s|, i requires 0 <= i < |s| => s[perm[i]])
  }

  /** The first `k` elements of `s`, or all of them when there are fewer (`slice(0, k)`). */
  function Take<T>(s: seq<T>, k: nat): (r: seq<T>)
    ensures |r| == Min(k, |s|)
    ensures r == s[..|r|]
  {
    if k <= |s| then s[..k] else s
  }

  /** One kept question: same text, options shuffled by `optPerm` and cut to four. */
  function BarajarOpciones(p: Pregunta, optPerm: seq<nat>): (r: Pregunta)
    requires IsPermutation(optPerm, |p.opciones|)
    ensures r.pregunta == p.pregunta
    ensures |r.opciones| == Min(OPCIONES_POR_PREGUNTA, |p.opciones|)
    ensures forall i :: 0 <= i < |r.opciones| ==> r.opciones[i] == p.opciones[optPerm[i]]
  {
    p.(opciones := Take(Shuffle(p.opciones, optPerm), OPCIONES_POR_PREGUNTA))
  }

  /**
   * The random choices the sampler consumes: `perm` shuffles the bank and
   * `optPerms[i]` shuffles the options of the question that lands at position `i`.
   */
  predicate ValidChoices(preguntas: seq<Pregunta>, cantidad: nat, perm: seq<nat>, optPerms: seq<seq<nat>>) {
    && IsPermutation(perm, |preguntas|)
    && |optPerms| >= Min(cantidad, |preguntas|)
    && forall i :: 0 <= i < Min(cantidad, |preguntas|) ==>
         IsPermutation(optPerms[i], |preguntas[perm[i]].opciones|)
  }

  /** `obtenerPreguntasAleatorias(preguntas, cantidad)` under the given shuffles. */
  function ObtenerPreguntasAleatorias(preguntas: seq<Pregunta>, cantidad: nat,
                                      perm: seq<nat>, optPerms: seq<seq<nat>>): (r: seq<Pregunta>)
    requires ValidChoices(preguntas, cantidad, perm, optPerms)
    ensures |r| == Min(cantidad, |preguntas|)
    ensures forall i :: 0 <= i < |r| ==>
              r[i] == BarajarOpciones(preguntas[perm[i]], optPerms[i])
  {
    var barajadas := Shuffle(preguntas, perm);
    var elegidas := Take(barajadas, cantidad);
    seq(|elegidas|, i requires 0 <= i < |elegidas| => BarajarOpciones(elegidas[i], optPerms[i]))
  }

  // ---------------------------------------------------------------------------
  // Properties of the sampler
  // ---------------------------------------------------------------------------

  /** The indices below `n`. */
  ghost function Below(n: nat): set<nat> {
    if n == 0 then {} else Below(n - 1) + {n - 1}
  }

  lemma {:induction false} BelowSize(n: nat)
    ensures |Below(n)| == n
    ensures forall k: nat :: k in Below(n) <==> k < n
  {
    if n > 0 {
      BelowSize(n - 1);
    }
  }

  /** A permutation of `n` positions reaches every one of them: nothing is lost by shuffling. */
  lemma PermutationCovers(perm: seq<nat>, n: nat)
    requires IsPermutation(perm, n)
    ensures forall k: nat :: k < n ==> k in perm
  {
    DistinctCard(perm);
    BelowSize(n);
    assert Elements(perm) <= Below(n);
    assert |Below(n) - Elements(perm)| == 0;
    forall k: nat | k < n
      ensures k in perm
    {
      assert k in Below(n);
      assert k in Elements(perm);
    }
  }

  /** Shuffling keeps every element of the input (it only reorders). */
  lemma ShuffleKeepsAll<T>(s: seq<T>, perm: seq<nat>)
    requires IsPermutation(perm, |s|)
    ensures forall x :: x in s <==> x in Shuffle(s, perm)
  {
    PermutationCovers(perm, |s|);
    var r := Shuffle(s, perm);
    forall x | x in s
      ensures x in r
    {
      var k :| 0 <= k < |s| && s[k] == x;
      assert k in perm;
      var i :| 0 <= i < |s| && perm[i] == k;
      assert r[i] == x;
    }
  }

  /** `q` is what the sampler may make of bank question `p`. */
  ghost predicate SampledFrom(q: Pregunta, p: Pregunta) {
    && q.pregunta == p.pregunta
    && |q.opciones| == Min(OPCIONES_POR_PREGUNTA, |p.opciones|)
    && (forall o :: o in q.opciones ==> o in p.opciones)
    && (Distinct(p.opciones) ==> Distinct(q.opciones))
  }

  /** A kept question keeps its text; its options are up to four distinct options of the original. */
  lemma BarajarOpcionesSampled(p: Pregunta, optPerm: seq<nat>)
    requires IsPermutation(optPerm, |p.opciones|)
    ensures SampledFrom(BarajarOpciones(p, optPerm), p)
  {
    var q := BarajarOpciones(p, optPerm);
    forall o | o in q.opciones
      ensures o in p.opciones
    {
      var i :| 0 <= i < |q.opciones| && q.opciones[i] == o;
      assert o == p.opciones[optPerm[i]];
    }
  }

  /**
   * The sampler returns `min(cantidad, |preguntas|)` questions; the i-th comes
   * from bank position `perm[i]`, these positions are pairwise different, and
   * each question is sampled from the one at its position.
   */
  lemma SampleFromBank(preguntas: seq<Pregunta>, cantidad: nat, perm: seq<nat>, optPerms: seq<seq<nat>>)
    requires ValidChoices(preguntas, cantidad, perm, optPerms)
    ensures var r := ObtenerPreguntasAleatorias(preguntas, cantidad, perm, optPerms);
      && |r| == Min(cantidad, |preguntas|)
      && (forall i :: 0 <= i < |r| ==> perm[i] < |preguntas| && SampledFrom(r[i], preguntas[perm[i]]))
      && (forall i, j :: 0 <= i < j < |r| ==> perm[i] != perm[j])
  {
    var r := ObtenerPreguntasAleatorias(preguntas, cantidad, perm, optPerms);
    forall i | 0 <= i < |r|
      ensures SampledFrom(r[i], preguntas[perm[i]])
    {
      BarajarOpcionesSampled(preguntas[perm[i]], optPerms[i]);
    }
  }

  /** The question texts of a sequence of questions. */
  function Textos(ps: seq<Pregunta>): (r: seq<string>)
    ensures |r| == |ps|
    ensures forall i :: 0 <= i < |ps| ==> r[i] == ps[i].pregunta
  {
    seq(|ps|, i requires 0 <= i < |ps| => ps[i].pregunta)
  }

  /** No question is asked twice: distinct texts in the bank stay distinct in the sample. */
  lemma SampleNoRepeats(preguntas: seq<Pregunta>, cantidad: nat, perm: seq<nat>, optPerms: seq<seq<nat>>)
    requires ValidChoices(preguntas, cantidad, perm, optPerms)
    requires Distinct(Textos(preguntas))
    ensures Distinct(Textos(ObtenerPreguntasAleatorias(preguntas, cantidad, perm, optPerms)))
  {
  }

  /** When the bank has no more than `cantidad` questions, every one of them is asked. */
  lemma SampleWholeBank(preguntas: seq<Pregunta>, cantidad: nat, perm: seq<nat>, optPerms: seq<seq<nat>>)
    requires ValidChoices(preguntas, cantidad, perm, optPerms)
    requires |preguntas| <= cantidad
    ensures forall t :: t in Textos(preguntas) <==>
              t in Textos(ObtenerPreguntasAleatorias(preguntas, cantidad, perm, optPerms))
  {
    var r := ObtenerPreguntasAleatorias(preguntas, cantidad, perm, optPerms);
    PermutationCovers(perm, |preguntas|);
    forall t | t in Textos(preguntas)
      ensures t in Textos(r)
    {
      var k :| 0 <= k < |preguntas| && Textos(preguntas)[k] == t;
      assert k in perm;
      var i :| 0 <= i < |preguntas| && perm[i] == k;
      assert Textos(r)[i] == t;
    }
    forall t | t in Textos(r)
      ensures t in Textos(preguntas)
    {
      var i :| 0 <= i < |r| && Textos(r)[i] == t;
      assert Textos(preguntas)[perm[i]] == t;
    }
  }

  /** With the page's constant, a bank of at least 12 questions yields exactly 12. */
  lemma PageAsksTwelve(preguntas: seq<Pregunta>, perm: seq<nat>, optPerms: seq<seq<nat>>)
    requires ValidChoices(preguntas, CANTIDAD, perm, optPerms)
    requires |preguntas| >= CANTIDAD
    ensures |ObtenerPreguntasAleatorias(preguntas, CANTIDAD, perm, optPerms)| == 12
  {
  }
}
