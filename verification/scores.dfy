/**
 * Score accumulation: the updater that `manejarRespuesta` passes to
 * `setPuntos`, `prev => ({...prev, [categoria]: (prev[categoria] || 0) + 1})`.
 *
 * A score map (`PuntosCategoria`) goes from category label to count. The
 * updater is pure; the session class applies it once per answer.
 */
module Scores {

  /** `PuntosCategoria`: category label to number of answers in it. */
  type Puntos = map<string, int>

  /** `m[c]` read as JavaScript's `m[c] || 0`: an absent or zero entry reads as 0. */
  function ValorO0(m: Puntos, c: string): (r: int)
    ensures r == Score(m, c)
  {
    if c in m && m[c] != 0 then m[c] else 0
  }

  /** The score of `c`, with an absent category counting 0. */
  function Score(m: Puntos, c: string): int {
    if c in m then m[c] else 0
  }

  /** The updater of one answer in category `categoria`. */
  function Incrementar(prev: Puntos, categoria: string): (r: Puntos)
    ensures r.Keys == prev.Keys + {categoria}
    ensures r[categoria] == Score(prev, categoria) + 1
    ensures forall k :: k in prev && k != categoria ==> r[k] == prev[k]
  {
    prev[categoria := ValorO0(prev, categoria) + 1]
  }

  /** Answers in different categories can be given in either order. */
  lemma IncrementarCommutes(m: Puntos, a: string, b: string)
    ensures Incrementar(Incrementar(m, a), b) == Incrementar(Incrementar(m, b), a)
  {
  }

  /** The scores after answering `respuestas` in order, starting from `{}`. */
  function Tally(respuestas: seq<string>): (r: Puntos)
    ensures forall c :: c in r <==> c in respuestas
  {
    if respuestas == [] then map[]
    else Incrementar(Tally(respuestas[..|respuestas| - 1]), respuestas[|respuestas| - 1])
  }

  /** One more answer applies the updater once more. */
  lemma TallySnoc(respuestas: seq<string>, categoria: string)
    ensures Tally(respuestas + [categoria]) == Incrementar(Tally(respuestas), categoria)
  {
    assert (respuestas + [categoria])[..|respuestas|] == respuestas;
  }

  /**
   * After any run of answers a category has a score exactly when it was
   * chosen, and its score is the number of times it was chosen.
   */
  lemma {:induction false} TallyCounts(respuestas: seq<string>)
    ensures forall c :: c in Tally(respuestas) <==> c in respuestas
    ensures forall c :: c in Tally(respuestas) ==> Tally(respuestas)[c] == multiset(respuestas)[c]
  {
    if respuestas != [] {
      var n := |respuestas|;
      var front := respuestas[..n - 1];
      TallyCounts(front);
      assert respuestas == front + [respuestas[n - 1]];
      assert multiset(respuestas) == multiset(front) + multiset{respuestas[n - 1]};
      forall c | c in respuestas
        ensures c in front || c == respuestas[n - 1]
      {
        var i :| 0 <= i < n && respuestas[i] == c;
        if i < n - 1 { assert front[i] == c; }
      }
    }
  }

  /** Scores are never negative: every entry present is at least 1. */
  lemma TallyPositive(respuestas: seq<string>)
    ensures forall c :: c in Tally(respuestas) ==> Tally(respuestas)[c] >= 1
  {
    TallyCounts(respuestas);
  }

  /** The final scores depend only on which answers were given, not on their order. */
  lemma TallyOrderIndependent(a: seq<string>, b: seq<string>)
    requires multiset(a) == multiset(b)
    ensures Tally(a) == Tally(b)
  {
    TallyCounts(a);
    TallyCounts(b);
    forall c
      ensures c in a <==> c in b
    {
      assert c in a <==> c in multiset(a);
      assert c in b <==> c in multiset(b);
    }
  }

  /** The sum of all scores in `m`. */
  ghost function MapSum(m: Puntos): int
    decreases |m|
  {
    if |m| == 0 then 0
    else
      var k := Pick(m);
      m[k] + MapSum(m - {k})
  }

  /** Some category of a non-empty score map. */
  ghost function Pick(m: Puntos): (k: string)
    requires |m| > 0
    ensures k in m
  {
    var k :| k in m; k
  }

  /** `MapSum` may take out any entry first. */
  lemma {:induction false} MapSumRemove(m: Puntos, k: string)
    requires k in m
    ensures MapSum(m) == m[k] + MapSum(m - {k})
    decreases |m|
  {
    var j := Pick(m);
    if j != k {
      assert k in m - {j};
      assert j in m - {k};
      MapSumRemove(m - {j}, k);
      MapSumRemove(m - {k}, j);
      assert m - {j} - {k} == m - {k} - {j};
    }
  }

  /** One answer adds exactly one to the total score. */
  lemma IncrementarSum(m: Puntos, c: string)
    ensures MapSum(Incrementar(m, c)) == MapSum(m) + 1
  {
    var r := Incrementar(m, c);
    MapSumRemove(r, c);
    if c in m {
      MapSumRemove(m, c);
      assert r - {c} == m - {c};
    } else {
      assert r - {c} == m;
    }
  }

  /** The total of all scores equals the number of answers given. */
  lemma {:induction false} TallySum(respuestas: seq<string>)
    ensures MapSum(Tally(respuestas)) == |respuestas|
  {
    if respuestas != [] {
      var n := |respuestas|;
      TallySum(respuestas[..n - 1]);
      IncrementarSum(Tally(respuestas[..n - 1]), respuestas[n - 1]);
    }
  }

  /** Scenario: answering "Buceo" twelve times gives the scores `{Buceo: 12}`. */
  lemma TwelveBuceo(respuestas: seq<string>)
    requires |respuestas| == 12
    requires forall i :: 0 <= i < |respuestas| ==> respuestas[i] == "Buceo"
    ensures Tally(respuestas) == map["Buceo" := 12]
  {
    TallyCounts(respuestas);
    ConstantCount(respuestas, "Buceo");
    assert "Buceo" in respuestas by { assert respuestas[0] == "Buceo"; }
  }

  lemma {:induction false} ConstantCount(s: seq<string>, x: string)
    requires forall i :: 0 <= i < |s| ==> s[i] == x
    ensures multiset(s)[x] == |s|
    ensures forall y :: y in s ==> y == x
  {
    if s != [] {
      ConstantCount(s[1..], x);
      assert s == [s[0]] + s[1..];
    }
  }
}
