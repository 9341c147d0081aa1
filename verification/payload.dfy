/**
 * Payload construction inside `enviarPreferencias`: the fixed label-to-key
 * table `categoriaMap`, the fixed key list `actividades`, and the flat record
 * `{ TouristID, <key>: <score>, ... }` sent to the preferences endpoint.
 */
module Payload {
  import opened Wrappers
  import opened Scores

  /** The labels of `categoriaMap`, in declaration order (the order `Object.keys` returns). */
  const Etiquetas: seq<string> := [
    "Tour guiado",
    "Caminata en senderos",
    "Buceo",
    "Cascadas",
    "Paseo en lancha rápida",
    "Observación de aves migratorias",
    "Experiencia cultural",
    "Excursión en kayak",
    "Camping en la montaña",
    "Avistamiento de fauna silvestre",
    "Tour arqueológico",
    "Paseo en bicicleta de montaña",
    "Tour de jardines botánicos",
    "Tour de templos y monumentos",
    "Observación de estrellas",
    "Piscinas naturales, cenotes"
  ]

  /** The short keys of `categoriaMap`: `Claves[i]` is the key of `Etiquetas[i]`. */
  const Claves: seq<string> := [
    "tour", "caminata", "buceo", "cascadas", "lancha", "aves", "cultura", "kayak",
    "camping", "fauna", "arqueologia", "bicicleta", "jardines", "templos", "estrellas",
    "piscinas"
  ]

  /** `actividades`: the keys sent, in order. It has 15 keys and lacks `piscinas`. */
  const Actividades: seq<string> := [
    "tour", "caminata", "buceo", "lancha", "cascadas",
    "aves", "cultura", "kayak", "camping", "fauna", "arqueologia",
    "bicicleta", "jardines", "templos", "estrellas"
  ]

  /** The identity field of the payload. */
  const TOURIST_ID: string := "TouristID"

  /** The label whose score never reaches the payload. */
  const PISCINAS_LABEL: string := "Piscinas naturales, cenotes"

  /** A payload value: the identity string or a score (`number | string`). */
  datatype Valor = Texto(texto: string) | Numero(numero: int)

  /** `categoriaMap[l] === act`: label `l` is mapped to key `act`. */
  ghost predicate Mapea(l: string, act: string) {
    exists i :: 0 <= i < |Etiquetas| && Etiquetas[i] == l && Claves[i] == act
  }

  /** The position of the first occurrence of `act` in `Claves` at or after `desde`, or `|Claves|`. */
  function PrimeraPosicion(act: string, desde: nat): (r: nat)
    requires desde <= |Claves|
    ensures desde <= r <= |Claves|
    ensures r < |Claves| ==> Claves[r] == act
    ensures forall j :: desde <= j < r ==> Claves[j] != act
    decreases |Claves| - desde
  {
    if desde == |Claves| then desde
    else if Claves[desde] == act then desde
    else PrimeraPosicion(act, desde + 1)
  }

  /**
   * `Object.keys(categoriaMap).find(cat => categoriaMap[cat] === act)`: the
   * first label, in declaration order, mapped to `act`, or none.
   */
  function BuscarEtiqueta(act: string): (r: Option<string>)
    ensures r.Some? ==> Mapea(r.value, act)
    ensures r.None? <==> act !in Claves
  {
    var i := PrimeraPosicion(act, 0);
    if i < |Claves| then Some(Etiquetas[i]) else None
  }

  /** `categoriaMap` has 16 distinct labels, none empty, and 16 distinct keys. */
  lemma CategoriaMapInjective()
    ensures |Etiquetas| == |Claves| == 16
    ensures Distinct(Etiquetas) && Distinct(Claves)
    ensures forall i :: 0 <= i < |Etiquetas| ==> Etiquetas[i] != ""
  {
  }

  /** A label sits at one position of the table only. */
  lemma EtiquetaPosicion(i: nat, j: nat)
    requires i < |Etiquetas| && j < |Etiquetas| && Etiquetas[i] == Etiquetas[j]
    ensures i == j
  {
    CategoriaMapInjective();
  }

  /** A key sits at one position of the table only. */
  lemma ClaveUnica(i: nat, j: nat)
    requires i < |Claves| && j < |Claves| && Claves[i] == Claves[j]
    ensures i == j
  {
    CategoriaMapInjective();
  }

  /** Hence `find` stops at a key's own position. */
  lemma ClavePosicion(i: nat)
    requires i < |Claves|
    ensures PrimeraPosicion(Claves[i], 0) == i
  {
    CategoriaMapInjective();
  }

  /** Because `categoriaMap` is injective, the search finds the one label mapped to `act`. */
  lemma BuscarEtiquetaUnique(l: string, act: string)
    requires Mapea(l, act)
    ensures BuscarEtiqueta(act) == Some(l)
  {
    var i :| 0 <= i < |Etiquetas| && Etiquetas[i] == l && Claves[i] == act;
    ClavePosicion(i);
  }

  /**
   * The value sent for key `act`:
   * `categoriaOriginal && puntos[categoriaOriginal] ? puntos[categoriaOriginal] : 0`.
   */
  function ValorActividad(puntos: Puntos, act: string): (r: int)
    ensures BuscarEtiqueta(act).Some? ==> r == Score(puntos, BuscarEtiqueta(act).value)
    ensures act !in Claves ==> r == 0
  {
    match BuscarEtiqueta(act)
    case Some(l) => if l != "" then ValorO0(puntos, l) else 0
    case None => 0
  }

  /**
   * The value sent for a key is the score of the label mapped to it (0 when
   * that label has no score), and 0 for a key no label maps to.
   */
  lemma ValorActividadMeaning(puntos: Puntos, act: string)
    ensures forall l :: Mapea(l, act) ==> ValorActividad(puntos, act) == Score(puntos, l)
    ensures (forall l :: !Mapea(l, act)) ==> ValorActividad(puntos, act) == 0
  {
    forall l | Mapea(l, act)
      ensures ValorActividad(puntos, act) == Score(puntos, l)
    {
      BuscarEtiquetaUnique(l, act);
      CategoriaMapInjective();
    }
  }

  /** Position in `categoriaMap` of the `i`-th key of `actividades` (the two lists differ only at 3 and 4). */
  function EnTabla(i: nat): nat {
    if i == 3 then 4 else if i == 4 then 3 else i
  }

  /** `actividades` has 15 distinct keys; it lacks `piscinas` and the identity field's name. */
  lemma ActividadesShape()
    ensures |Actividades| == 15 && Distinct(Actividades)
    ensures "piscinas" !in Actividades && TOURIST_ID !in Actividades
  {
  }

  /** The `i`-th key of `actividades` is a key of `categoriaMap`, at position `EnTabla(i)`. */
  lemma ActividadEnTabla(i: nat)
    requires i < |Actividades|
    ensures EnTabla(i) < 15 && Claves[EnTabla(i)] == Actividades[i]
  {
  }

  /** The value sent for the key at table position `k` is the score of the label at `k`. */
  lemma ValorEnPosicion(puntos: Puntos, k: nat)
    requires k < |Claves|
    ensures ValorActividad(puntos, Claves[k]) == Score(puntos, Etiquetas[k])
  {
    ClavePosicion(k);
    CategoriaMapInjective();
  }

  /** The score of "Piscinas naturales, cenotes" never reaches the payload. */
  lemma PiscinasIgnored(puntos: Puntos, v: int, act: string)
    requires act in Actividades
    ensures ValorActividad(puntos[PISCINAS_LABEL := v], act) == ValorActividad(puntos, act)
  {
    var r := BuscarEtiqueta(act);
    if r.Some? {
      var i :| 0 <= i < |Etiquetas| && Etiquetas[i] == r.value && Claves[i] == act;
      if r.value == PISCINAS_LABEL {
        EtiquetaPosicion(i, 15);
        assert false;
      }
    }
  }

  /**
   * The `forEach` over `actividades` that fills `payload`: the identity
   * field plus one numeric field per key, whatever was answered.
   */
  method ConstruirPayload(touristId: string, puntos: Puntos) returns (payload: map<string, Valor>)
    ensures payload.Keys == {TOURIST_ID} + Elements(Actividades)
    ensures |payload| == 16 && "piscinas" !in payload
    ensures payload[TOURIST_ID] == Texto(touristId)
    ensures forall a :: a in Actividades ==> payload[a] == Numero(ValorActividad(puntos, a))
  {
    payload := map[TOURIST_ID := Texto(touristId)];
    for i := 0 to |Actividades|
      invariant payload.Keys == {TOURIST_ID} + Elements(Actividades[..i])
      invariant payload[TOURIST_ID] == Texto(touristId)
      invariant forall j :: 0 <= j < i ==> payload[Actividades[j]] == Numero(ValorActividad(puntos, Actividades[j]))
    {
      var act := Actividades[i];
      NotTouristId(i);
      payload := payload[act := Numero(ValorActividad(puntos, act))];
      ElementsPrefix(Actividades, i);
    }
    ElementsWhole(Actividades);
    PayloadKeys();
  }

  /** The payload's keys: the identity field and the 15 keys, 16 in all, `piscinas` not among them. */
  lemma PayloadKeys()
    ensures |{TOURIST_ID} + Elements(Actividades)| == 16
    ensures "piscinas" !in {TOURIST_ID} + Elements(Actividades)
  {
    ActividadesShape();
    DistinctCard(Actividades);
  }

  /** No key of `actividades` is the identity field's name. */
  lemma NotTouristId(i: nat)
    requires i < |Actividades|
    ensures Actividades[i] != TOURIST_ID
  {
  }

  /** Scenario: scores `{Buceo: 12}` send `buceo: 12` and 0 for the 14 other keys. */
  lemma TwelveBuceoPayload(i: nat)
    requires i < |Actividades|
    ensures ValorActividad(map["Buceo" := 12], Actividades[i]) == if Actividades[i] == "buceo" then 12 else 0
  {
    var k := EnTabla(i);
    ActividadEnTabla(i);
    ValorEnPosicion(map["Buceo" := 12], k);
    if Etiquetas[k] == "Buceo" {
      EtiquetaPosicion(k, 2);
    }
    if Claves[k] == "buceo" {
      ClaveUnica(k, 2);
    }
  }
}
