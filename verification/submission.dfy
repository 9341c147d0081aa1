/**
 * How `enviarPreferencias` turns the endpoint's answer into its result: `true`
 * on an OK response, otherwise `false` plus the message stored with
 * `setErrorEnvio`. The request itself (`fetch`, JSON encoding) is not
 * modelled; the response is given as a value.
 */
module Submission {
  import opened Wrappers

  /** The fallback message. */
  const ERROR_DESCONOCIDO: string := "Error desconocido"

  /** The body of a non-OK response as `response.json()` sees it. */
  datatype Cuerpo =
    | Json(error: Option<string>)           // parsed to an object; `errorData.error`, absent or a string
    | Nulo(mensajeTypeError: Option<string>) // parsed to `null`; reading `.error` throws a TypeError with this `message`
    | NoJson(mensajeParseo: Option<string>) // `response.json()` throws; the exception's `message`

  /** What the request produced. */
  datatype Respuesta =
    | Ok                                   // `response.ok` is true
    | NoOk(cuerpo: Cuerpo)                 // `response.ok` is false
    | Lanzo(mensaje: Option<string>)       // `fetch` throws; the exception's `message`

  /** The call's outcome: the value returned and the message stored, if any. */
  datatype Resultado = Resultado(ok: bool, errorEnvio: Option<string>)

  /** JavaScript's `m || 'Error desconocido'` for an optional string: an empty or absent `m` is falsy. */
  function OFallback(m: Option<string>): (r: string)
    ensures r != ""
    ensures m.Some? && m.value != "" ==> r == m.value
    ensures !(m.Some? && m.value != "") ==> r == ERROR_DESCONOCIDO
  {
    if m.Some? && m.value != "" then m.value else ERROR_DESCONOCIDO
  }

  /** The texts a response carries. */
  function MensajesDe(r: Respuesta): set<string> {
    match r
    case Ok => {}
    case NoOk(Json(e)) => if e.Some? then {e.value} else {}
    case NoOk(Nulo(m)) => if m.Some? then {m.value} else {}
    case NoOk(NoJson(m)) => if m.Some? then {m.value} else {}
    case Lanzo(m) => if m.Some? then {m.value} else {}
  }

  /**
   * The `try`/`catch` of `enviarPreferencias`. A body that cannot be parsed
   * makes `response.json()` throw inside the `try`, so it lands in the
   * `catch` branch like a failed `fetch`; so does a body that parses to
   * `null`, where reading `errorData.error` throws a TypeError.
   */
  function Clasificar(r: Respuesta): (res: Resultado)
    ensures res.ok <==> r.Ok?
    ensures res.ok <==> res.errorEnvio.None?
    ensures res.errorEnvio.Some? ==> res.errorEnvio.value != ""
    ensures res.errorEnvio.Some? ==>
              res.errorEnvio.value == ERROR_DESCONOCIDO || res.errorEnvio.value in MensajesDe(r)
  {
    match r
    case Ok => Resultado(true, None)
    case NoOk(Json(e)) => Resultado(false, Some(OFallback(e)))
    case NoOk(Nulo(m)) => Resultado(false, Some(OFallback(m)))
    case NoOk(NoJson(m)) => Resultado(false, Some(OFallback(m)))
    case Lanzo(m) => Resultado(false, Some(OFallback(m)))
  }

  /** A non-empty message in the response is reported verbatim (e.g. a 400 with `{"error": "invalid id"}`). */
  lemma MensajeVerbatim(r: Respuesta, m: string)
    requires !r.Ok? && MensajesDe(r) == {m} && m != ""
    ensures Clasificar(r) == Resultado(false, Some(m))
  {
  }

  /** Without a usable message, the generic one is reported. */
  lemma MensajeGenerico(r: Respuesta)
    requires !r.Ok?
    requires forall t :: t in MensajesDe(r) ==> t == ""
    ensures Clasificar(r) == Resultado(false, Some(ERROR_DESCONOCIDO))
  {
  }

  /** A 400 answered with `{"error": "invalid id"}` fails with "invalid id". */
  lemma InvalidIdScenario()
    ensures Clasificar(NoOk(Json(Some("invalid id")))) == Resultado(false, Some("invalid id"))
  {
  }

  /**
   * A 500 with an unparseable body fails with the parser's message, not the
   * generic text; the generic text appears only if that message is empty.
   */
  lemma UnparseableBodyScenario(parseo: string)
    ensures Clasificar(NoOk(NoJson(Some(parseo)))) ==
            Resultado(false, Some(if parseo != "" then parseo else ERROR_DESCONOCIDO))
    ensures Clasificar(NoOk(NoJson(Some(parseo)))) == Clasificar(Lanzo(Some(parseo)))
  {
  }

  /**
   * A non-OK response whose body is `null` fails with the TypeError's
   * message, as a thrown error does, not with the generic text.
   */
  lemma NullBodyScenario(typeError: string)
    requires typeError != ""
    ensures Clasificar(NoOk(Nulo(Some(typeError)))) == Resultado(false, Some(typeError))
    ensures Clasificar(NoOk(Nulo(Some(typeError)))) == Clasificar(Lanzo(Some(typeError)))
  {
  }
}
