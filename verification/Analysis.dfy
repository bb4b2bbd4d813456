/** The analysis step that follows tracking: an ordered decision table that
    either settles the result locally or sends one request carrying a
    rounded summary of the first gaze points, and the mapping from the
    request's outcome to the text shown. */
module Analysis {
  import opened Types

  /** Fewer buffered points than this are not worth analysing. */
  const MinPoints: nat := 20
  /** At most this many points are sent. */
  const SummaryLimit: nat := 250

  const SkipMessage: string := "Análisis de UX omitido: no se proporcionó una clave de API de Groq."
  const InsufficientMessage: string := "No se recopilaron suficientes datos de la mirada para un análisis de UX significativo."
  const EmptyResponseMessage: string := "La respuesta de la API estaba vacía."
  const FailurePrefix: string := "Error al generar el análisis de UX: "
  const FailureSuffix: string := ". Por favor, verifica tu clave de API y la conexión."
  const StatusPrefix: string := "Error de la API de Groq: "

  function Min(a: int, b: int): int
  {
    if a <= b then a else b
  }

  /** Every point with both coordinates rounded, in order. */
  function RoundAll(ps: seq<GazePoint>): (r: seq<IntPoint>)
    ensures |r| == |ps|
    ensures forall i :: 0 <= i < |ps| ==> r[i] == RoundPoint(ps[i])
  {
    if ps == [] then [] else [RoundPoint(ps[0])] + RoundAll(ps[1..])
  }

  /** The points sent for analysis: the first at most 250 buffered points,
      rounded, in buffer order. */
  function Summarize(ps: seq<GazePoint>): (r: seq<IntPoint>)
    ensures |r| == Min(SummaryLimit, |ps|)
    ensures forall i :: 0 <= i < |r| ==> r[i] == RoundPoint(ps[i])
  {
    RoundAll(ps[..Min(SummaryLimit, |ps|)])
  }

  /** Points that arrive after the first 250 do not affect the summary. */
  lemma SummaryIgnoresLatePoints(ps: seq<GazePoint>, later: seq<GazePoint>)
    requires |ps| >= SummaryLimit
    ensures Summarize(ps + later) == Summarize(ps)
  {
  }

  /** On points that are already whole pixels the summary loses nothing but
      the points beyond the limit. */
  lemma SummaryOfWholePoints(ps: seq<GazePoint>)
    requires forall i :: 0 <= i < |ps| ==> ps[i].x == ps[i].x.Floor as real && ps[i].y == ps[i].y.Floor as real
    ensures forall i :: 0 <= i < |Summarize(ps)| ==>
      Summarize(ps)[i].x as real == ps[i].x && Summarize(ps)[i].y as real == ps[i].y
  {
    forall i | 0 <= i < |Summarize(ps)|
      ensures Summarize(ps)[i].x as real == ps[i].x && Summarize(ps)[i].y as real == ps[i].y
    {
      RoundExamples(ps[i].x.Floor);
      RoundExamples(ps[i].y.Floor);
    }
  }

  /** The request sent to the language model: target URL, API key and the
      summarised points (viewport size and prompt wording are left out). */
  datatype Request = Request(url: string, apiKey: string, points: seq<IntPoint>)

  /** The decision taken when tracking finishes. */
  datatype Plan =
    | Settled(message: string)
    | Send(request: Request)

  /** The decision table, in order: no key, then too few points, then one
      request with the summary. */
  function Decide(url: string, apiKey: string, ps: seq<GazePoint>): (r: Plan)
    ensures apiKey == "" <==> r == Settled(SkipMessage)
    ensures apiKey != "" && |ps| < MinPoints <==> r == Settled(InsufficientMessage)
    ensures r.Send? <==> apiKey != "" && |ps| >= MinPoints
    ensures r.Send? ==> r.request == Request(url, apiKey, Summarize(ps))
  {
    if apiKey == "" then Settled(SkipMessage)
    else if |ps| < MinPoints then Settled(InsufficientMessage)
    else Send(Request(url, apiKey, Summarize(ps)))
  }

  /** How the single request ended:
      - `Answered`: a successful response whose first choice's content is
        given, or missing;
      - `Rejected`: a non-success status, with the error message of the
        response body when it has one, and the status text;
      - `Failed`: a transport error or any other exception, with its message. */
  datatype Response =
    | Answered(content: Option<string>)
    | Rejected(apiMessage: Option<string>, statusText: string)
    | Failed(message: string)

  /** The error text a failed request raises: the API's own message when it
      is present and non-empty, else one built from the status text. */
  function FailureDetail(resp: Response): (d: string)
    requires !resp.Answered?
    ensures resp.Failed? ==> d == resp.message
    ensures resp.Rejected? && resp.apiMessage.Some? && resp.apiMessage.value != "" ==> d == resp.apiMessage.value
    ensures resp.Rejected? && (resp.apiMessage.None? || resp.apiMessage.value == "") ==>
      d == StatusPrefix + resp.statusText
  {
    match resp
    case Failed(m) => m
    case Rejected(apiMessage, statusText) =>
      if apiMessage.Some? && apiMessage.value != "" then apiMessage.value
      else StatusPrefix + statusText
  }

  /** The failure message shown to the user, embedding the detail. */
  function FailureText(detail: string): string
  {
    FailurePrefix + detail + FailureSuffix
  }

  /** Recovers the detail from a failure message. */
  function DetailOf(text: string): (d: Option<string>)
  {
    if |text| >= |FailurePrefix| + |FailureSuffix|
       && text[..|FailurePrefix|] == FailurePrefix
       && text[|text| - |FailureSuffix|..] == FailureSuffix
    then Some(text[|FailurePrefix|..|text| - |FailureSuffix|])
    else None
  }

  /** The detail embedded in a failure message can be read back intact. */
  lemma FailureTextRoundTrip(detail: string)
    ensures DetailOf(FailureText(detail)) == Some(detail)
  {
  }

  /** The text that becomes the analysis result: non-empty content verbatim,
      the fixed empty-response message for missing or empty content, and a
      failure message carrying the error detail otherwise. */
  function ResultText(resp: Response): (t: string)
    ensures resp.Answered? && resp.content.Some? && resp.content.value != "" ==> t == resp.content.value
    ensures resp.Answered? && (resp.content.None? || resp.content.value == "") ==> t == EmptyResponseMessage
    ensures !resp.Answered? ==> DetailOf(t) == Some(FailureDetail(resp))
    ensures t != ""
  {
    match resp
    case Answered(content) =>
      if content.Some? && content.value != "" then content.value else EmptyResponseMessage
    case _ =>
      FailureTextRoundTrip(FailureDetail(resp));
      FailureText(FailureDetail(resp))
  }
}
