/** The four scraping routes of server.js, each a function from the request,
    and from what every outbound call it makes would do, to the HTTP status,
    the JSON envelope and the trace of outbound calls actually made. */
module Server {
  import opened Js
  import opened MilanunciosParams

  // Outbound endpoints of the workflow-automation service.
  const GenerateUrlWebhook := "https://n8n.sitemaster.lat/webhook/search/cochesnet/generate-url"
  const CochesSaveWebhook := "https://n8n.sitemaster.lat/webhook/cochesguardar"
  const MilanunciosSaveWebhook := "https://n8n.sitemaster.lat/webhook/save/milanuncios"

  // Error texts sent to the client.
  const NoQueryMessage := "No se proporcionó consulta de búsqueda"
  const NoUrlGeneratedMessage := "No se pudo generar una URL válida para la búsqueda"
  const NoSearchTermMessage := "No se proporcionó término de búsqueda"
  const NoUrlMessage := "No se proporcionó URL"
  const SearchFallbackMessage := "Error al procesar la búsqueda"

  /** The JSON body of a response: `{ success: true, data }` or
      `{ success: false, error }`, where an `undefined` error (`None`) is
      left out of the JSON. */
  datatype Envelope = Succeeded(data: JsValue) | Failed(error: Option<string>)

  /** One outbound call: a POST to a webhook with its JSON payload, or a call
      of one of the two scrapers with its argument. */
  datatype Call =
    | Webhook(endpoint: string, payload: JsValue)
    | ScrapeCoches(url: JsValue)
    | ScrapeMilanuncios(params: map<string, JsValue>)

  datatype Response = Response(status: int, body: Envelope, calls: seq<Call>)

  /** `axios.post(GenerateUrlWebhook, { query })` */
  function SynthesisCall(query: JsValue): Call
  {
    Webhook(GenerateUrlWebhook, Obj(map["query" := query]))
  }

  /** `axios.post(endpoint, { body: scrapedData })` */
  function SaveCall(endpoint: string, scrapedData: JsValue): Call
  {
    Webhook(endpoint, Obj(map["body" := scrapedData]))
  }

  predicate IsSynthesis(c: Call)
  {
    c.Webhook? && c.endpoint == GenerateUrlWebhook
  }

  predicate IsScrape(c: Call)
  {
    c.ScrapeCoches? || c.ScrapeMilanuncios?
  }

  predicate IsPersist(c: Call)
  {
    c.Webhook? && (c.endpoint == CochesSaveWebhook || c.endpoint == MilanunciosSaveWebhook)
  }

  /** Position of a call in the pipeline: resolution, extraction, persistence. */
  function StageOf(c: Call): nat
  {
    if IsSynthesis(c) then 0 else if IsScrape(c) then 1 else 2
  }

  /** Every stage is attempted at most once, and in pipeline order: no
      retries, no call after a later stage has begun. */
  predicate StagesInOrder(calls: seq<Call>)
  {
    forall i, j :: 0 <= i < j < |calls| ==> StageOf(calls[i]) < StageOf(calls[j])
  }

  /** The gateway's three outcomes, with `success` true exactly on 200. */
  predicate WellFormed(r: Response)
  {
    (r.status == 200 || r.status == 400 || r.status == 500) &&
    (r.body.Succeeded? <==> r.status == 200)
  }

  /** A synthesis response the handler can use: `n8nResponse.data` and
      `n8nResponse.data.url` both truthy. */
  predicate UsableUrl(data: JsValue)
  {
    Truthy(data) && Truthy(Member(data, "url"))
  }

  /** `error.message || 'Error al procesar la búsqueda'`: the error's own
      message unless it is missing or empty. */
  function SearchError(message: Option<string>): (e: string)
    ensures e != ""
    ensures message.Some? && message.value != "" ==> e == message.value
    ensures e == SearchFallbackMessage || message == Some(e)
  {
    if message.Some? && message.value != "" then message.value else SearchFallbackMessage
  }

  /** POST /cochesnet/search: validate `query`, ask the webhook for a URL,
      scrape it, save the result, respond. Every failure after validation is
      caught by the one outer `catch` and becomes a 500; a failed save is
      fatal too. */
  function CochesSearch(body: map<string, JsValue>, generated: Outcome<JsValue>,
                        scraped: Outcome<JsValue>, saved: Outcome<JsValue>): (r: Response)
    ensures WellFormed(r) && StagesInOrder(r.calls)
    // Validation: nothing is called without a query.
    ensures !Truthy(Get(body, "query")) ==> r == Response(400, Failed(Some(NoQueryMessage)), [])
    // Resolution: the first call, made once, with exactly the submitted query.
    ensures Truthy(Get(body, "query")) ==> |r.calls| >= 1 && r.calls[0] == SynthesisCall(Get(body, "query"))
    ensures Truthy(Get(body, "query")) && generated.Fail? ==>
      r == Response(500, Failed(Some(SearchError(generated.message))), [SynthesisCall(Get(body, "query"))])
    ensures Truthy(Get(body, "query")) && generated.Ok? && !UsableUrl(generated.value) ==>
      r == Response(400, Failed(Some(NoUrlGeneratedMessage)), [SynthesisCall(Get(body, "query"))])
    // Extraction: only with a usable URL, and with exactly that URL.
    ensures forall c :: c in r.calls && IsScrape(c) ==>
      generated.Ok? && UsableUrl(generated.value) && c == ScrapeCoches(Member(generated.value, "url"))
    ensures Truthy(Get(body, "query")) && generated.Ok? && UsableUrl(generated.value) ==>
      ScrapeCoches(Member(generated.value, "url")) in r.calls
    ensures Truthy(Get(body, "query")) && generated.Ok? && UsableUrl(generated.value) && scraped.Fail? ==>
      r.status == 500 && r.body == Failed(Some(SearchError(scraped.message))) && |r.calls| == 2
    // Persistence: only with the scraped data, exactly as scraped; its failure is fatal.
    ensures forall c :: c in r.calls && IsPersist(c) ==> scraped.Ok? && c == SaveCall(CochesSaveWebhook, scraped.value)
    ensures Truthy(Get(body, "query")) && generated.Ok? && UsableUrl(generated.value) && scraped.Ok? ==>
      SaveCall(CochesSaveWebhook, scraped.value) in r.calls
    ensures Truthy(Get(body, "query")) && generated.Ok? && UsableUrl(generated.value) && scraped.Ok? && saved.Fail? ==>
      r.status == 500 && r.body == Failed(Some(SearchError(saved.message)))
    // Success exactly when every stage succeeded, carrying the scraped data unchanged.
    ensures r.status == 200 <==>
      Truthy(Get(body, "query")) && generated.Ok? && UsableUrl(generated.value) && scraped.Ok? && saved.Ok?
    ensures r.status == 200 ==> r.body == Succeeded(scraped.value)
  {
    var query := Get(body, "query");
    if !Truthy(query) then
      Response(400, Failed(Some(NoQueryMessage)), [])
    else
      var synthesis := SynthesisCall(query);
      match generated
      case Fail(m) => Response(500, Failed(Some(SearchError(m))), [synthesis])
      case Ok(data) =>
        if !Truthy(data) || !Truthy(Member(data, "url")) then
          Response(400, Failed(Some(NoUrlGeneratedMessage)), [synthesis])
        else
          var scrape := ScrapeCoches(Member(data, "url"));
          match scraped
          case Fail(m) => Response(500, Failed(Some(SearchError(m))), [synthesis, scrape])
          case Ok(scrapedData) =>
            var save := SaveCall(CochesSaveWebhook, scrapedData);
            match saved
            case Fail(m) => Response(500, Failed(Some(SearchError(m))), [synthesis, scrape, save])
            case Ok(_) => Response(200, Succeeded(scrapedData), [synthesis, scrape, save])
  }

  /** GET /cochesnet/scrape-direct: validate `url`, scrape it as given,
      respond. A scraper error's message is sent as it is, with no fallback
      text. */
  function CochesScrapeDirect(query: map<string, JsValue>, scraped: Outcome<JsValue>): (r: Response)
    ensures WellFormed(r) && StagesInOrder(r.calls)
    ensures forall c :: c in r.calls ==> !c.Webhook?
    ensures !Truthy(Get(query, "url")) ==> r == Response(400, Failed(Some(NoUrlMessage)), [])
    ensures Truthy(Get(query, "url")) ==> r.calls == [ScrapeCoches(Get(query, "url"))]
    ensures Truthy(Get(query, "url")) && scraped.Fail? ==> r.status == 500 && r.body == Failed(scraped.message)
    ensures r.status == 200 <==> Truthy(Get(query, "url")) && scraped.Ok?
    ensures r.status == 200 ==> r.body == Succeeded(scraped.value)
  {
    var url := Get(query, "url");
    if !Truthy(url) then
      Response(400, Failed(Some(NoUrlMessage)), [])
    else
      match scraped
      case Fail(m) => Response(500, Failed(m), [ScrapeCoches(url)])
      case Ok(data) => Response(200, Succeeded(data), [ScrapeCoches(url)])
  }

  /** POST /milanuncios/search: validate `s`, build the scraper's
      parameters, scrape, try to save, respond. The save has its own
      `try/catch` that only logs, so its outcome never reaches the
      response. */
  function MilanunciosSearch(body: map<string, JsValue>, scraped: Outcome<JsValue>,
                             saved: Outcome<JsValue>): (r: Response)
    ensures WellFormed(r) && StagesInOrder(r.calls)
    ensures forall c :: c in r.calls ==> !IsSynthesis(c)
    ensures !Truthy(Get(body, "s")) ==> r == Response(400, Failed(Some(NoSearchTermMessage)), [])
    ensures Truthy(Get(body, "s")) ==> |r.calls| >= 1 && r.calls[0] == ScrapeMilanuncios(SearchParams(body))
    ensures Truthy(Get(body, "s")) && scraped.Fail? ==>
      r == Response(500, Failed(Some(SearchError(scraped.message))), [ScrapeMilanuncios(SearchParams(body))])
    ensures forall c :: c in r.calls && IsPersist(c) ==> scraped.Ok? && c == SaveCall(MilanunciosSaveWebhook, scraped.value)
    ensures Truthy(Get(body, "s")) && scraped.Ok? ==>
      r == Response(200, Succeeded(scraped.value),
                    [ScrapeMilanuncios(SearchParams(body)), SaveCall(MilanunciosSaveWebhook, scraped.value)])
    ensures r.status == 200 <==> Truthy(Get(body, "s")) && scraped.Ok?
  {
    var s := Get(body, "s");
    if !Truthy(s) then
      Response(400, Failed(Some(NoSearchTermMessage)), [])
    else
      var scrape := ScrapeMilanuncios(SearchParams(body));
      match scraped
      case Fail(m) => Response(500, Failed(Some(SearchError(m))), [scrape])
      case Ok(scrapedData) =>
        var save := SaveCall(MilanunciosSaveWebhook, scrapedData);
        match saved
        case Ok(_) => Response(200, Succeeded(scrapedData), [scrape, save])
        case Fail(_) => Response(200, Succeeded(scrapedData), [scrape, save])
  }

  /** GET /milanuncios/scrape-direct: validate `url`, parse it (`parsed` is
      what `new URL(url)` does: throw, or give the query's key/value pairs in
      order), copy the pairs into the scraper's parameters, scrape, respond.
      The parse happens inside the `try`, so an unparseable URL is a 500,
      not a 400; errors are sent with their raw message. */
  function MilanunciosScrapeDirect(query: map<string, JsValue>, parsed: Outcome<seq<(string, string)>>,
                                   scraped: Outcome<JsValue>): (r: Response)
    ensures WellFormed(r) && StagesInOrder(r.calls)
    ensures forall c :: c in r.calls ==> !c.Webhook?
    ensures !Truthy(Get(query, "url")) ==> r == Response(400, Failed(Some(NoUrlMessage)), [])
    ensures Truthy(Get(query, "url")) && parsed.Fail? ==> r == Response(500, Failed(parsed.message), [])
    ensures Truthy(Get(query, "url")) && parsed.Ok? ==> r.calls == [ScrapeMilanuncios(QueryParams(parsed.value))]
    ensures Truthy(Get(query, "url")) && parsed.Ok? && scraped.Fail? ==> r.status == 500 && r.body == Failed(scraped.message)
    ensures r.status == 200 <==> Truthy(Get(query, "url")) && parsed.Ok? && scraped.Ok?
    ensures r.status == 200 ==> r.body == Succeeded(scraped.value)
  {
    var url := Get(query, "url");
    if !Truthy(url) then
      Response(400, Failed(Some(NoUrlMessage)), [])
    else
      match parsed
      case Fail(m) => Response(500, Failed(m), [])
      case Ok(pairs) =>
        var scrape := ScrapeMilanuncios(QueryParams(pairs));
        match scraped
        case Fail(m) => Response(500, Failed(m), [scrape])
        case Ok(data) => Response(200, Succeeded(data), [scrape])
  }

  /** The two verticals' persistence policies diverge: with the same
      scraped data and the same failed save, coches.net reports a 500
      failure while Milanuncios reports a 200 success carrying the data. */
  lemma PersistencePolicyDiverges(cochesBody: map<string, JsValue>, milanunciosBody: map<string, JsValue>,
                                  generated: JsValue, scrapedData: JsValue, message: Option<string>)
    requires Truthy(Get(cochesBody, "query")) && UsableUrl(generated)
    requires Truthy(Get(milanunciosBody, "s"))
    ensures CochesSearch(cochesBody, Ok(generated), Ok(scrapedData), Fail(message)) ==
      Response(500, Failed(Some(SearchError(message))),
               [SynthesisCall(Get(cochesBody, "query")), ScrapeCoches(Member(generated, "url")),
                SaveCall(CochesSaveWebhook, scrapedData)])
    ensures MilanunciosSearch(milanunciosBody, Ok(scrapedData), Fail(message)).status == 200
    ensures MilanunciosSearch(milanunciosBody, Ok(scrapedData), Fail(message)).body == Succeeded(scrapedData)
  {
  }

  /** On Milanuncios the save's outcome is not observable at all: the
      response and the trace are the same whatever the save did. */
  lemma MilanunciosSaveUnobservable(body: map<string, JsValue>, scraped: Outcome<JsValue>,
                                    saved1: Outcome<JsValue>, saved2: Outcome<JsValue>)
    ensures MilanunciosSearch(body, scraped, saved1) == MilanunciosSearch(body, scraped, saved2)
  {
  }

  /** Only the search route supplies an ordering: its parameters always
      carry `orden`, while the direct route forwards one only when the URL's
      query string has it. */
  lemma {:induction false} OrdenDefaultOnlyOnSearch(body: map<string, JsValue>, query: map<string, JsValue>,
                                                    pairs: seq<(string, string)>,
                                                    scraped: Outcome<JsValue>, saved: Outcome<JsValue>)
    requires Truthy(Get(body, "s")) && Truthy(Get(query, "url"))
    ensures var c := MilanunciosSearch(body, scraped, saved).calls[0];
      c.ScrapeMilanuncios? && "orden" in c.params && Truthy(c.params["orden"])
    ensures var c := MilanunciosScrapeDirect(query, Ok(pairs), scraped).calls[0];
      c.ScrapeMilanuncios? &&
      ("orden" in c.params <==> exists i :: 0 <= i < |pairs| && pairs[i].0 == "orden")
  {
    QueryParamsLastWins(pairs, "orden");
  }
}
