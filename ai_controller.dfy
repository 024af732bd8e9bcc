/**
 * The AI endpoints of the product service: the recommendation for one
 * product, answered from the analyzer's outcome, and the health report on
 * the analyzer's configuration and its two environment variables.
 */
module AIRecommendation {
  import opened Wrappers
  import opened Entities
  import opened Http
  import opened Text

  /** What the analyzer does with a product: an analysis, a missing key, or any other failure. */
  datatype AnalyzerOutcome =
    | Analyzed(analysis: Analysis)
    | NotConfigured                 // IllegalStateException
    | Failed                        // any other exception

  /** A recommendation reply: the analysis, or a map holding only "error". */
  datatype Body = Recommendation(analysis: Analysis) | Error(error: string)

  const UnavailableText := "AI recommendation service is currently unavailable"
  const FailureText := "Unable to generate AI recommendation at this time"

  /**
   * GET /api/products/{id}/ai-recommendation. The second component is the
   * product handed to the analyzer, if it was invoked at all.
   */
  function GetAIRecommendation(products: map<Id, Product>, id: Id, analyze: Product -> AnalyzerOutcome)
    : (r: (Response<Body>, Option<Product>))
    ensures id !in products <==> r.0.status == NOT_FOUND
    ensures id !in products ==> r.0.body.None? && r.1.None?
    ensures id in products ==> r.1 == Some(products[id])
    ensures id in products && analyze(products[id]).Analyzed? ==>
      r.0 == Response(OK, Some(Recommendation(analyze(products[id]).analysis)))
    ensures id in products && analyze(products[id]).NotConfigured? ==>
      r.0 == Response(SERVICE_UNAVAILABLE, Some(Error(UnavailableText)))
    ensures id in products && analyze(products[id]).Failed? ==>
      r.0 == Response(INTERNAL_SERVER_ERROR, Some(Error(FailureText)))
  {
    if id !in products then (Response(NOT_FOUND, None), None)
    else
      var product := products[id];
      var reply := match analyze(product)
        case Analyzed(a) => Response(OK, Some(Recommendation(a)))
        case NotConfigured => Response(SERVICE_UNAVAILABLE, Some(Error(UnavailableText)))
        case Failed => Response(INTERNAL_SERVER_ERROR, Some(Error(FailureText)));
      (reply, Some(product))
  }

  /** Every reply with a body other than 200 carries an error message; 200 only with an analysis. */
  lemma RecommendationStatusMatchesBody(products: map<Id, Product>, id: Id, analyze: Product -> AnalyzerOutcome)
    ensures var (reply, _) := GetAIRecommendation(products, id, analyze);
      (reply.status == OK <==> reply.body.Some? && reply.body.value.Recommendation?)
      && (reply.status in {SERVICE_UNAVAILABLE, INTERNAL_SERVER_ERROR} <==> reply.body.Some? && reply.body.value.Error?)
  {
  }

  /** An environment variable counts as set when it is non-null and non-empty. */
  predicate KeySet(key: Option<string>)
  {
    key.Some? && key.value != ""
  }

  /**
   * The analyzer's key: GOOGLE_API_KEY when set, otherwise GEMINI_API_KEY
   * as it is (which may itself be unset).
   */
  function SelectKey(googleKey: Option<string>, geminiKey: Option<string>): (r: Option<string>)
    ensures KeySet(googleKey) ==> r == googleKey
    ensures !KeySet(googleKey) ==> r == geminiKey
  {
    if KeySet(googleKey) then googleKey else geminiKey
  }

  /**
   * The analyzer's guard: the selected key is unset exactly when neither
   * variable is set. The recommendation endpoint takes the analyzer's
   * outcome as given and does not derive it from the keys.
   */
  lemma NotConfiguredIffNoKey(googleKey: Option<string>, geminiKey: Option<string>)
    ensures !KeySet(SelectKey(googleKey, geminiKey)) <==> !KeySet(googleKey) && !KeySet(geminiKey)
  {
  }

  const ReadyText := "AI service is ready"
  const NotConfiguredText := "AI service not configured - API key missing"
  const SetPrefix := "SET (length: "
  const NotSetText := "NOT SET"

  /** How the health report shows one environment variable. */
  function KeyReport(key: Option<string>): (r: string)
    ensures KeySet(key) ==> r == SetPrefix + NatToString(|key.value|) + ")"
    ensures !KeySet(key) ==> r == NotSetText
  {
    if KeySet(key) then SetPrefix + NatToString(|key.value|) + ")" else NotSetText
  }

  /**
   * The report tells set from unset, and for a set variable the length can
   * be read back from the digits between the prefix and the closing parenthesis.
   */
  lemma KeyReportReadsBack(key: Option<string>)
    ensures KeyReport(key) == NotSetText <==> !KeySet(key)
    ensures KeySet(key) ==>
      var r := KeyReport(key);
      |SetPrefix| < |r| - 1
      && r[..|SetPrefix|] == SetPrefix
      && (forall i :: |SetPrefix| <= i < |r| - 1 ==> IsDigit(r[i]))
      && DigitsValue(r[|SetPrefix|..|r| - 1]) == |key.value|
  {
    if KeySet(key) {
      var r := KeyReport(key);
      var digits := NatToString(|key.value|);
      assert r[0] != NotSetText[0];
      assert r[|SetPrefix|..|r| - 1] == digits;
      NatToStringRoundTrip(|key.value|);
    }
  }

  datatype HealthReport = HealthReport(
    configured: bool,
    status: string,
    googleApiKey: string,
    geminiApiKey: string)

  /**
   * GET /api/products/ai/health: always 200. The status text depends on
   * `configured` alone; each variable is shown as set with its length, or as not set.
   */
  function CheckAIHealth(configured: bool, googleKey: Option<string>, geminiKey: Option<string>)
    : (r: Response<HealthReport>)
    ensures r.status == OK && r.body.Some?
    ensures r.body.value.configured == configured
    ensures r.body.value.status == if configured then ReadyText else NotConfiguredText
    ensures r.body.value.googleApiKey == KeyReport(googleKey)
    ensures r.body.value.geminiApiKey == KeyReport(geminiKey)
  {
    Response(OK, Some(HealthReport(
      configured,
      if configured then ReadyText else NotConfiguredText,
      KeyReport(googleKey),
      KeyReport(geminiKey))))
  }
}
