/** The `analyze-item` edge function (supabase/functions/analyze-item/index.ts) as a total
    function from the request, the configured key, the AI gateway and the JSON parser to the
    response it returns and the gateway call it makes, if any. The gateway (`fetch`) and
    `JSON.parse` are parameters; every thrown error ends in the catch-all 500. */
module AnalyzeFunction {
  import opened Wrappers
  import opened Text
  import opened JsonValue

  /** The incoming request: its method and the outcome of `req.json()` (a syntax error's
      message when the body is not JSON). */
  datatype Request = Request(httpMethod: string, body: Result<Json, string>)

  /** The response status and its JSON body (`None` for the body-less preflight reply). CORS
      and content-type headers are not modelled. */
  datatype Response = Response(status: int, body: Option<Json>)

  /** What the function sends to the AI gateway: the image as a data URL, the governorate as
      the prompt quotes it, and the bearer key. */
  datatype GatewayRequest = GatewayRequest(imageUrl: string, governorate: string, apiKey: string)

  /** What `fetch` yields: a rejection (network failure) or a reply whose body `response.json()`
      parses or fails to parse. */
  datatype FetchOutcome = Rejected(message: string) | Reply(status: int, body: Result<Json, string>)

  datatype Outcome = Outcome(response: Response, gatewayCall: Option<GatewayRequest>)

  /** A thrown value: an `Error` with its message, or anything else. */
  datatype Thrown = ErrorInstance(message: string) | NonError

  const ImageRequired: string := "Image is required"
  const KeyMissing: string := "LOVABLE_API_KEY is not configured"
  const RateLimited: string := "Rate limit exceeded. Please try again later."
  const PaymentRequired: string := "Payment required. Please add credits to continue."
  const NoContent: string := "No content in AI response"
  const ParseFailed: string := "Failed to parse AI response"
  const NotSellable: string := "not_sellable_item"
  const GenericFailure: string := "Failed to analyze item"

  /** Messages of the TypeErrors the runtime throws; their wording is the engine's. */
  const DestructureNull: string := "Cannot destructure property 'imageBase64' of null"
  const StartsWithMissing: string := "imageBase64.startsWith is not a function"
  const ReadChoicesOfNull: string := "Cannot read properties of null (reading 'choices')"
  const ReadErrorOfNull: string := "Cannot read properties of null (reading 'error')"
  const CreatePropertyOnPrimitive: string := "Cannot create property 'listingLinks' on a primitive value"
  const ConvertToPrimitive: string := "Cannot convert object to primitive value"

  const JpegPrefix: string := "data:image/jpeg;base64,"

  /** The image URL sent upstream: a data URL (RFC 2397, section 3) as given, anything else
      taken as bare base64 JPEG data. */
  function ToDataUrl(image: string): (r: string)
    ensures StartsWith(r, "data:")
    ensures StartsWith(image, "data:") ==> r == image
    ensures !StartsWith(image, "data:") ==> r == JpegPrefix + image
  {
    if StartsWith(image, "data:") then image else JpegPrefix + image
  }

  /** Normalising twice is normalising once. */
  lemma ToDataUrlIdempotent(image: string)
    ensures ToDataUrl(ToDataUrl(image)) == ToDataUrl(image)
  {
  }

  function ErrorBody(message: string): Json {
    JObj(map["error" := JStr(message)])
  }

  /** The catch-all: status 500 with the error's message, or the generic text for a thrown
      value that is not an `Error`. */
  function CatchAll(thrown: Thrown): (r: Response)
    ensures r.status == 500
    ensures thrown.ErrorInstance? ==> r.body == Some(ErrorBody(thrown.message))
    ensures thrown.NonError? ==> r.body == Some(ErrorBody(GenericFailure))
  {
    match thrown
    case ErrorInstance(m) => Response(500, Some(ErrorBody(m)))
    case NonError => Response(500, Some(ErrorBody(GenericFailure)))
  }

  function Throw(message: string): Response {
    CatchAll(ErrorInstance(message))
  }

  const Fence: string := "```"

  /** The text the handler parses: the inside of the first fenced block (```` ``` ```` or
      ```` ```json ````) when there is one, otherwise the whole content. This is what
      /```(?:json)?\s*([\s\S]*?)\s*```/ captures, up to the white space at either end of the
      capture, which the `trim` that follows removes anyway. */
  function FencedText(content: string): string {
    match IndexOf(content, Fence, 0)
    case None => content
    case Some(i) =>
      var start := if StartsWith(content[i + |Fence|..], "json") then i + |Fence| + 4 else i + |Fence|;
      match IndexOf(content, Fence, start)
      case None => content
      case Some(j) => content[start..j]
  }

  /** `content.match(...)`, then `JSON.parse(jsonStr.trim())`; a failure of either, or a
      non-string content, is the inner catch's 'Failed to parse AI response'. */
  function ParseContent(content: Json, parse: string -> Option<Json>): Option<Json> {
    if content.JStr? then parse(Trim(FencedText(content.s))) else None
  }

  const UsedSuffix: string := " - مستعمل"
  const GoodConditionSuffix: string := " - حالة جيدة"
  const ForSaleSuffix: string := " - للبيع"

  /** `Math.round(averagePrice * tenths / 10)` as JSON: a number for a number (with `null`
      and booleans coerced to 0 and 1), `null` for the NaN of an absent or non-numeric price,
      and `None` for the TypeError of a price whose conversion throws. */
  function ScaledPrice(averagePrice: Option<Json>, tenths: int): (r: Option<Json>)
    ensures r.None? <==> Throws(averagePrice)
  {
    match averagePrice
    case Some(JNum(n)) => Some(JNum((n * tenths + 5) / 10))
    case Some(JNull) => Some(JNum(0))
    case Some(JBool(b)) => Some(JNum(((if b then 1 else 0) * tenths + 5) / 10))
    case Some(j) => if ConversionThrows(j) then None else Some(JNull)
    case None => Some(JNull)
  }

  /** A numeric price scales to the nearest integer, halves rounded up; the price is `null`
      exactly when the average is absent, a string, or an array or object that converts; the
      multiplication throws exactly for an average whose conversion throws. */
  lemma ScaledPriceRounds(averagePrice: Option<Json>, tenths: int)
    ensures var r := ScaledPrice(averagePrice, tenths);
      && (r.None? <==> Throws(averagePrice))
      && (averagePrice.Some? && averagePrice.value.JNum? ==>
            r.Some? && r.value.JNum? && 10 * r.value.n <= averagePrice.value.n * tenths + 5 < 10 * r.value.n + 10)
      && (r == Some(JNull) <==>
            (averagePrice.None? || averagePrice.value.JStr? ||
             ((averagePrice.value.JArr? || averagePrice.value.JObj?) && !Throws(averagePrice))))
  {
  }

  /** One listing entry; a price that is `undefined` is dropped by `JSON.stringify`. */
  function Listing(title: string, price: Option<Json>): Json {
    match price
    case Some(p) => JObj(map["title" := JStr(title), "price" := p, "url" := JStr("#")])
    case None => JObj(map["title" := JStr(title), "url" := JStr("#")])
  }

  /** The three entries, or `None` for the TypeError of converting the name or the price. */
  function ListingLinks(itemName: Option<Json>, averagePrice: Option<Json>): Option<seq<Json>> {
    match (TemplateString(itemName), ScaledPrice(averagePrice, 11), ScaledPrice(averagePrice, 9))
    case (Some(name), Some(up), Some(down)) =>
      Some([ Listing(name + UsedSuffix, averagePrice),
             Listing(name + GoodConditionSuffix, Some(up)),
             Listing(name + ForSaleSuffix, Some(down)) ])
    case _ => None
  }

  /** The success body: the parsed object with `listingLinks` replaced by three entries (the item
      name with each of the three suffixes, priced at the average and at it times 1.1 and 0.9, rounded), or
      `None` when building them throws. */
  function Enrich(fields: map<string, Json>): (r: Option<map<string, Json>>)
    ensures r.None? <==> Throws(Get(JObj(fields), "itemName")) || Throws(Get(JObj(fields), "averagePrice"))
    ensures r.Some? ==> r.value.Keys == fields.Keys + {"listingLinks"}
    ensures r.Some? ==> forall k :: k in fields && k != "listingLinks" ==> r.value[k] == fields[k]
    ensures r.Some? ==> r.value["listingLinks"].JArr? && |r.value["listingLinks"].items| == 3
    ensures r.Some? ==> forall i :: 0 <= i < 3 ==>
      var link := r.value["listingLinks"].items[i];
      link.JObj? && "url" in link.fields && link.fields["url"] == JStr("#") && "title" in link.fields
    ensures r.Some? ==>
      var name := TemplateString(Get(JObj(fields), "itemName")).value;
      var ls := r.value["listingLinks"].items;
      && ls[0].fields["title"] == JStr(name + UsedSuffix)
      && ls[1].fields["title"] == JStr(name + GoodConditionSuffix)
      && ls[2].fields["title"] == JStr(name + ForSaleSuffix)
    ensures r.Some? ==>
      var avg := Get(JObj(fields), "averagePrice");
      var ls := r.value["listingLinks"].items;
      && "price" in ls[1].fields && ls[1].fields["price"] == ScaledPrice(avg, 11).value
      && "price" in ls[2].fields && ls[2].fields["price"] == ScaledPrice(avg, 9).value
    ensures r.Some? ==> var first := r.value["listingLinks"].items[0];
      first.JObj? &&
      ("price" in first.fields <==> "averagePrice" in fields) &&
      ("averagePrice" in fields ==> first.fields["price"] == fields["averagePrice"])
  {
    match ListingLinks(Get(JObj(fields), "itemName"), Get(JObj(fields), "averagePrice"))
    case None => None
    case Some(links) => Some(fields["listingLinks" := JArr(links)])
  }

  /** After the parse: the sentinel check and the `listingLinks` assignment. */
  function Finish(parsed: Json): Response {
    match parsed
    case JNull => Throw(ReadErrorOfNull)
    case JObj(fields) =>
      if Get(parsed, "error") == Some(JStr(NotSellable)) then Response(400, Some(parsed))
      else
        (match Enrich(fields)
         case None => Throw(ConvertToPrimitive)
         case Some(enriched) => Response(200, Some(JObj(enriched))))
    case JArr(_) => Response(200, Some(parsed))
    case _ => Throw(CreatePropertyOnPrimitive)
  }

  /** `data.choices?.[0]?.message?.content`, for `data` not `null`. */
  function Content(data: Json): Option<Json> {
    Member(Member(First(Get(data, "choices")), "message"), "content")
  }

  /** The part of `HandleReply` after a 2xx reply whose body is JSON. */
  function FromData(data: Json, parse: string -> Option<Json>): Response {
    if data == JNull then Throw(ReadChoicesOfNull)
    else
      var content := Content(data);
      if !Truthy(content) then Throw(NoContent)
      else
        match ParseContent(content.value, parse)
        case None => Throw(ParseFailed)
        case Some(parsed) => Finish(parsed)
  }

  /** Everything from the gateway's reply to the returned response. */
  function HandleReply(reply: FetchOutcome, parse: string -> Option<Json>): Response {
    match reply
    case Rejected(message) => Throw(message)
    case Reply(status, body) =>
      if !(200 <= status <= 299) then
        if status == 429 then Response(429, Some(ErrorBody(RateLimited)))
        else if status == 402 then Response(402, Some(ErrorBody(PaymentRequired)))
        else Throw("AI gateway error: " + DecimalString(status))
      else
        match body
        case Failure(message) => Throw(message)
        case Success(data) => FromData(data, parse)
  }

  /** The `serve` handler. */
  function Handle(req: Request, apiKey: Option<string>, fetch: GatewayRequest -> FetchOutcome,
                  parse: string -> Option<Json>): Outcome
  {
    if req.httpMethod == "OPTIONS" then Outcome(Response(200, None), None)
    else
      match req.body
      case Failure(message) => Outcome(Throw(message), None)
      case Success(body) =>
        if body == JNull then Outcome(Throw(DestructureNull), None)
        else
          var image := Get(body, "imageBase64");
          if !Truthy(image) then Outcome(Response(400, Some(ErrorBody(ImageRequired))), None)
          else if apiKey.None? || apiKey.value == "" then Outcome(Throw(KeyMissing), None)
          else
            var governorate := TemplateString(Get(body, "governorate"));
            if governorate.None? then Outcome(Throw(ConvertToPrimitive), None)
            else if !image.value.JStr? then Outcome(Throw(StartsWithMissing), None)
            else
              var call := GatewayRequest(ToDataUrl(image.value.s), governorate.value, apiKey.value);
              Outcome(HandleReply(fetch(call), parse), Some(call))
  }

  // ---------------------------------------------------------------------------
  // Properties of the handler

  /** No fence starts at any index in [from, to). */
  predicate NoFenceIn(content: string, from: int, to: int) {
    forall k :: from <= k < to ==> !OccursAt(content, Fence, k)
  }

  /** Content without a fence is parsed whole. */
  lemma UnfencedContentParsedWhole(content: string)
    requires !Contains(content, Fence)
    ensures FencedText(content) == content
  {
    IndexOfFirst(content, Fence, 0);
  }

  /** A fence that is opened and never closed, as in a truncated reply, does not match either:
      the whole content is parsed. */
  lemma {:induction false} UnclosedFenceParsedWhole(content: string, i: nat)
    requires i + |Fence| <= |content| && OccursAt(content, Fence, i)
    requires NoFenceIn(content, 0, i)
    requires NoFenceIn(content, i + |Fence|, |content|)
    ensures FencedText(content) == content
  {
    FirstFenceAt(content, 0, i);
    var start := if StartsWith(content[i + |Fence|..], "json") then i + |Fence| + 4 else i + |Fence|;
    IndexOfFirst(content, Fence, start);
  }

  /** The first fence at or after `from` is at `i` when `i` holds one and none starts
      between `from` and `i`. */
  lemma {:induction false} FirstFenceAt(content: string, from: nat, i: nat)
    requires from <= i && OccursAt(content, Fence, i)
    requires NoFenceIn(content, from, i)
    ensures IndexOf(content, Fence, from) == Some(i)
  {
    IndexOfFirst(content, Fence, from);
  }

  /** The first fenced block's inner text is what gets parsed, whatever follows the block.
      The block is the first one when no fence starts before it, its inside ends at the first
      fence after the tag, and an untagged block does not start with "json". Backticks
      elsewhere (single or double, before the block or inside it) are allowed. */
  lemma {:induction false} FencedBlockExtracted(content: string, i: nat, tag: string, body: string)
    requires i <= |content| && StartsWith(content[i..], Fence + tag + body + Fence)
    requires tag == "json" || (tag == "" && !StartsWith(body, "json"))
    requires NoFenceIn(content, 0, i)
    requires NoFenceIn(content, i + |Fence| + |tag|, i + |Fence| + |tag| + |body|)
    ensures FencedText(content) == body
  {
    BlockFound(content, i, tag, body);
    FencedTextAt(content, i, i + |Fence| + |tag|, i + |Fence| + |tag| + |body|);
  }

  /** The fences `FencedText` finds in such content are the block's own. */
  lemma BlockFound(content: string, i: nat, tag: string, body: string)
    requires i <= |content| && StartsWith(content[i..], Fence + tag + body + Fence)
    requires tag == "json" || (tag == "" && !StartsWith(body, "json"))
    requires NoFenceIn(content, 0, i)
    requires NoFenceIn(content, i + |Fence| + |tag|, i + |Fence| + |tag| + |body|)
    ensures IndexOf(content, Fence, 0) == Some(i)
    ensures i + |Fence| + |tag| == if StartsWith(content[i + |Fence|..], "json") then i + |Fence| + 4 else i + |Fence|
    ensures IndexOf(content, Fence, i + |Fence| + |tag|) == Some(i + |Fence| + |tag| + |body|)
    ensures content[i + |Fence| + |tag|..i + |Fence| + |tag| + |body|] == body
  {
    BlockPieces(content, i, tag, body);
    FirstFenceAt(content, 0, i);
    FirstFenceAt(content, i + |Fence| + |tag|, i + |Fence| + |tag| + |body|);
  }

  /** `FencedText` once the opening fence, the start of the capture and the closing fence
      are located. */
  lemma FencedTextAt(content: string, i: nat, start: nat, j: nat)
    requires IndexOf(content, Fence, 0) == Some(i)
    requires start == if StartsWith(content[i + |Fence|..], "json") then i + |Fence| + 4 else i + |Fence|
    requires IndexOf(content, Fence, start) == Some(j)
    ensures start <= j <= |content| && FencedText(content) == content[start..j]
  {
  }

  /** Where the pieces of a fenced block lie in the content. */
  lemma BlockPieces(content: string, i: nat, tag: string, body: string)
    requires i <= |content| && StartsWith(content[i..], Fence + tag + body + Fence)
    requires tag == "json" || (tag == "" && !StartsWith(body, "json"))
    ensures OccursAt(content, Fence, i)
    ensures StartsWith(content[i + |Fence|..], "json") <==> tag == "json"
    ensures content[i + |Fence| + |tag|..i + |Fence| + |tag| + |body|] == body
    ensures OccursAt(content, Fence, i + |Fence| + |tag| + |body|)
  {
    var block := Fence + tag + body + Fence;
    var start := i + |Fence| + |tag|;
    var j := start + |body|;
    forall k | 0 <= k < |block| ensures content[i + k] == block[k] {
      assert content[i..][..|block|][k] == block[k];
    }
    forall k | 0 <= k < |Fence| ensures content[i..i + |Fence|][k] == Fence[k] {
      assert content[i + k] == block[k];
    }
    forall k | 0 <= k < |body| ensures content[start..j][k] == body[k] {
      assert content[i + |Fence| + |tag| + k] == block[|Fence| + |tag| + k];
    }
    forall k | 0 <= k < |Fence| ensures content[j..j + |Fence|][k] == Fence[k] {
      assert content[i + |Fence| + |tag| + |body| + k] == block[|Fence| + |tag| + |body| + k];
    }
    TagSkipped(content, i, tag, body);
  }

  /** After the opening fence, "json" is skipped exactly when it is the tag. */
  lemma TagSkipped(content: string, i: nat, tag: string, body: string)
    requires tag == "json" || (tag == "" && !StartsWith(body, "json"))
    requires var block := Fence + tag + body + Fence;
      i + |block| <= |content| && forall k :: 0 <= k < |block| ==> content[i + k] == block[k]
    ensures StartsWith(content[i + |Fence|..], "json") <==> tag == "json"
  {
    var block := Fence + tag + body + Fence;
    var after := content[i + |Fence|..];
    if tag == "json" {
      forall k | 0 <= k < 4 ensures after[..4][k] == "json"[k] {
        assert content[i + 3 + k] == block[3 + k];
      }
    } else if |body| >= 4 {
      assert after[..4] != "json" by {
        var k :| 0 <= k < 4 && body[k] != "json"[k];
        assert content[i + 3 + k] == block[3 + k];
      }
    } else {
      assert content[i + 3 + |body|] == block[3 + |body|] == '`';
      assert |after| >= 4 ==> after[..4][|body|] == '`';
    }
  }

  /** A backtick before the block, which is no fence, does not hide the block. */
  lemma BacktickBeforeBlock()
    ensures FencedText("`x` ```json{}```") == "{}"
  {
    var content := "`x` ```json{}```";
    assert content[1] == 'x' && content[3] == ' ' && content[12] == '}';
    forall k | 0 <= k < 4 ensures !OccursAt(content, Fence, k) {
      var m := if k <= 1 then 1 - k else 3 - k;
      assert content[k..k + 3][m] != Fence[m];
    }
    forall k | 11 <= k < 13 ensures !OccursAt(content, Fence, k) {
      assert content[k..k + 3][12 - k] != Fence[12 - k];
    }
    assert content[4..] == Fence + "json" + "{}" + Fence;
    FencedBlockExtracted(content, 4, "json", "{}");
  }

  /** A missing or empty image is a 400 'Image is required', and the gateway is not called. */
  lemma MissingImageRejected(req: Request, apiKey: Option<string>, fetch: GatewayRequest -> FetchOutcome,
                             parse: string -> Option<Json>)
    requires req.httpMethod != "OPTIONS" && req.body.Success? && req.body.value != JNull
    requires !Truthy(Get(req.body.value, "imageBase64"))
    ensures Handle(req, apiKey, fetch, parse) == Outcome(Response(400, Some(ErrorBody(ImageRequired))), None)
  {
  }

  /** The gateway is called exactly when the request passed validation and the governorate
      converts to text, and then with the normalised image, the governorate's text and the
      configured key. */
  lemma GatewayCalledOnlyWhenValid(req: Request, apiKey: Option<string>, fetch: GatewayRequest -> FetchOutcome,
                                   parse: string -> Option<Json>)
    ensures var out := Handle(req, apiKey, fetch, parse);
      out.gatewayCall.Some? <==>
        && req.httpMethod != "OPTIONS" && req.body.Success? && req.body.value != JNull
        && Truthy(Get(req.body.value, "imageBase64")) && Get(req.body.value, "imageBase64").value.JStr?
        && apiKey.Some? && apiKey.value != "" && !Throws(Get(req.body.value, "governorate"))
    ensures var out := Handle(req, apiKey, fetch, parse);
      out.gatewayCall.Some? ==>
        && out.gatewayCall.value.imageUrl == ToDataUrl(Get(req.body.value, "imageBase64").value.s)
        && out.gatewayCall.value.governorate == TemplateString(Get(req.body.value, "governorate")).value
        && out.gatewayCall.value.apiKey == apiKey.value
        && out.response == HandleReply(fetch(out.gatewayCall.value), parse)
  {
  }

  /** A governorate whose conversion throws fails the prompt's template before the gateway is
      called: a 500 with the TypeError's message. */
  lemma UnconvertibleGovernorateRejected(req: Request, apiKey: Option<string>, fetch: GatewayRequest -> FetchOutcome,
                                         parse: string -> Option<Json>)
    requires req.httpMethod != "OPTIONS" && req.body.Success? && req.body.value != JNull
    requires Truthy(Get(req.body.value, "imageBase64")) && apiKey.Some? && apiKey.value != ""
    requires Throws(Get(req.body.value, "governorate"))
    ensures Handle(req, apiKey, fetch, parse) == Outcome(Response(500, Some(ErrorBody(ConvertToPrimitive))), None)
  {
  }

  /** Gateway statuses: 429 and 402 pass through with their fixed messages, any other non-2xx
      status is a 500 naming it. */
  lemma GatewayStatusMapped(status: int, body: Result<Json, string>, parse: string -> Option<Json>)
    requires !(200 <= status <= 299)
    ensures var r := HandleReply(Reply(status, body), parse);
      && (status == 429 ==> r == Response(429, Some(ErrorBody(RateLimited))))
      && (status == 402 ==> r == Response(402, Some(ErrorBody(PaymentRequired))))
      && (status != 429 && status != 402 ==>
            r == Response(500, Some(ErrorBody("AI gateway error: " + DecimalString(status)))))
  {
  }

  /** A reply with no usable content is a 500 'No content in AI response'; content that does
      not parse is a 500 'Failed to parse AI response'. */
  lemma ContentFailures(status: int, data: Json, parse: string -> Option<Json>)
    requires 200 <= status <= 299 && data != JNull
    ensures !Truthy(Content(data)) ==>
      HandleReply(Reply(status, Success(data)), parse) == Response(500, Some(ErrorBody(NoContent)))
    ensures Truthy(Content(data)) && ParseContent(Content(data).value, parse).None? ==>
      HandleReply(Reply(status, Success(data)), parse) == Response(500, Some(ErrorBody(ParseFailed)))
  {
  }

  /** The non-sellable sentinel comes back with status 400 and exactly the parsed object. */
  lemma SentinelPassedThrough(status: int, data: Json, content: string, parse: string -> Option<Json>)
    requires 200 <= status <= 299 && data != JNull && Content(data) == Some(JStr(content)) && content != ""
    requires var parsed := parse(Trim(FencedText(content)));
      parsed.Some? && parsed.value.JObj? && Get(parsed.value, "error") == Some(JStr(NotSellable))
    ensures HandleReply(Reply(status, Success(data)), parse) ==
      Response(400, parse(Trim(FencedText(content))))
  {
    ParsedContentFinished(data, content, parse);
  }

  /** Any other parsed object comes back with status 200 and `listingLinks` replaced by the
      three entries, every other field being the parsed one; unless its `itemName` or
      `averagePrice` cannot be converted, which is a 500 with the TypeError's message. */
  lemma SuccessEnriched(status: int, data: Json, content: string, parse: string -> Option<Json>)
    requires 200 <= status <= 299 && data != JNull && Content(data) == Some(JStr(content)) && content != ""
    requires var parsed := parse(Trim(FencedText(content)));
      parsed.Some? && parsed.value.JObj? && Get(parsed.value, "error") != Some(JStr(NotSellable))
    ensures var parsed := parse(Trim(FencedText(content))).value;
      var r := HandleReply(Reply(status, Success(data)), parse);
      var converts := !Throws(Get(parsed, "itemName")) && !Throws(Get(parsed, "averagePrice"));
      && (converts ==>
            && r.status == 200 && r.body.Some? && r.body.value.JObj?
            && r.body.value.fields == Enrich(parsed.fields).value
            && r.body.value.fields["listingLinks"] ==
                 JArr(ListingLinks(Get(parsed, "itemName"), Get(parsed, "averagePrice")).value))
      && (!converts ==> r == Response(500, Some(ErrorBody(ConvertToPrimitive))))
  {
    var parsed := parse(Trim(FencedText(content))).value;
    ParsedContentFinished(data, content, parse);
    EnrichedFinish(parsed);
  }

  /** A 2xx reply whose content is a non-empty string that parses ends in `Finish`. */
  lemma ParsedContentFinished(data: Json, content: string, parse: string -> Option<Json>)
    requires data != JNull && Content(data) == Some(JStr(content)) && content != ""
    requires parse(Trim(FencedText(content))).Some?
    ensures FromData(data, parse) == Finish(parse(Trim(FencedText(content))).value)
  {
  }

  /** `Finish` on an object other than the sentinel: 200 with the enriched fields, or 500
      when the name or the price cannot be converted. */
  lemma EnrichedFinish(parsed: Json)
    requires parsed.JObj? && Get(parsed, "error") != Some(JStr(NotSellable))
    ensures var converts := !Throws(Get(parsed, "itemName")) && !Throws(Get(parsed, "averagePrice"));
      && (converts ==>
            && Finish(parsed) == Response(200, Some(JObj(Enrich(parsed.fields).value)))
            && Enrich(parsed.fields).value["listingLinks"] ==
                 JArr(ListingLinks(Get(parsed, "itemName"), Get(parsed, "averagePrice")).value))
      && (!converts ==> Finish(parsed) == Throw(ConvertToPrimitive))
  {
  }

  /** `{error: <text>}` and nothing else. */
  predicate IsErrorBody(body: Option<Json>) {
    body.Some? && body.value.JObj? && body.value.fields.Keys == {"error"} && body.value.fields["error"].JStr?
  }

  lemma ErrorBodyShape(message: string)
    ensures IsErrorBody(Some(ErrorBody(message)))
  {
    assert ErrorBody(message).fields.Keys == {"error"};
  }

  /** Every response of the handler has one of five statuses, and every 500 carries
      `{error: message}`. */
  lemma {:induction false} ResponseShapes(req: Request, apiKey: Option<string>, fetch: GatewayRequest -> FetchOutcome,
                                          parse: string -> Option<Json>)
    ensures var r := Handle(req, apiKey, fetch, parse).response;
      r.status in {200, 400, 402, 429, 500} && (r.status == 500 ==> IsErrorBody(r.body))
  {
    if req.httpMethod != "OPTIONS" && req.body.Success? && req.body.value != JNull {
      var image := Get(req.body.value, "imageBase64");
      if !Truthy(image) {
        ErrorBodyShape(ImageRequired);
      } else if apiKey.None? || apiKey.value == "" {
        ErrorBodyShape(KeyMissing);
      } else if TemplateString(Get(req.body.value, "governorate")).None? {
        ErrorBodyShape(ConvertToPrimitive);
      } else if !image.value.JStr? {
        ErrorBodyShape(StartsWithMissing);
      } else {
        var governorate := TemplateString(Get(req.body.value, "governorate")).value;
        var call := GatewayRequest(ToDataUrl(image.value.s), governorate, apiKey.value);
        ReplyShapes(fetch(call), parse);
      }
    } else if req.httpMethod != "OPTIONS" && req.body.Failure? {
      ErrorBodyShape(req.body.error);
    } else if req.httpMethod != "OPTIONS" {
      ErrorBodyShape(DestructureNull);
    }
  }

  lemma {:induction false} ReplyShapes(reply: FetchOutcome, parse: string -> Option<Json>)
    ensures var r := HandleReply(reply, parse);
      r.status in {200, 400, 402, 429, 500} && (r.status == 500 ==> IsErrorBody(r.body))
  {
    match reply
    case Rejected(message) =>
      ErrorBodyShape(message);
    case Reply(status, body) =>
      if !(200 <= status <= 299) {
        ErrorBodyShape("AI gateway error: " + DecimalString(status));
      } else if body.Failure? {
        ErrorBodyShape(body.error);
      } else {
        DataShape(body.value, parse);
      }
  }

  lemma {:induction false} DataShape(data: Json, parse: string -> Option<Json>)
    ensures var r := FromData(data, parse);
      r.status in {200, 400, 500} && (r.status == 500 ==> IsErrorBody(r.body))
  {
    if data == JNull {
      ErrorBodyShape(ReadChoicesOfNull);
    } else if !Truthy(Content(data)) {
      ErrorBodyShape(NoContent);
    } else {
      match ParseContent(Content(data).value, parse)
      case None => ErrorBodyShape(ParseFailed);
      case Some(parsed) => FinishShape(parsed);
    }
  }

  lemma FinishShape(parsed: Json)
    ensures var r := Finish(parsed);
      r.status in {200, 400, 500} && (r.status == 500 ==> IsErrorBody(r.body))
  {
    ErrorBodyShape(ReadErrorOfNull);
    ErrorBodyShape(CreatePropertyOnPrimitive);
    ErrorBodyShape(ConvertToPrimitive);
  }
}
