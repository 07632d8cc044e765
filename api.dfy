/** The conversion orchestrator (`ApiService`) and the OpenAI-backed
    provider (`OpenAIProvider`): one image in, one markup document or one
    failure message out. The hosted completion endpoint is an oracle
    `Network` from request to reply. */
module Api {
  import opened Wrappers
  import opened JsText
  import opened Preferences

  /** `ConversionResponse`: a success flag with an optional document and an
      optional error message. */
  datatype ConversionResponse = ConversionResponse(success: bool, teiXml: Option<string>, error: Option<string>)

  /** Exactly one of `teiXml` and `error` is present, as `success` says. */
  predicate WellShaped(r: ConversionResponse)
  {
    if r.success then r.teiXml.Some? && r.error.None? else r.error.Some? && r.teiXml.None?
  }

  function Succeeded(teiXml: string): (r: ConversionResponse)
    ensures WellShaped(r) && r.success
  {
    ConversionResponse(true, Some(teiXml), None)
  }

  function Failed(message: string): (r: ConversionResponse)
    ensures WellShaped(r) && !r.success
  {
    ConversionResponse(false, None, Some(message))
  }

  // ----- The request the provider sends -----

  const BASE64_MARKER := "base64,"
  const JPEG_DATA_URL_PREFIX := "data:image/jpeg;base64,"
  const MODEL := "gpt-4o-mini"
  const MAX_TOKENS: nat := 4096
  const USER_ROLE := "user"
  const IMAGE_DETAIL := "high"
  const PROMPT := "Convert this image to TEI/XML format following P5 Guidelines.\n                       Focus on accurately capturing text content and structure.\n                       Ensure valid TEI markup and include basic metadata."
  const NO_CONTENT_MESSAGE := "No TEI/XML content received from API"

  datatype ContentPart = TextPart(text: string) | ImageUrlPart(url: string, detail: string)
  datatype ChatMessage = ChatMessage(role: string, content: seq<ContentPart>)
  /** A chat-completion request; `apiKey` is the credential the client
      object was built with. */
  datatype ChatRequest = ChatRequest(apiKey: string, model: string, messages: seq<ChatMessage>, maxTokens: nat)

  /** One completion choice; `content` is `None` when the choice has no
      message or the message's content is null. */
  datatype Choice = Choice(content: Option<string>)
  datatype Completion = Completion(choices: seq<Choice>)

  /** The endpoint: a request either faults (network, authentication, rate
      limit, a rejected client) or completes. */
  type Network = ChatRequest -> Result<Completion, Fault>

  /** The image payload sent: when the input contains `base64,` the text
      `split('base64,')[1]` picks out, otherwise the input itself. */
  function Base64Payload(imageDataUrl: string): (payload: string)
    ensures !Includes(imageDataUrl, BASE64_MARKER) ==> payload == imageDataUrl
    ensures Includes(imageDataUrl, BASE64_MARKER) ==>
      var i := IndexOf(imageDataUrl, BASE64_MARKER).value;
      var rest := imageDataUrl[i + |BASE64_MARKER|..];
      && payload <= rest
      && !Includes(payload, BASE64_MARKER)
      && (payload == rest || OccursAt(rest, BASE64_MARKER, |payload|))
  {
    if Includes(imageDataUrl, BASE64_MARKER) then
      var parts := Split(imageDataUrl, BASE64_MARKER);
      var i := IndexOf(imageDataUrl, BASE64_MARKER).value;
      assert parts[1..] == Split(imageDataUrl[i + |BASE64_MARKER|..], BASE64_MARKER);
      parts[1]
    else
      imageDataUrl
  }

  function ImageUrl(payload: string): string
  {
    JPEG_DATA_URL_PREFIX + payload
  }

  /** The request `OpenAIProvider` builds: one user message holding the
      fixed prompt and the re-wrapped image, with the fixed token ceiling. */
  function BuildRequest(imageDataUrl: string, apiKey: string): (q: ChatRequest)
    ensures q.apiKey == apiKey && q.model == MODEL && q.maxTokens == MAX_TOKENS
    ensures |q.messages| == 1 && q.messages[0].role == USER_ROLE
    ensures |q.messages[0].content| == 2
    ensures q.messages[0].content[0] == TextPart(PROMPT)
    ensures q.messages[0].content[1] == ImageUrlPart(ImageUrl(Base64Payload(imageDataUrl)), IMAGE_DETAIL)
  {
    ChatRequest(apiKey, MODEL,
      [ChatMessage(USER_ROLE, [TextPart(PROMPT), ImageUrlPart(ImageUrl(Base64Payload(imageDataUrl)), IMAGE_DETAIL)])],
      MAX_TOKENS)
  }

  /** `completion.choices[0]?.message?.content`. */
  function FirstContent(c: Completion): Option<string>
  {
    if |c.choices| == 0 then None else c.choices[0].content
  }

  /** How the provider turns the endpoint's reply into a response: a fault
      gives its message, a missing or empty first content gives the
      no-content error, anything else is the document. */
  function ResponseFromReply(reply: Result<Completion, Fault>): (r: ConversionResponse)
    ensures WellShaped(r)
    ensures r.success <==> reply.Ok? && FirstContent(reply.value).Some? && FirstContent(reply.value).value != ""
    ensures r.success ==> r.teiXml == FirstContent(reply.value)
    ensures reply.Err? ==> r == Failed(FaultMessage(reply.error))
    ensures reply.Err? && reply.error.ErrorObject? ==> r.error == Some(reply.error.message)
    ensures reply.Err? && reply.error.OtherValue? ==> r.error == Some(UNKNOWN_ERROR)
    ensures reply.Ok? && |reply.value.choices| == 0 ==> r == Failed(NO_CONTENT_MESSAGE)
    ensures reply.Ok? && !r.success ==> r == Failed(NO_CONTENT_MESSAGE)
  {
    match reply
    case Err(f) => Failed(FaultMessage(f))
    case Ok(completion) =>
      var teiXml := FirstContent(completion);
      if teiXml.None? || teiXml.value == "" then
        // `throw new Error(...)` caught by the provider's own catch
        Failed(FaultMessage(ErrorObject(NO_CONTENT_MESSAGE)))
      else
        Succeeded(teiXml.value)
  }

  /** `OpenAIProvider.convertImageToTEI`: one request to the endpoint, its
      reply mapped to a response. */
  function OpenAIConvert(network: Network, imageDataUrl: string, apiKey: string): (r: ConversionResponse)
    ensures WellShaped(r)
    ensures var reply := network(BuildRequest(imageDataUrl, apiKey));
      && (r.success <==> reply.Ok? && FirstContent(reply.value).Some? && FirstContent(reply.value).value != "")
      && (r.success ==> r.teiXml == FirstContent(reply.value))
      && (reply.Err? ==> r == Failed(FaultMessage(reply.error)))
      && (reply.Ok? && !r.success ==> r == Failed(NO_CONTENT_MESSAGE))
  {
    ResponseFromReply(network(BuildRequest(imageDataUrl, apiKey)))
  }

  // ----- Providers -----

  /** What calling a provider yields: the promise resolves with a response
      or rejects with a fault. */
  datatype ProviderOutcome = Returned(response: ConversionResponse) | Threw(fault: Fault)

  /** An `AIProvider`: the OpenAI-backed one over an endpoint, or any other
      implementation, given by what it does with an image and a key. */
  datatype AIProvider =
    | OpenAIProvider(network: Network)
    | CustomProvider(convert: (string, string) -> ProviderOutcome)

  function Invoke(p: AIProvider, imageDataUrl: string, apiKey: string): ProviderOutcome
  {
    match p
    case OpenAIProvider(network) => Returned(OpenAIConvert(network, imageDataUrl, apiKey))
    case CustomProvider(convert) => convert(imageDataUrl, apiKey)
  }

  /** The OpenAI provider never rejects, and every response it gives is
      well shaped, whatever the endpoint does. */
  lemma OpenAIProviderNeverThrows(network: Network, imageDataUrl: string, apiKey: string)
    ensures Invoke(OpenAIProvider(network), imageDataUrl, apiKey).Returned?
    ensures WellShaped(Invoke(OpenAIProvider(network), imageDataUrl, apiKey).response)
  {
  }

  /** A data URL of the form `data:image/jpeg;base64,P` whose payload holds
      no further marker is sent exactly as it came in. */
  lemma JpegDataUrlRebuilt(payload: string, apiKey: string)
    requires !Includes(payload, BASE64_MARKER)
    ensures Base64Payload(JPEG_DATA_URL_PREFIX + payload) == payload
    ensures BuildRequest(JPEG_DATA_URL_PREFIX + payload, apiKey).messages[0].content[1].url
              == JPEG_DATA_URL_PREFIX + payload
  {
    var s := JPEG_DATA_URL_PREFIX + payload;
    var at := |JPEG_DATA_URL_PREFIX| - |BASE64_MARKER|;
    assert OccursAt(s, BASE64_MARKER, at) by {
      assert s[at..at + |BASE64_MARKER|] == JPEG_DATA_URL_PREFIX[at..];
    }
    var head := JPEG_DATA_URL_PREFIX[..at];
    assert head == "data:image/jpeg;";
    assert 'b' !in head;
    forall j: nat | j < at ensures !OccursAt(s, BASE64_MARKER, j) {
      assert s[j] == head[j];
    }
    var i := IndexOf(s, BASE64_MARKER).value;
    assert i == at;
    assert s[i + |BASE64_MARKER|..] == payload;
  }

  /** The orchestrator's catch: a rejection becomes a failed response. */
  function Settle(o: ProviderOutcome): ConversionResponse
  {
    match o
    case Returned(response) => response
    case Threw(f) => Failed(FaultMessage(f))
  }

  // ----- The orchestrator -----

  const API_KEY_KEY := "openai_api_key"
  const NO_API_KEY_MESSAGE := "No API key found. Please add your OpenAI API key in Settings."

  /** The credential a fault-free read finds: present only when a
      non-empty string is stored under the credential key (`!value` rejects
      both a missing value and the empty string). */
  function Credential<T>(entries: map<string, Value<T>>): (key: Option<string>)
    ensures key.Some? <==> API_KEY_KEY in entries && entries[API_KEY_KEY].Text? && entries[API_KEY_KEY].s != ""
    ensures key.Some? ==> entries[API_KEY_KEY] == Text(key.value)
  {
    match Lookup(entries, API_KEY_KEY)
    case Some(Text(s)) => if s == "" then None else Some(s)
    case _ => None
  }

  /** Whether `convertImageToTEI` reaches the provider. */
  predicate ReachesProvider<T>(entries: map<string, Value<T>>, readFault: Option<Fault>)
  {
    readFault.None? && Credential(entries).Some?
  }

  /** The response `convertImageToTEI` gives, as a function of the current
      provider, the store and the outcome of the credential read. When no
      credential is read, the result does not depend on the provider at all:
      this, not the `calls` log, is what shows that the provider is not
      consulted without a key. */
  function Orchestrate<T>(p: AIProvider, entries: map<string, Value<T>>, imageDataUrl: string,
                          readFault: Option<Fault>): (r: ConversionResponse)
    ensures readFault.Some? ==> r == Failed(FaultMessage(readFault.value))
    ensures readFault.None? && Credential(entries).None? ==> r == Failed(NO_API_KEY_MESSAGE)
    ensures ReachesProvider(entries, readFault) ==>
      var o := Invoke(p, imageDataUrl, Credential(entries).value);
      && (o.Returned? ==> r == o.response)
      && (o.Threw? ==> r == Failed(FaultMessage(o.fault)))
    ensures ReachesProvider(entries, readFault) && p.OpenAIProvider? ==>
      r == OpenAIConvert(p.network, imageDataUrl, Credential(entries).value)
    ensures p.OpenAIProvider? ==> WellShaped(r)
  {
    if readFault.Some? then Failed(FaultMessage(readFault.value))
    else match Credential(entries)
      case None => Failed(FaultMessage(ErrorObject(NO_API_KEY_MESSAGE)))
      case Some(key) => Settle(Invoke(p, imageDataUrl, key))
  }

  /** Any provider whose results are well shaped keeps the orchestrator's
      results well shaped. */
  lemma OrchestrateWellShaped<T>(p: AIProvider, entries: map<string, Value<T>>, imageDataUrl: string,
                                 readFault: Option<Fault>)
    requires forall img: string, key: string ::
      Invoke(p, img, key).Returned? ==> WellShaped(Invoke(p, img, key).response)
    ensures WellShaped(Orchestrate(p, entries, imageDataUrl, readFault))
  {
  }

  /** One call of a provider, as a spy records it. */
  datatype Invocation = Invocation(imageDataUrl: string, apiKey: string)

  /** `ApiService`: the single swappable provider reference. The source
      keeps it in a static field; here one `ApiService` object stands for
      the class's static state, and its constructor for the field's
      initialiser. `calls` is a ghost log that `ConvertImageToTEI` appends
      to where it invokes the provider, so that how often and with what the
      provider was reached is part of the specification. */
  class ApiService {
    var provider: AIProvider
    ghost var calls: seq<Invocation>

    /** The default provider is the OpenAI one. */
    constructor (network: Network)
      ensures provider == OpenAIProvider(network) && calls == []
    {
      provider := OpenAIProvider(network);
      calls := [];
    }

    /** `setProvider`: later conversions use `newProvider`. */
    method SetProvider(newProvider: AIProvider)
      modifies this`provider
      ensures provider == newProvider
    {
      provider := newProvider;
    }

    /** `getApiKey`: the stored credential, or the missing-key error when
        it is absent or empty; a failed read is re-thrown. */
    static method GetApiKey<T>(prefs: Store<T>, readFault: Option<Fault>) returns (r: Result<string, Fault>)
      ensures readFault.Some? ==> r == Err(readFault.value)
      ensures readFault.None? ==>
        (r.Ok? <==> API_KEY_KEY in prefs.entries && prefs.entries[API_KEY_KEY].Text? && prefs.entries[API_KEY_KEY].s != "")
      ensures r.Ok? ==> prefs.entries[API_KEY_KEY] == Text(r.value) && r.value != ""
      ensures readFault.None? && r.Err? ==> r.error == ErrorObject(NO_API_KEY_MESSAGE)
    {
      var read := prefs.Get(API_KEY_KEY, readFault);
      match read
      case Err(f) =>
        r := Err(f);
      case Ok(value) =>
        match value
        case Some(Text(s)) =>
          if s == "" {
            r := Err(ErrorObject(NO_API_KEY_MESSAGE));
          } else {
            r := Ok(s);
          }
        case _ =>
          r := Err(ErrorObject(NO_API_KEY_MESSAGE));
    }

    /** `convertImageToTEI`: reads the credential and, only when one is
        found, calls the current provider once with the image and that
        credential, passing its response through; every fault becomes a
        failed response. */
    method ConvertImageToTEI<T>(prefs: Store<T>, imageDataUrl: string, readFault: Option<Fault>)
      returns (r: ConversionResponse)
      modifies this`calls
      ensures r == Orchestrate(provider, prefs.entries, imageDataUrl, readFault)
      ensures !ReachesProvider(prefs.entries, readFault) ==> calls == old(calls)
      ensures ReachesProvider(prefs.entries, readFault) ==>
        calls == old(calls) + [Invocation(imageDataUrl, Credential(prefs.entries).value)]
    {
      var key := GetApiKey(prefs, readFault);
      match key
      case Err(f) =>
        r := Failed(FaultMessage(f));
      case Ok(k) =>
        calls := calls + [Invocation(imageDataUrl, k)];
        r := Settle(Invoke(provider, imageDataUrl, k));
    }
  }
}
