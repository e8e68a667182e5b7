/** The cloud backend adapter: a credential check, a connectivity probe that
    installs a fixed model catalog, and one chat-completion request with its
    loading/error bookkeeping. */
module GroqApi {
  import opened Wrappers
  import opened ChatTypes
  import opened Backend
  import Text

  const PlaceholderKey := "your_groq_api_key_here"
  const MissingKeyNotice := "API Key Groq belum diatur. Silakan tambahkan VITE_GROQ_API_KEY di file .env"
  const ConnectionFailedNotice := "Tidak dapat terhubung ke Groq API. Periksa koneksi internet dan API key Anda."
  const MissingKeyError := "API Key Groq belum diatur"
  const NotConnectedError := "Tidak terhubung ke Groq API"
  const MaxTokens: nat := 1024
  const Temperature: real := 0.7

  /** The models offered once the probe succeeds. */
  const AvailableModels: seq<AIModel> := [
    AIModel("Llama 3 8B", "llama3-8b-8192", Some("Fast and efficient for general tasks")),
    AIModel("Llama 3 70B", "llama3-70b-8192", Some("More capable, better for complex tasks")),
    AIModel("Mixtral 8x7B", "mixtral-8x7b-32768", Some("Great for coding and analysis")),
    AIModel("Gemma 7B", "gemma-7b-it", Some("Google's efficient model"))
  ]

  /** A usable credential: present, non-empty and not the template placeholder. */
  function KeyConfigured(apiKey: Option<string>): (r: bool)
    ensures apiKey.None? ==> !r
    ensures apiKey == Some("") ==> !r
    ensures apiKey == Some(PlaceholderKey) ==> !r
    ensures apiKey.Some? && apiKey.value != "" && apiKey.value != PlaceholderKey ==> r
  {
    apiKey.Some? && apiKey.value != "" && apiKey.value != PlaceholderKey
  }

  /** The fixed catalog offers four models with distinct identifiers, each
      with a description; the first, the page's default, is Llama 3 8B. */
  lemma AvailableModelsCatalog()
    ensures |AvailableModels| == 4
    ensures forall i, j :: 0 <= i < j < |AvailableModels| ==> AvailableModels[i].id != AvailableModels[j].id
    ensures forall i :: 0 <= i < |AvailableModels| ==> AvailableModels[i].description.Some?
    ensures AvailableModels[0].id == "llama3-8b-8192"
  {
  }

  /** The body of a completion request for `messages` and `model`. */
  function CompletionRequest(messages: seq<Message>, model: string): (r: ChatRequest)
    ensures r.model == model && r.maxTokens == Some(MaxTokens) && r.temperature == Some(Temperature)
    ensures |r.messages| == |messages|
    ensures forall i :: 0 <= i < |messages| ==>
      r.messages[i] == ChatMessage(messages[i].role, messages[i].content)
  {
    ChatRequest(model, Project(messages), Some(MaxTokens), Some(Temperature))
  }

  /** The error text for a non-2xx completion response: the provider's
      `error.message` when it is present and non-empty, else the status text. */
  function ResponseErrorText(status: nat, providerMessage: Option<string>): (r: string)
    ensures providerMessage.Some? && providerMessage.value != "" ==> r == providerMessage.value
    ensures providerMessage.None? || providerMessage.value == "" ==> r == HttpStatusError(status)
  {
    if providerMessage.Some? && providerMessage.value != "" then providerMessage.value
    else HttpStatusError(status)
  }

  /** How a completion request settles: the first choice's content (or the
      fallback) on success, else the rejection text that the catch block
      records and rethrows. */
  function Settle(response: Outcome<Option<string>>): (r: Result<string, string>)
    ensures r.Success? <==> response.Ok?
    ensures r.Success? ==> r.value != ""
    ensures response.Ok? ==> r.value == ReplyOrFallback(response.body)
    ensures response.NotOk? ==> r.error == ResponseErrorText(response.status, response.errorMessage)
    ensures response.Threw? ==> r.error == CaughtMessage(response.thrown)
  {
    match response
    case Ok(content) => Success(ReplyOrFallback(content))
    case NotOk(status, m) => Failure(ResponseErrorText(status, m))
    case Threw(t) => Failure(CaughtMessage(t))
  }

  /** A reply of `hi` resolves to exactly `hi`; an HTTP 500 with an empty body
      rejects with the status-bearing message. */
  lemma SettleScenarios()
    ensures Settle(Ok(Some("hi"))) == Success("hi")
    ensures Settle(NotOk(500, None)) == Failure("HTTP error! status: 500")
  {
    assert Text.NatToString(5) == "5";
    assert Text.NatToString(50) == "50";
    assert Text.NatToString(500) == "500";
    assert HttpStatusError(500) == "HTTP error! status: 500";
  }

  /** The adapter's state: the offered models, the in-flight flag, the last
      error and the connectivity flag; the credential is read once. */
  class GroqClient {
    const apiKey: Option<string>
    var models: seq<AIModel>
    var isLoading: bool
    var error: Option<string>
    var isConnected: bool

    constructor (apiKey: Option<string>)
      ensures this.apiKey == apiKey
      ensures models == [] && !isLoading && error.None? && !isConnected
    {
      this.apiKey := apiKey;
      models, isLoading, error, isConnected := [], false, None, false;
    }

    /** `checkConnection`: without a usable credential no probe is made;
        otherwise the probe's outcome decides. `probed` says whether the probe
        request was issued. */
    method CheckConnection(probe: Outcome<()>) returns (probed: bool)
      modifies this
      ensures probed == KeyConfigured(apiKey)
      ensures isLoading == old(isLoading)
      ensures !probed ==> !isConnected && error == Some(MissingKeyNotice) && models == old(models)
      ensures probed && probe.Ok? ==> isConnected && models == AvailableModels && error.None?
      ensures probed && !probe.Ok? ==>
        !isConnected && error == Some(ConnectionFailedNotice) && models == old(models)
    {
      if !KeyConfigured(apiKey) {
        isConnected := false;
        error := Some(MissingKeyNotice);
        return false;
      }
      probed := true;
      if probe.Ok? {
        isConnected := true;
        models := AvailableModels;
        error := None;
      } else {
        isConnected := false;
        error := Some(ConnectionFailedNotice);
      }
    }

    /** The part of `sendMessage` before the request is awaited: the guards,
        then `isLoading := true`, `error := null` and the request body. A guard
        that fails rejects without a request and without touching the state. */
    method BeginSend(messages: seq<Message>, selectedModel: string) returns (r: Result<ChatRequest, string>)
      modifies this
      ensures r.Success? <==> KeyConfigured(apiKey) && old(isConnected)
      ensures !KeyConfigured(apiKey) ==> r == Failure(MissingKeyError)
      ensures KeyConfigured(apiKey) && !old(isConnected) ==> r == Failure(NotConnectedError)
      ensures r.Failure? ==> unchanged(this)
      ensures r.Success? ==> r.value == CompletionRequest(messages, selectedModel)
      ensures r.Success? ==> isLoading && error.None? && models == old(models) && isConnected
    {
      if !KeyConfigured(apiKey) {
        return Failure(MissingKeyError);
      }
      if !isConnected {
        return Failure(NotConnectedError);
      }
      isLoading := true;
      error := None;
      r := Success(CompletionRequest(messages, selectedModel));
    }

    /** The part of `sendMessage` after the response arrives: the catch block
        records the rejection text, and the finally block clears `isLoading`
        on every path. */
    method FinishSend(response: Outcome<Option<string>>) returns (reply: Result<string, string>)
      requires isLoading
      modifies this
      ensures reply == Settle(response)
      ensures !isLoading
      ensures error == (if reply.Failure? then Some(reply.error) else old(error))
      ensures models == old(models) && isConnected == old(isConnected)
    {
      reply := Settle(response);
      if reply.Failure? {
        error := Some(reply.error);
      }
      isLoading := false;
    }

    /** `sendMessage(messages, selectedModel)` against a given response: the
        request issued (if any) and how the call settles. */
    method SendMessage(messages: seq<Message>, selectedModel: string, response: Outcome<Option<string>>)
      returns (request: Option<ChatRequest>, reply: Result<string, string>)
      modifies this
      ensures request.Some? <==> KeyConfigured(apiKey) && old(isConnected)
      ensures request.None? ==>
        reply == Failure(if !KeyConfigured(apiKey) then MissingKeyError else NotConnectedError) && unchanged(this)
      ensures request.Some? ==> request.value == CompletionRequest(messages, selectedModel)
      ensures request.Some? ==> reply == Settle(response)
      ensures request.Some? ==> !isLoading && error == (if reply.Failure? then Some(reply.error) else None)
      ensures models == old(models) && isConnected == old(isConnected)
    {
      var begun := BeginSend(messages, selectedModel);
      if begun.Failure? {
        return None, Failure(begun.error);
      }
      request := Some(begun.value);
      reply := FinishSend(response);
    }
  }
}
