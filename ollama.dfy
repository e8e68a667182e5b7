/** The local-server backend adapter: an unauthenticated version probe, a
    model-listing query, and one non-streaming chat request with its
    loading/error bookkeeping. */
module OllamaApi {
  import opened Wrappers
  import opened ChatTypes
  import opened Backend

  const UnreachableNotice := "Tidak dapat terhubung ke Ollama. Pastikan Ollama berjalan di localhost:11434"
  const ModelListNotice := "Gagal mengambil daftar model"
  const NotConnectedError := "Tidak terhubung ke Ollama"

  /** A model as the local server lists it; the record is not declared among
      the shared chat types, so its fields are taken as opaque data. */
  datatype OllamaModel = OllamaModel(name: string, size: nat, digest: string, modifiedAt: string)

  /** The body of a local chat request: model, projected messages and the
      non-streaming switch. */
  datatype LocalChatRequest = LocalChatRequest(model: string, messages: seq<ChatMessage>, stream: bool)

  function ChatBody(messages: seq<Message>, model: string): (r: LocalChatRequest)
    ensures r.model == model && !r.stream
    ensures |r.messages| == |messages|
    ensures forall i :: 0 <= i < |messages| ==>
      r.messages[i] == ChatMessage(messages[i].role, messages[i].content)
  {
    LocalChatRequest(model, Project(messages), false)
  }

  /** How a local chat request settles: `message.content` (or the fallback)
      on success; a non-2xx status rejects with the status text only, whatever
      the body says; a thrown value rejects with its message. */
  function Settle(response: Outcome<Option<string>>): (r: Result<string, string>)
    ensures r.Success? <==> response.Ok?
    ensures r.Success? ==> r.value != ""
    ensures response.Ok? ==> r.value == ReplyOrFallback(response.body)
    ensures response.NotOk? ==> r.error == HttpStatusError(response.status)
    ensures response.Threw? ==> r.error == CaughtMessage(response.thrown)
  {
    match response
    case Ok(content) => Success(ReplyOrFallback(content))
    case NotOk(status, _) => Failure(HttpStatusError(status))
    case Threw(t) => Failure(CaughtMessage(t))
  }

  /** Two non-2xx responses with different statuses reject with different texts. */
  lemma SettleNamesStatus(a: nat, ma: Option<string>, b: nat, mb: Option<string>)
    requires Settle(NotOk(a, ma)) == Settle(NotOk(b, mb))
    ensures a == b
  {
    HttpStatusErrorInjective(a, b);
  }

  class OllamaClient {
    var models: seq<OllamaModel>
    var isLoading: bool
    var error: Option<string>
    var isConnected: bool

    constructor ()
      ensures models == [] && !isLoading && error.None? && !isConnected
    {
      models, isLoading, error, isConnected := [], false, None, false;
    }

    /** `checkConnection`: connected exactly when the probe answered 2xx; any
        answer clears the error, a thrown probe records the fixed notice. */
    method CheckConnection(probe: Outcome<()>)
      modifies this
      ensures models == old(models) && isLoading == old(isLoading)
      ensures probe.Threw? ==> !isConnected && error == Some(UnreachableNotice)
      ensures !probe.Threw? ==> isConnected == probe.Ok? && error.None?
    {
      if probe.Threw? {
        isConnected := false;
        error := Some(UnreachableNotice);
      } else {
        isConnected := probe.Ok?;
        error := None;
      }
    }

    /** `fetchModels`: a 2xx answer replaces the list (empty when the field is
        absent) and clears the error; a non-2xx answer changes nothing; a
        thrown request records the notice and keeps the previous list. */
    method FetchModels(tags: Outcome<Option<seq<OllamaModel>>>)
      modifies this
      ensures isLoading == old(isLoading) && isConnected == old(isConnected)
      ensures tags.Ok? ==> models == tags.body.GetOr([]) && error.None?
      ensures tags.NotOk? ==> models == old(models) && error == old(error)
      ensures tags.Threw? ==> models == old(models) && error == Some(ModelListNotice)
    {
      match tags
      case Ok(listed) =>
        models := listed.GetOr([]);
        error := None;
      case NotOk(_, _) =>
      case Threw(_) =>
        error := Some(ModelListNotice);
    }

    /** The part of `sendMessage` before the request is awaited: the
        connectivity guard, then `isLoading := true`, `error := null` and the
        request body. */
    method BeginSend(messages: seq<Message>, selectedModel: string) returns (r: Result<LocalChatRequest, string>)
      modifies this
      ensures r.Success? <==> old(isConnected)
      ensures r.Failure? ==> r.error == NotConnectedError && unchanged(this)
      ensures r.Success? ==> r.value == ChatBody(messages, selectedModel)
      ensures r.Success? ==> isLoading && error.None? && models == old(models) && isConnected
    {
      if !isConnected {
        return Failure(NotConnectedError);
      }
      isLoading := true;
      error := None;
      r := Success(ChatBody(messages, selectedModel));
    }

    /** The part of `sendMessage` after the response arrives: the rejection
        text is recorded and rethrown, and `isLoading` is cleared on every path. */
    method FinishSend(response: Outcome<Option<string>>) returns (reply: Result<string, string>)
      requires isLoading
      modifies this
      ensures reply == Settle(response)
      ensures !isLoading
      ensures error == (if reply.Failure? then Some(reply.error) else old(error))
      ensures models == old(models) && isConnected == old(isConnected)
    {
      reply := Settle(response);
      if reply.Failure? {
        error := Some(reply.error);
      }
      isLoading := false;
    }

    /** `sendMessage(messages, selectedModel)` against a given response. */
    method SendMessage(messages: seq<Message>, selectedModel: string, response: Outcome<Option<string>>)
      returns (request: Option<LocalChatRequest>, reply: Result<string, string>)
      modifies this
      ensures request.Some? <==> old(isConnected)
      ensures request.None? ==> reply == Failure(NotConnectedError) && unchanged(this)
      ensures request.Some? ==> request.value == ChatBody(messages, selectedModel)
      ensures request.Some? ==> reply == Settle(response)
      ensures request.Some? ==> !isLoading && error == (if reply.Failure? then Some(reply.error) else None)
      ensures models == old(models) && isConnected == old(isConnected)
    {
      var begun := BeginSend(messages, selectedModel);
      if begun.Failure? {
        return None, Failure(begun.error);
      }
      request := Some(begun.value);
      reply := FinishSend(response);
    }
  }
}
