/** What the cloud and the local backend adapters have in common: the
    abstract outcome of a network request, the projection of a transcript to
    request messages, the reply fallback and the error texts. */
module Backend {
  import opened Wrappers
  import opened ChatTypes
  import opened Text

  /** What was thrown: an `Error` object (with its message) or some other value. */
  datatype Thrown = ErrorObject(message: string) | NonError

  /** The outcome of one `fetch` and the parsing of its JSON body:
      `Ok(body)` for a 2xx response with the fields the adapter reads,
      `NotOk(status, errorMessage)` for any other status with the provider's
      `error.message` when its body has one, `Threw` when the request or the
      parsing threw. */
  datatype Outcome<B> = Ok(body: B) | NotOk(status: nat, errorMessage: Option<string>) | Threw(thrown: Thrown)

  const NoResponseFallback := "Tidak ada response dari model"
  const UnknownSendError := "Terjadi kesalahan saat mengirim pesan"
  const HttpErrorPrefix := "HTTP error! status: "

  /** `messages.map(msg => ({ role: msg.role, content: msg.content }))`:
      same length, same order, role and content kept, everything else dropped. */
  function Project(ms: seq<Message>): (r: seq<ChatMessage>)
    ensures |r| == |ms|
    ensures forall i :: 0 <= i < |ms| ==> r[i].role == ms[i].role && r[i].content == ms[i].content
  {
    if ms == [] then [] else [ChatMessage(ms[0].role, ms[0].content)] + Project(ms[1..])
  }

  /** Projecting a concatenation projects each part. */
  lemma {:induction false} ProjectAppend(a: seq<Message>, b: seq<Message>)
    ensures Project(a + b) == Project(a) + Project(b)
  {
    if a != [] {
      assert (a + b)[1..] == a[1..] + b;
      ProjectAppend(a[1..], b);
    }
  }

  /** `content || fallback`: the reply text, unless it is absent or empty. */
  function ReplyOrFallback(content: Option<string>): (r: string)
    ensures r != []
    ensures content.Some? && content.value != [] ==> r == content.value
    ensures content.None? || content.value == [] ==> r == NoResponseFallback
  {
    if content.Some? && content.value != [] then content.value else NoResponseFallback
  }

  /** `HTTP error! status: N`. */
  function HttpStatusError(status: nat): (r: string)
    ensures |r| > |HttpErrorPrefix| && r[..|HttpErrorPrefix|] == HttpErrorPrefix
  {
    HttpErrorPrefix + NatToString(status)
  }

  /** The generic status message names the status: two statuses never share it. */
  lemma HttpStatusErrorInjective(a: nat, b: nat)
    requires HttpStatusError(a) == HttpStatusError(b)
    ensures a == b
  {
    var n := |HttpErrorPrefix|;
    assert HttpStatusError(a)[n..] == NatToString(a);
    assert HttpStatusError(b)[n..] == NatToString(b);
    NatToStringInjective(a, b);
  }

  /** The text of a caught value: `err instanceof Error ? err.message : ...`. */
  function CaughtMessage(t: Thrown): (r: string)
    ensures t.ErrorObject? ==> r == t.message
    ensures t.NonError? ==> r == UnknownSendError
  {
    match t
    case ErrorObject(m) => m
    case NonError => UnknownSendError
  }
}
