/**
 The boundary between the interaction controller and the outside world.

 The remote generation service, the notification library and the clipboard are
 not modelled; what the controller hands to them is recorded as a list of
 `Event`s, and what the service answers is passed in as an `Outcome`.
 */
module Gateway {

  /** What an awaited request settles to: a reply carrying `message`, or a thrown
      value. `isErrorInstance` records whether the thrown value is an `Error`
      object, which decides whether its `message` is shown to the user. */
  datatype Outcome = Ok(message: string) | Err(isErrorInstance: bool, message: string)

  /** The two request bodies the controller posts, field for field. */
  datatype Request =
    | GenerateRequest(tweet: string, mood: string, action: string)
    | ImproveRequest(result: string, mood: string, action: string, improvePrompt: string, tweet: string)

  /** Everything the controller does outside its own state. */
  datatype Event =
    | Send(request: Request)
    | ErrorToast(text: string)
    | SuccessToast(text: string)
    | ClipboardWrite(text: string)

  const GenerateFallback: string := "Error refining tweet"
  const ImproveFallback: string := "Error improving response"
  const CopiedNotice: string := "Text copied to clipboard"

  /** The text of the error notification for a failed request: the thrown
      `Error`'s own message, otherwise the handler's fixed fallback. */
  function FailureText(o: Outcome, fallback: string): string
    requires o.Err?
  {
    if o.isErrorInstance then o.message else fallback
  }

  /** The requests among `es`, in the order they were sent. */
  function Requests(es: seq<Event>): seq<Request>
  {
    if es == [] then []
    else if es[0].Send? then [es[0].request] + Requests(es[1..])
    else Requests(es[1..])
  }

  /** The texts of the error notifications among `es`, in order. */
  function ErrorTexts(es: seq<Event>): seq<string>
  {
    if es == [] then []
    else if es[0].ErrorToast? then [es[0].text] + ErrorTexts(es[1..])
    else ErrorTexts(es[1..])
  }

  /** What the two filters keep of a single event. */
  lemma FiltersOfOne(e: Event)
    ensures Requests([e]) == (if e.Send? then [e.request] else [])
    ensures ErrorTexts([e]) == (if e.ErrorToast? then [e.text] else [])
  {
  }

  /** The filters of a list are the filters of its elements, concatenated. */
  lemma FiltersOfTwo(a: Event, b: Event)
    ensures Requests([a, b]) == Requests([a]) + Requests([b])
    ensures ErrorTexts([a, b]) == ErrorTexts([a]) + ErrorTexts([b])
  {
  }

  lemma {:induction false} RequestsAppend(a: seq<Event>, b: seq<Event>)
    ensures Requests(a + b) == Requests(a) + Requests(b)
  {
    if a == [] {
      assert a + b == b;
    } else {
      assert (a + b)[0] == a[0];
      assert (a + b)[1..] == a[1..] + b;
      RequestsAppend(a[1..], b);
    }
  }

  lemma {:induction false} ErrorTextsAppend(a: seq<Event>, b: seq<Event>)
    ensures ErrorTexts(a + b) == ErrorTexts(a) + ErrorTexts(b)
  {
    if a == [] {
      assert a + b == b;
    } else {
      assert (a + b)[0] == a[0];
      assert (a + b)[1..] == a[1..] + b;
      ErrorTextsAppend(a[1..], b);
    }
  }
}
