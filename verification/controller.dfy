/**
 The interaction controller of the tweet-refiner main panel.

 Its state is the draft `tweet`, the latest `result`, the refinement
 instructions `improvePrompt`, the "collecting instructions" flag
 `isImprovingField`, the busy flag `isGenerating`, and the selected tone
 (`mood`) and `action`, kept as the raw strings the menus hand over.

 Each request-issuing handler is split in two atomic phases: `Start…`, which
 raises the busy flag and emits the request, and `Complete…`, which consumes the
 gateway's `Outcome`. The whole handlers `HandleGenerate` and `HandleRegenerate`
 are the two phases run back to back.
 */
module Controller {
  import opened Gateway

  datatype State = State(
    tweet: string,
    result: string,
    improvePrompt: string,
    isImprovingField: bool,
    isGenerating: bool,
    mood: string,
    action: string
  )

  /** A state change together with what it emitted, in order. */
  datatype Step = Step(state: State, events: seq<Event>)

  const DefaultMood: string := "Casual"
  const DefaultAction: string := "Formatting"

  /** The values the two selection menus can hand over. The first tone entry is
      the one labelled "Funny" on screen; "light" is what gets sent. */
  const MoodValues: seq<string> := ["light", "Serious", "Casual", "Formal", "Humorous", "Sarcastic"]
  const ActionValues: seq<string> := ["Formatting", "Improving", "Correcting"]

  /** The fields of `State`, used to say exactly which ones an operation changes. */
  datatype Field = Tweet | ResultText | ImprovePrompt | ImprovingField | Generating | Mood | Action

  /** The fields on which `s` and `t` differ. */
  function Changed(s: State, t: State): (fs: set<Field>)
    ensures fs == {} <==> s == t
  {
    (if s.tweet != t.tweet then {Tweet} else {})
    + (if s.result != t.result then {ResultText} else {})
    + (if s.improvePrompt != t.improvePrompt then {ImprovePrompt} else {})
    + (if s.isImprovingField != t.isImprovingField then {ImprovingField} else {})
    + (if s.isGenerating != t.isGenerating then {Generating} else {})
    + (if s.mood != t.mood then {Mood} else {})
    + (if s.action != t.action then {Action} else {})
  }

  /** Both selections hold values one of the menus can produce. */
  predicate SelectionsFromMenus(s: State)
  {
    s.mood in MoodValues && s.action in ActionValues
  }

  /** The component's state when it first renders. The draft and the result live
      in shared contexts outside this component, so they are parameters. */
  function Init(tweet: string, result: string): (s: State)
    ensures s.tweet == tweet && s.result == result
    ensures !s.isGenerating && !s.isImprovingField && s.improvePrompt == ""
    ensures s.mood == DefaultMood && s.action == DefaultAction
    ensures SelectionsFromMenus(s)
    ensures DecideRefine(s) == EnterCollecting
  {
    State(tweet, result, "", false, false, DefaultMood, DefaultAction)
  }

  // ---------------------------------------------------------------------------
  // Generate

  /** First phase of the generate handler: mark busy, post the draft with the
      current selections. */
  function StartGenerate(s: State): (r: Step)
    ensures r.events == [Send(GenerateRequest(s.tweet, s.mood, s.action))]
    ensures r.state.isGenerating
    ensures Changed(s, r.state) <= {Generating}
  {
    Step(s.(isGenerating := true), [Send(GenerateRequest(s.tweet, s.mood, s.action))])
  }

  /** Second phase of the generate handler: store the reply or report the failure,
      then release the busy flag on either path. */
  function CompleteGenerate(s: State, o: Outcome): (r: Step)
    ensures !r.state.isGenerating
    ensures o.Ok? ==> r.state.result == o.message && r.events == []
    ensures o.Ok? ==> Changed(s, r.state) <= {ResultText, Generating}
    ensures o.Err? ==> r.events == [ErrorToast(FailureText(o, GenerateFallback))]
    ensures o.Err? ==> Changed(s, r.state) <= {Generating}
  {
    match o
    case Ok(message) => Step(s.(result := message, isGenerating := false), [])
    case Err(_, _) => Step(s.(isGenerating := false), [ErrorToast(FailureText(o, GenerateFallback))])
  }

  /** The generate handler run to completion. */
  function HandleGenerate(s: State, o: Outcome): (r: Step)
    ensures !r.state.isGenerating
    ensures |r.events| >= 1 && r.events[0] == Send(GenerateRequest(s.tweet, s.mood, s.action))
    ensures Requests(r.events) == [GenerateRequest(s.tweet, s.mood, s.action)]
    ensures o.Ok? ==> r.events == [Send(GenerateRequest(s.tweet, s.mood, s.action))]
    ensures o.Ok? ==> r.state == s.(result := o.message, isGenerating := false)
    ensures o.Err? ==> r.events == [Send(GenerateRequest(s.tweet, s.mood, s.action)), ErrorToast(FailureText(o, GenerateFallback))]
    ensures o.Err? ==> ErrorTexts(r.events) == [FailureText(o, GenerateFallback)]
    ensures o.Err? ==> r.state == s.(isGenerating := false)
  {
    var started := StartGenerate(s);
    var done := CompleteGenerate(started.state, o);
    RequestsAppend(started.events, done.events);
    ErrorTextsAppend(started.events, done.events);
    FiltersOfOne(started.events[0]);
    Step(done.state, started.events + done.events)
  }

  // ---------------------------------------------------------------------------
  // Refine

  /** The three ways the refine trigger can go. */
  datatype RefineMove = EnterCollecting | CancelCollecting | Submit

  /** The refine decision as a table over (collecting flag, instructions empty?):
      empty instructions toggle the collecting flag, anything else submits. */
  function DecideRefine(s: State): RefineMove
  {
    match (s.isImprovingField, s.improvePrompt == "")
    case (false, true) => EnterCollecting
    case (true, true) => CancelCollecting
    case (_, false) => Submit
  }

  /** The improve request built from the current state. */
  function ImproveOf(s: State): Request
  {
    ImproveRequest(s.result, s.mood, s.action, s.improvePrompt, s.tweet)
  }

  /** First phase of the refine handler. With empty instructions it only flips the
      collecting flag; otherwise it marks busy and posts an improve request. */
  function StartRefine(s: State): (r: Step)
    ensures s.improvePrompt == "" ==> r.events == [] && Changed(s, r.state) == {ImprovingField}
    ensures s.improvePrompt == "" ==> r.state.isImprovingField == !s.isImprovingField
    ensures s.improvePrompt != "" ==> r.events == [Send(ImproveRequest(s.result, s.mood, s.action, s.improvePrompt, s.tweet))]
    ensures s.improvePrompt != "" ==> r.state.isGenerating && Changed(s, r.state) <= {Generating}
  {
    if !s.isImprovingField && s.improvePrompt == "" then
      Step(s.(isImprovingField := true), [])
    else if s.isImprovingField && s.improvePrompt == "" then
      Step(s.(isImprovingField := false), [])
    else
      Step(s.(isGenerating := true), [Send(ImproveOf(s))])
  }

  /** Second phase of the refine handler: on a reply, store it, clear the
      instructions and leave collecting mode; on a failure, report it. The busy
      flag is released on both paths. */
  function CompleteRefine(s: State, o: Outcome): (r: Step)
    ensures !r.state.isGenerating
    ensures o.Ok? ==> r.events == []
    ensures o.Ok? ==> r.state.result == o.message && r.state.improvePrompt == "" && !r.state.isImprovingField
    ensures o.Ok? ==> Changed(s, r.state) <= {ResultText, ImprovePrompt, ImprovingField, Generating}
    ensures o.Err? ==> r.events == [ErrorToast(FailureText(o, ImproveFallback))]
    ensures o.Err? ==> Changed(s, r.state) <= {Generating}
  {
    match o
    case Ok(message) =>
      Step(s.(result := message, improvePrompt := "", isImprovingField := false, isGenerating := false), [])
    case Err(_, _) =>
      Step(s.(isGenerating := false), [ErrorToast(FailureText(o, ImproveFallback))])
  }

  /** The refine handler run to completion. The outcome is consulted only when a
      request was actually sent. */
  function HandleRegenerate(s: State, o: Outcome): (r: Step)
    ensures s.improvePrompt == "" ==> r.events == [] && r.state == s.(isImprovingField := !s.isImprovingField)
    ensures s.improvePrompt != "" ==> Requests(r.events) == [ImproveRequest(s.result, s.mood, s.action, s.improvePrompt, s.tweet)]
    ensures s.improvePrompt != "" ==> !r.state.isGenerating
    ensures s.improvePrompt != "" && o.Ok? ==> r.events == [Send(ImproveRequest(s.result, s.mood, s.action, s.improvePrompt, s.tweet))]
    ensures s.improvePrompt != "" && o.Ok? ==>
      r.state == s.(result := o.message, improvePrompt := "", isImprovingField := false, isGenerating := false)
    ensures s.improvePrompt != "" && o.Err? ==>
      r.events == [Send(ImproveRequest(s.result, s.mood, s.action, s.improvePrompt, s.tweet)), ErrorToast(FailureText(o, ImproveFallback))]
    ensures s.improvePrompt != "" && o.Err? ==> ErrorTexts(r.events) == [FailureText(o, ImproveFallback)]
    ensures s.improvePrompt != "" && o.Err? ==> r.state == s.(isGenerating := false)
  {
    var started := StartRefine(s);
    if started.events == [] then started
    else
      var done := CompleteRefine(started.state, o);
      RequestsAppend(started.events, done.events);
      ErrorTextsAppend(started.events, done.events);
      FiltersOfOne(started.events[0]);
      Step(done.state, started.events + done.events)
  }

  // ---------------------------------------------------------------------------
  // Copy and the plain setters

  /** Copies a non-empty result to the clipboard and confirms it; an empty result
      does nothing. The state is never touched. */
  function CopyToClipboard(s: State): (r: Step)
    ensures r.state == s
    ensures s.result == "" <==> r.events == []
    ensures s.result != "" ==> r.events == [ClipboardWrite(s.result), SuccessToast(CopiedNotice)]
    ensures Requests(r.events) == [] && ErrorTexts(r.events) == []
  {
    if s.result == "" then Step(s, [])
    else
      FiltersOfTwo(ClipboardWrite(s.result), SuccessToast(CopiedNotice));
      FiltersOfOne(ClipboardWrite(s.result));
      FiltersOfOne(SuccessToast(CopiedNotice));
      Step(s, [ClipboardWrite(s.result), SuccessToast(CopiedNotice)])
  }

  /** Tone menu change: only the stored tone changes. */
  function SelectMood(s: State, value: string): (t: State)
    ensures t.mood == value
    ensures Changed(s, t) <= {Mood}
  {
    s.(mood := value)
  }

  /** Action menu change: only the stored action changes. */
  function SelectAction(s: State, value: string): (t: State)
    ensures t.action == value
    ensures Changed(s, t) <= {Action}
  {
    s.(action := value)
  }

  /** Draft text edit. */
  function EditTweet(s: State, text: string): (t: State)
    ensures t.tweet == text
    ensures Changed(s, t) <= {Tweet}
  {
    s.(tweet := text)
  }

  /** Instruction text edit (the setter is handed to the result panel). */
  function EditPrompt(s: State, text: string): (t: State)
    ensures t.improvePrompt == text
    ensures Changed(s, t) <= {ImprovePrompt}
  {
    s.(improvePrompt := text)
  }

  // ---------------------------------------------------------------------------
  // Properties relating the operations

  /** The refine handler's code-shaped branches follow the decision table, and
      each move is recognisable from what the handler did. */
  lemma StartRefineFollowsTable(s: State)
    ensures DecideRefine(s) == EnterCollecting <==> StartRefine(s).state.isImprovingField && !s.isImprovingField
    ensures DecideRefine(s) == CancelCollecting <==> !StartRefine(s).state.isImprovingField && s.isImprovingField
    ensures DecideRefine(s) == Submit <==> StartRefine(s).events != []
  {
  }

  /** Two refines with empty instructions in a row bring the state back to where
      it was, and neither sends anything. */
  lemma EmptyRefineTwiceRestores(s: State, o1: Outcome, o2: Outcome)
    requires s.improvePrompt == ""
    ensures HandleRegenerate(HandleRegenerate(s, o1).state, o2).state == s
    ensures HandleRegenerate(s, o1).events == [] && HandleRegenerate(HandleRegenerate(s, o1).state, o2).events == []
  {
  }

  /** A request phase keeps the busy flag up while the request is outstanding and
      releases it when the outcome arrives, whatever the outcome. */
  lemma BusyOnlyWhileInFlight(s: State, o: Outcome)
    ensures StartGenerate(s).state.isGenerating
    ensures !CompleteGenerate(StartGenerate(s).state, o).state.isGenerating
    ensures s.improvePrompt != "" ==> StartRefine(s).state.isGenerating
    ensures s.improvePrompt != "" ==> !CompleteRefine(StartRefine(s).state, o).state.isGenerating
    ensures s.improvePrompt == "" ==> StartRefine(s).state.isGenerating == s.isGenerating
  {
  }

  /** From an idle state, a failed request leaves every field as it was: result,
      instructions and collecting flag included. */
  lemma FailureRestoresIdleState(s: State, o: Outcome)
    requires !s.isGenerating && o.Err?
    ensures HandleGenerate(s, o).state == s
    ensures s.improvePrompt != "" ==> HandleRegenerate(s, o).state == s
  {
  }

  /** The handlers have no re-entrancy guard: a second generate while the first is
      outstanding sends a second, identical request, so two requests are out; the
      first completion, whatever its outcome, clears the busy flag although only
      one of the two has settled. */
  lemma SecondGenerateWhileBusyReleasesEarly(s: State, o: Outcome)
    requires !s.isGenerating
    ensures
      var first := StartGenerate(s);
      var second := StartGenerate(first.state);
      && second.state.isGenerating
      && Requests(first.events + second.events)
         == [GenerateRequest(s.tweet, s.mood, s.action), GenerateRequest(s.tweet, s.mood, s.action)]
      && !CompleteGenerate(second.state, o).state.isGenerating
  {
    var first := StartGenerate(s);
    var second := StartGenerate(first.state);
    RequestsAppend(first.events, second.events);
    FiltersOfOne(first.events[0]);
  }

  /** A menu selection is what the next request carries. */
  lemma SelectionIsSent(s: State, mood: string, action: string)
    ensures
      var t := SelectAction(SelectMood(s, mood), action);
      && StartGenerate(t).events == [Send(GenerateRequest(s.tweet, mood, action))]
      && (s.improvePrompt != "" ==>
            StartRefine(t).events == [Send(ImproveRequest(s.result, mood, action, s.improvePrompt, s.tweet))])
  {
  }
}
