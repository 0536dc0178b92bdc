/**
 Sequences of user actions on the main panel, each handled atomically, and the
 properties that hold across a whole session.
 */
module Session {
  import opened Gateway
  import opened Controller

  /** One user action. A press of a request-issuing trigger carries the outcome
      the gateway will settle to, should a request be sent. */
  datatype UserAction =
    | TypeTweet(text: string)
    | TypePrompt(text: string)
    | PickMood(value: string)
    | PickAction(value: string)
    | PressGenerate(outcome: Outcome)
    | PressRefine(outcome: Outcome)
    | PressCopy

  /** One action handled to completion. */
  function Apply(s: State, a: UserAction): (r: Step)
    ensures !s.isGenerating ==> !r.state.isGenerating
    ensures a.PressGenerate? ==> !r.state.isGenerating
    ensures |Requests(r.events)| <= 1
    ensures |ErrorTexts(r.events)| <= |Requests(r.events)|
    ensures !a.PressGenerate? && !a.PressRefine? ==>
      Requests(r.events) == [] && r.state.isGenerating == s.isGenerating && r.state.result == s.result
  {
    match a
    case TypeTweet(text) => Step(EditTweet(s, text), [])
    case TypePrompt(text) => Step(EditPrompt(s, text), [])
    case PickMood(value) => Step(SelectMood(s, value), [])
    case PickAction(value) => Step(SelectAction(s, value), [])
    case PressGenerate(o) => HandleGenerate(s, o)
    case PressRefine(o) => HandleRegenerate(s, o)
    case PressCopy => CopyToClipboard(s)
  }

  /** A session: the actions handled one after the other, events concatenated.
      A session that starts idle ends idle, sends at most one request per action,
      and reports at most one failure per request sent. */
  function Run(s: State, acts: seq<UserAction>): (r: Step)
    ensures !s.isGenerating ==> !r.state.isGenerating
    ensures |Requests(r.events)| <= |acts|
    ensures |ErrorTexts(r.events)| <= |Requests(r.events)|
    decreases |acts|
  {
    if acts == [] then Step(s, [])
    else
      var first := Apply(s, acts[0]);
      var rest := Run(first.state, acts[1..]);
      RequestsAppend(first.events, rest.events);
      ErrorTextsAppend(first.events, rest.events);
      Step(rest.state, first.events + rest.events)
  }

  /** Every selection in `acts` is one of the menus' values. */
  predicate PicksFromMenus(acts: seq<UserAction>)
  {
    forall i :: 0 <= i < |acts| ==>
      (acts[i].PickMood? ==> acts[i].value in MoodValues)
      && (acts[i].PickAction? ==> acts[i].value in ActionValues)
  }

  /** Every request in `qs` carries a tone and an action from the menus. */
  predicate RequestsUseMenus(qs: seq<Request>)
  {
    forall i :: 0 <= i < |qs| ==> qs[i].mood in MoodValues && qs[i].action in ActionValues
  }

  /** When the selections come from the menus, so does every tone and action the
      session ever sends; in particular the tone labelled "Funny" goes out as
      "light", and the label itself never does. */
  lemma {:induction false} SessionSendsMenuValues(s: State, acts: seq<UserAction>)
    requires SelectionsFromMenus(s) && PicksFromMenus(acts)
    ensures SelectionsFromMenus(Run(s, acts).state)
    ensures RequestsUseMenus(Requests(Run(s, acts).events))
    ensures forall q :: q in Requests(Run(s, acts).events) ==> q.mood != "Funny"
    decreases |acts|
  {
    if acts != [] {
      var first := Apply(s, acts[0]);
      assert SelectionsFromMenus(first.state);
      assert PicksFromMenus(acts[1..]) by {
        forall i | 0 <= i < |acts[1..]|
          ensures (acts[1..][i].PickMood? ==> acts[1..][i].value in MoodValues)
          ensures (acts[1..][i].PickAction? ==> acts[1..][i].value in ActionValues)
        {
          assert acts[1..][i] == acts[i + 1];
        }
      }
      SessionSendsMenuValues(first.state, acts[1..]);
      var rest := Run(first.state, acts[1..]);
      RequestsAppend(first.events, rest.events);
      assert RequestsUseMenus(Requests(first.events));
    }
  }

  /** A session made only of edits, selections and copies sends nothing. */
  lemma {:induction false} NoPressNoRequest(s: State, acts: seq<UserAction>)
    requires forall i :: 0 <= i < |acts| ==> !acts[i].PressGenerate? && !acts[i].PressRefine?
    ensures Requests(Run(s, acts).events) == []
    ensures Run(s, acts).state.isGenerating == s.isGenerating
    ensures Run(s, acts).state.result == s.result
    decreases |acts|
  {
    if acts != [] {
      var first := Apply(s, acts[0]);
      assert forall i :: 0 <= i < |acts[1..]| ==> acts[1..][i] == acts[i + 1];
      NoPressNoRequest(first.state, acts[1..]);
      RequestsAppend(first.events, Run(first.state, acts[1..]).events);
    }
  }

  /** A session is its first action followed by the session of the rest. */
  lemma RunCons(s: State, a: UserAction, rest: seq<UserAction>)
    ensures Run(s, [a] + rest)
      == Step(Run(Apply(s, a).state, rest).state, Apply(s, a).events + Run(Apply(s, a).state, rest).events)
  {
  }

  /** A worked scenario: generate, open the instructions field, type
      instructions, refine. The first refine press finds the instructions empty
      and sends nothing, so the outcome it carries is never consulted. */
  lemma Walkthrough(s0: State, acts: seq<UserAction>)
    requires s0 == Init("hello world", "")
    requires acts == [
        PressGenerate(Ok("Hello, world!")),
        PressRefine(Err(false, "never consulted")),
        TypePrompt("make it excited"),
        PressRefine(Ok("Hello, world!! \U{1F389}"))
      ]
    ensures Run(s0, acts).state.result == "Hello, world!! \U{1F389}"
    ensures Run(s0, acts).state.improvePrompt == ""
    ensures !Run(s0, acts).state.isImprovingField && !Run(s0, acts).state.isGenerating
    ensures Requests(Run(s0, acts).events) == [
        GenerateRequest("hello world", "Casual", "Formatting"),
        ImproveRequest("Hello, world!", "Casual", "Formatting", "make it excited", "hello world")
      ]
    ensures ErrorTexts(Run(s0, acts).events) == []
  {
    var s1 := Init("hello world", "Hello, world!");
    var q0 := GenerateRequest("hello world", "Casual", "Formatting");
    var q1 := ImproveRequest("Hello, world!", "Casual", "Formatting", "make it excited", "hello world");
    assert Apply(s0, acts[0]) == Step(s1, [Send(q0)]);
    WalkthroughRefine(s1, acts[1..]);
    RunCons(s0, acts[0], acts[1..]);
    assert [acts[0]] + acts[1..] == acts;
    assert Run(s0, acts).events == [Send(q0)] + [Send(q1)];
    FiltersOfTwo(Send(q0), Send(q1));
    FiltersOfOne(Send(q0));
    FiltersOfOne(Send(q1));
  }

  /** The refining half of the walk-through, from the state the generation left. */
  lemma WalkthroughRefine(s1: State, acts: seq<UserAction>)
    requires s1 == Init("hello world", "Hello, world!")
    requires acts == [
        PressRefine(Err(false, "never consulted")),
        TypePrompt("make it excited"),
        PressRefine(Ok("Hello, world!! \U{1F389}"))
      ]
    ensures Run(s1, acts) == Step(s1.(result := "Hello, world!! \U{1F389}"),
                 [Send(ImproveRequest("Hello, world!", "Casual", "Formatting", "make it excited", "hello world"))])
  {
    var a1 := PressRefine(Err(false, "never consulted"));
    var a2 := TypePrompt("make it excited");
    var a3 := PressRefine(Ok("Hello, world!! \U{1F389}"));
    var s2 := s1.(isImprovingField := true);
    var s3 := s2.(improvePrompt := "make it excited");
    var s4 := s1.(result := "Hello, world!! \U{1F389}");
    var q1 := ImproveRequest("Hello, world!", "Casual", "Formatting", "make it excited", "hello world");
    assert Apply(s1, a1) == Step(s2, []);
    assert Apply(s2, a2) == Step(s3, []);
    assert Apply(s3, a3) == Step(s4, [Send(q1)]);
    RunCons(s3, a3, []);
    assert [a3] + [] == [a3];
    RunCons(s2, a2, [a3]);
    assert [a2] + [a3] == [a2, a3];
    RunCons(s1, a1, [a2, a3]);
    assert [a1] + [a2, a3] == [a1, a2, a3];
  }
}
