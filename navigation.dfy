/**
  The navigation of the Lip Decoder app: the session record that survives
  between reruns of the page script, the handlers that change it, and the
  transitions each of the four pages offers. Everything here is a value; the
  in-place version of the same record is App.Session.
 */
module Navigation {

  datatype Option<T> = None | Some(value: T)

  /** One value of the session record: the current page, the chosen input
      method, the target language (display name and code) and the media path. */
  datatype State = State(
    page: int,
    inputMethod: Option<string>,
    targetLang: string,
    targetLangCode: string,
    videoPath: Option<string>)

  /** The record a fresh session starts with. */
  const INITIAL: State := State(1, None, "English", "en", None)

  /** The two input buttons of page 2. */
  const INPUT_METHODS: set<string> := {"upload", "live"}

  /** The five language buttons of page 3, as (display name, code). */
  const LANGUAGES: seq<(string, string)> :=
    [("English", "en"), ("Tamil", "ta"), ("Hindi", "hi"), ("Kannada", "kn"), ("Telugu", "te")]

  // The five handlers, as functions of the record.

  function NextPage(s: State): State
  {
    s.(page := s.page + 1)
  }

  function PrevPage(s: State): State
  {
    s.(page := s.page - 1)
  }

  function ResetApp(s: State): State
  {
    s.(page := 1, videoPath := None, inputMethod := None)
  }

  function SetInput(s: State, choice: string): State
  {
    NextPage(s.(inputMethod := Some(choice)))
  }

  function SetLanguage(s: State, name: string, code: string): State
  {
    NextPage(s.(targetLang := name, targetLangCode := code))
  }

  /** What page 4 does once an upload has been saved or a recording made. */
  function SetVideoPath(s: State, path: string): State
  {
    s.(videoPath := Some(path))
  }

  /** The buttons (and the uploader) a user can press on some page. */
  datatype Action =
    | ExploreNow
    | Back
    | ChooseInput(choice: string)
    | ChooseLanguage(name: string, code: string)
    | StartOver
    | UploadVideo(path: string)
    | RecordVideo(path: string)
    | AnalyseLipMovements

  /** Whether the page the session is on shows the control `a`. The paths a
      finished upload or recording hands over are temporary-file names, never
      empty. A page number outside 1..4 renders nothing. */
  predicate Offered(s: State, a: Action)
  {
    match a
    case ExploreNow => s.page == 1
    case Back => s.page == 2 || s.page == 3
    case ChooseInput(m) => s.page == 2 && m in INPUT_METHODS
    case ChooseLanguage(n, c) => s.page == 3 && (n, c) in LANGUAGES
    case StartOver => s.page == 4
    case UploadVideo(p) => s.page == 4 && s.inputMethod == Some("upload") && p != ""
    case RecordVideo(p) => s.page == 4 && s.inputMethod == Some("live") && p != ""
    case AnalyseLipMovements => s.page == 4
  }

  /** The handler a control runs. Analysing leaves the record alone. */
  function Apply(s: State, a: Action): State
  {
    match a
    case ExploreNow => NextPage(s)
    case Back => PrevPage(s)
    case ChooseInput(m) => SetInput(s, m)
    case ChooseLanguage(n, c) => SetLanguage(s, n, c)
    case StartOver => ResetApp(s)
    case UploadVideo(p) => SetVideoPath(s, p)
    case RecordVideo(p) => SetVideoPath(s, p)
    case AnalyseLipMovements => s
  }

  /** Pressing the controls `acts` one after the other, starting from `s`;
      None when one of them is not on the page at that moment. */
  function Run(s: State, acts: seq<Action>): Option<State>
    decreases |acts|
  {
    if acts == [] then Some(s)
    else if Offered(s, acts[0]) then Run(Apply(s, acts[0]), acts[1..])
    else None
  }

  ghost predicate Reachable(s: State)
  {
    exists acts :: Run(INITIAL, acts) == Some(s)
  }

  /** The invariant of every session a user can produce. */
  predicate Inv(s: State)
  {
    && 1 <= s.page <= 4
    && (s.targetLang, s.targetLangCode) in LANGUAGES
    && (s.inputMethod == None || s.inputMethod.value in INPUT_METHODS)
    && (s.page >= 3 ==> s.inputMethod.Some?)
    && (s.videoPath.Some? ==> s.page == 4 && s.videoPath.value != "")
  }

  // Properties of the handlers.

  lemma PrevUndoesNext(s: State)
    ensures PrevPage(NextPage(s)) == s
    ensures NextPage(PrevPage(s)) == s
  {
  }

  lemma ResetKeepsLanguage(s: State)
    ensures ResetApp(s) == State(1, None, s.targetLang, s.targetLangCode, None)
  {
  }

  lemma SetterFrames(s: State, choice: string, name: string, code: string)
    ensures SetInput(s, choice) == s.(page := s.page + 1, inputMethod := Some(choice))
    ensures SetLanguage(s, name, code) == s.(page := s.page + 1, targetLang := name, targetLangCode := code)
  {
  }

  // Reachable sessions are exactly those satisfying Inv.

  lemma InitialInv()
    ensures Inv(INITIAL)
  {
  }

  lemma StepPreservesInv(s: State, a: Action)
    requires Inv(s) && Offered(s, a)
    ensures Inv(Apply(s, a))
  {
  }

  lemma {:induction false} RunPreservesInv(s: State, acts: seq<Action>)
    requires Inv(s)
    ensures Run(s, acts).Some? ==> Inv(Run(s, acts).value)
    decreases |acts|
  {
    if acts != [] && Offered(s, acts[0]) {
      StepPreservesInv(s, acts[0]);
      RunPreservesInv(Apply(s, acts[0]), acts[1..]);
    }
  }

  lemma ReachableIsInv(s: State)
    requires Reachable(s)
    ensures Inv(s)
  {
    var acts :| Run(INITIAL, acts) == Some(s);
    InitialInv();
    RunPreservesInv(INITIAL, acts);
  }

  /** Pressing `xs` and then `ys` is pressing `xs + ys`. */
  lemma {:induction false} RunAppend(s: State, xs: seq<Action>, ys: seq<Action>)
    ensures Run(s, xs + ys) == if Run(s, xs).Some? then Run(Run(s, xs).value, ys) else None
    decreases |xs|
  {
    if xs == [] {
      assert xs + ys == ys;
    } else {
      assert (xs + ys)[0] == xs[0];
      assert (xs + ys)[1..] == xs[1..] + ys;
      if Offered(s, xs[0]) {
        RunAppend(Apply(s, xs[0]), xs[1..], ys);
      }
    }
  }

  lemma RunStep(s: State, a: Action, rest: seq<Action>)
    requires Offered(s, a)
    ensures Run(s, [a] + rest) == Run(Apply(s, a), rest)
  {
  }

  lemma InvIsReachable(s: State)
    requires Inv(s)
    ensures Reachable(s)
  {
    var n, c := s.targetLang, s.targetLangCode;
    // Choose the language once, then start over: page 1 with only the language set.
    var home := State(1, None, n, c, None);
    var toHome := [ExploreNow, ChooseInput("upload"), ChooseLanguage(n, c), StartOver];
    var s1 := State(2, None, "English", "en", None);
    var s2 := State(3, Some("upload"), "English", "en", None);
    var s3 := State(4, Some("upload"), n, c, None);
    RunStep(s3, StartOver, []);
    RunStep(s2, ChooseLanguage(n, c), [StartOver]);
    RunStep(s1, ChooseInput("upload"), [ChooseLanguage(n, c), StartOver]);
    RunStep(INITIAL, ExploreNow, [ChooseInput("upload"), ChooseLanguage(n, c), StartOver]);
    assert Run(INITIAL, toHome) == Some(home);
    var tail := ToTarget(home, s);
    RunAppend(INITIAL, toHome, tail);
    assert Run(INITIAL, toHome + tail) == Some(s);
  }

  /** From page 1 with no input chosen and the target's language, the controls
      that lead to any session `s` satisfying Inv with that language. */
  lemma ToTarget(home: State, s: State) returns (tail: seq<Action>)
    requires Inv(s) && home == State(1, None, s.targetLang, s.targetLangCode, None)
    ensures Run(home, tail) == Some(s)
  {
    var n, c := s.targetLang, s.targetLangCode;
    if s.inputMethod == None {
      if s.page == 1 {
        tail := [];
      } else {
        tail := [ExploreNow];
        RunStep(home, ExploreNow, []);
      }
    } else {
      var m := s.inputMethod.value;
      var two := State(2, None, n, c, None);
      var three := State(3, Some(m), n, c, None);
      RunStep(home, ExploreNow, [ChooseInput(m)]);
      RunStep(two, ChooseInput(m), []);
      assert Run(home, [ExploreNow, ChooseInput(m)]) == Some(three);
      var rest: seq<Action>;
      if s.page == 3 {
        rest := [];
      } else if s.page == 2 {
        rest := [Back];
        RunStep(three, Back, []);
      } else if s.page == 1 {
        rest := [Back, Back];
        RunStep(three, Back, [Back]);
        RunStep(three.(page := 2), Back, []);
      } else {
        var four := State(4, Some(m), n, c, None);
        if s.videoPath == None {
          rest := [ChooseLanguage(n, c)];
          RunStep(three, ChooseLanguage(n, c), []);
        } else {
          var p := s.videoPath.value;
          var v := if m == "upload" then UploadVideo(p) else RecordVideo(p);
          rest := [ChooseLanguage(n, c), v];
          RunStep(three, ChooseLanguage(n, c), [v]);
          RunStep(four, v, []);
        }
      }
      RunAppend(home, [ExploreNow, ChooseInput(m)], rest);
      tail := [ExploreNow, ChooseInput(m)] + rest;
    }
  }

  lemma ReachableIffInv(s: State)
    ensures Reachable(s) <==> Inv(s)
  {
    if Reachable(s) {
      ReachableIsInv(s);
    }
    if Inv(s) {
      InvIsReachable(s);
    }
  }
}
