/**
  What pressing "ANALYZE LIP MOVEMENTS" on page 4 does, as the sequence of
  observable events it produces: progress-bar updates, calls to the three
  collaborators, the warning when there is no media, and the displayed result.
  The collaborators are uninterpreted: any three functions will do.
 */
module Pipeline {
  import opened Navigation

  /** Whatever the visual collaborator returns; nothing downstream reads it. */
  type Features = seq<real>

  /** The three collaborators from `utils`. */
  datatype Collaborators = Collaborators(
    visual: string -> Features,             // visual_feature_extraction(path)
    decode: string -> string,               // deep_lip_decode(path)
    translate: (string, string) -> string)  // translate_content(text, code)

  /** What the result box shows: the language name, the translation and the
      transcript it was made from. */
  datatype Output = Output(language: string, translated: string, transcript: string)

  datatype Event =
    | Progress(percent: int, caption: string)
    | VisualCall(path: string)
    | DecodeCall(path: string)
    | TranslateCall(text: string, code: string)
    | ClearProgress
    | Warning(message: string)
    | Show(output: Output)
  {
    predicate IsCall()
    {
      VisualCall? || DecodeCall? || TranslateCall?
    }
  }

  const NO_VIDEO_WARNING := "Please provide a video first."
  const LABEL_START := "Initializing 3D-CNN Pipeline..."
  const LABEL_VISUAL := "Extracting Lip Landmarks & Geometry..."
  const LABEL_DECODE := "Mapping Spatiotemporal Features..."
  const LABEL_DONE := "Complete!"

  function TranslatingLabel(lang: string): string
  {
    "Translating to " + lang + "..."
  }

  /** The guard: Python treats both None and the empty path as "no video". */
  predicate HasVideo(s: State)
  {
    s.videoPath.Some? && s.videoPath.value != ""
  }

  /** The events one press of the analyse button produces on session `s`. */
  function AnalyseTrace(s: State, c: Collaborators): seq<Event>
  {
    if !HasVideo(s) then [Warning(NO_VIDEO_WARNING)]
    else
      var path := s.videoPath.value;
      var rawText := c.decode(path);
      var translated := c.translate(rawText, s.targetLangCode);
      [Progress(0, LABEL_START), VisualCall(path), Progress(40, LABEL_VISUAL),
       Progress(70, LABEL_DECODE), DecodeCall(path),
       Progress(90, TranslatingLabel(s.targetLang)), TranslateCall(rawText, s.targetLangCode),
       Progress(100, LABEL_DONE), ClearProgress,
       Show(Output(s.targetLang, translated, rawText))]
  }

  /** The progress values of a trace, in order. */
  function Percents(trace: seq<Event>): seq<int>
  {
    if trace == [] then []
    else (if trace[0].Progress? then [trace[0].percent] else []) + Percents(trace[1..])
  }

  /** The collaborator calls of a trace, in order. */
  function Calls(trace: seq<Event>): seq<Event>
  {
    if trace == [] then []
    else (if trace[0].IsCall() then [trace[0]] else []) + Calls(trace[1..])
  }

  predicate StrictlyIncreasing(xs: seq<int>)
  {
    forall i, j :: 0 <= i < j < |xs| ==> xs[i] < xs[j]
  }

  lemma {:induction false} PercentsAppend(a: seq<Event>, b: seq<Event>)
    ensures Percents(a + b) == Percents(a) + Percents(b)
    decreases |a|
  {
    if a == [] {
      assert a + b == b;
    } else {
      assert (a + b)[0] == a[0];
      assert (a + b)[1..] == a[1..] + b;
      PercentsAppend(a[1..], b);
    }
  }

  lemma {:induction false} CallsAppend(a: seq<Event>, b: seq<Event>)
    ensures Calls(a + b) == Calls(a) + Calls(b)
    decreases |a|
  {
    if a == [] {
      assert a + b == b;
    } else {
      var head := if a[0].IsCall() then [a[0]] else [];
      assert (a + b)[0] == a[0];
      assert (a + b)[1..] == a[1..] + b;
      calc {
        Calls(a + b);
        head + Calls(a[1..] + b);
        { CallsAppend(a[1..], b); }
        head + (Calls(a[1..]) + Calls(b));
        (head + Calls(a[1..])) + Calls(b);
        Calls(a) + Calls(b);
      }
    }
  }

  /** Calls keeps exactly the collaborator calls of a trace. */
  lemma {:induction false} CallsMembers(trace: seq<Event>)
    ensures forall e :: e in Calls(trace) <==> e in trace && e.IsCall()
    decreases |trace|
  {
    if trace != [] {
      CallsMembers(trace[1..]);
      assert trace == [trace[0]] + trace[1..];
    }
  }

  lemma PercentsCons(t: seq<Event>, k: nat)
    requires k < |t|
    ensures Percents(t[k..]) == (if t[k].Progress? then [t[k].percent] else []) + Percents(t[k + 1..])
  {
  }

  lemma CallsCons(t: seq<Event>, k: nat)
    requires k < |t|
    ensures Calls(t[k..]) == (if t[k].IsCall() then [t[k]] else []) + Calls(t[k + 1..])
  {
  }

  /** Without media the button only warns: no progress, no collaborator call,
      nothing displayed. */
  lemma NoVideoOnlyWarns(s: State, c: Collaborators)
    requires !HasVideo(s)
    ensures AnalyseTrace(s, c) == [Warning(NO_VIDEO_WARNING)]
    ensures Percents(AnalyseTrace(s, c)) == [] && Calls(AnalyseTrace(s, c)) == []
  {
  }

  /** With media the bar shows 0, 40, 70, 90 and 100 in that order. */
  lemma ProgressValues(s: State, c: Collaborators)
    requires HasVideo(s)
    ensures Percents(AnalyseTrace(s, c)) == [0, 40, 70, 90, 100]
    ensures StrictlyIncreasing(Percents(AnalyseTrace(s, c)))
    ensures forall x :: x in Percents(AnalyseTrace(s, c)) ==> 0 <= x <= 100
  {
    PercentsOfRun(AnalyseTrace(s, c));
  }

  /** With media each collaborator is called exactly once, visual before
      decoder before translator; the translator gets the decoder's output and
      the session's language code. */
  lemma CallOrder(s: State, c: Collaborators)
    requires HasVideo(s)
    ensures Calls(AnalyseTrace(s, c)) ==
      [VisualCall(s.videoPath.value), DecodeCall(s.videoPath.value),
       TranslateCall(c.decode(s.videoPath.value), s.targetLangCode)]
  {
    CallsOfRun(AnalyseTrace(s, c));
  }

  /** With media the last event displays (translation, transcript) for the
      session's language; the translation is the translator's answer to the
      decoder's transcript. */
  lemma DisplayedResult(s: State, c: Collaborators)
    requires HasVideo(s)
    ensures var t := AnalyseTrace(s, c);
      var raw := c.decode(s.videoPath.value);
      t[|t| - 1] == Show(Output(s.targetLang, c.translate(raw, s.targetLangCode), raw))
  {
  }

  /** The visual collaborator's answer affects nothing that is observed. */
  lemma VisualUnused(s: State, c: Collaborators, other: string -> Features)
    ensures AnalyseTrace(s, c) == AnalyseTrace(s, c.(visual := other))
  {
  }

  /** `n` copies of `xs`, one after the other. */
  function Repeat<T>(xs: seq<T>, n: nat): seq<T>
  {
    if n == 0 then [] else xs + Repeat(xs, n - 1)
  }

  /** Analysing the same session `n` times in a row: the progress bar runs
      0, 40, 70, 90, 100 once per press and each press calls the three
      collaborators once, in order. */
  lemma {:induction false} RepeatedAnalyses(s: State, c: Collaborators, n: nat)
    requires HasVideo(s)
    ensures Percents(Repeat(AnalyseTrace(s, c), n)) == Repeat([0, 40, 70, 90, 100], n)
    ensures Calls(Repeat(AnalyseTrace(s, c), n)) == Repeat(Calls(AnalyseTrace(s, c)), n)
    decreases n
  {
    if n > 0 {
      var t := AnalyseTrace(s, c);
      ProgressValues(s, c);
      PercentsAppend(t, Repeat(t, n - 1));
      CallsAppend(t, Repeat(t, n - 1));
      RepeatedAnalyses(s, c, n - 1);
    }
  }

  // The ten events of an analysis with media, taken apart one at a time.

  /** The shape of AnalyseTrace with media: which of its ten events are
      progress updates and which are collaborator calls. */
  predicate RunShape(t: seq<Event>)
  {
    && |t| == 10
    && t[0].Progress? && t[1].VisualCall? && t[2].Progress? && t[3].Progress?
    && t[4].DecodeCall? && t[5].Progress? && t[6].TranslateCall? && t[7].Progress?
    && t[8].ClearProgress? && t[9].Show?
  }

  lemma PercentsOfRun(t: seq<Event>)
    requires RunShape(t)
    ensures Percents(t) == [t[0].percent, t[2].percent, t[3].percent, t[5].percent, t[7].percent]
  {
    assert t[10..] == [];
    assert Percents(t[9..]) == [] by { PercentsCons(t, 9); }
    assert Percents(t[8..]) == [] by { PercentsCons(t, 8); }
    assert Percents(t[7..]) == [t[7].percent] by { PercentsCons(t, 7); }
    assert Percents(t[6..]) == [t[7].percent] by { PercentsCons(t, 6); }
    assert Percents(t[5..]) == [t[5].percent, t[7].percent] by { PercentsCons(t, 5); }
    assert Percents(t[4..]) == [t[5].percent, t[7].percent] by { PercentsCons(t, 4); }
    assert Percents(t[3..]) == [t[3].percent, t[5].percent, t[7].percent] by { PercentsCons(t, 3); }
    assert Percents(t[2..]) == [t[2].percent, t[3].percent, t[5].percent, t[7].percent] by { PercentsCons(t, 2); }
    assert Percents(t[1..]) == [t[2].percent, t[3].percent, t[5].percent, t[7].percent] by { PercentsCons(t, 1); }
    PercentsCons(t, 0);
    assert t[0..] == t;
  }

  lemma CallsOfRun(t: seq<Event>)
    requires RunShape(t)
    ensures Calls(t) == [t[1], t[4], t[6]]
  {
    assert t[10..] == [];
    assert Calls(t[9..]) == [] by { CallsCons(t, 9); }
    assert Calls(t[8..]) == [] by { CallsCons(t, 8); }
    assert Calls(t[7..]) == [] by { CallsCons(t, 7); }
    assert Calls(t[6..]) == [t[6]] by { CallsCons(t, 6); }
    assert Calls(t[5..]) == [t[6]] by { CallsCons(t, 5); }
    assert Calls(t[4..]) == [t[4], t[6]] by { CallsCons(t, 4); }
    assert Calls(t[3..]) == [t[4], t[6]] by { CallsCons(t, 3); }
    assert Calls(t[2..]) == [t[4], t[6]] by { CallsCons(t, 2); }
    assert Calls(t[1..]) == [t[1], t[4], t[6]] by { CallsCons(t, 1); }
    CallsCons(t, 0);
    assert t[0..] == t;
  }
}
