/**
  The Lip Decoder app as it runs: the session record updated in place by the
  button handlers, the screen that the page script writes to, the analyse
  script and the per-page dispatch of one button press.
 */
module App {
  import opened Navigation
  import opened Pipeline

  /** The session record that survives between reruns of the page script. */
  class Session {
    var page: int
    var inputMethod: Option<string>
    var targetLang: string
    var targetLangCode: string
    var videoPath: Option<string>

    function Snapshot(): State
      reads this
    {
      State(page, inputMethod, targetLang, targetLangCode, videoPath)
    }

    /** The defaults a fresh session gets. */
    constructor ()
      ensures Snapshot() == INITIAL
      ensures Inv(Snapshot())
    {
      page := 1;
      inputMethod := None;
      targetLang := "English";
      targetLangCode := "en";
      videoPath := None;
    }

    method NextPage()
      modifies this
      ensures page == old(page) + 1
      ensures inputMethod == old(inputMethod) && videoPath == old(videoPath)
      ensures targetLang == old(targetLang) && targetLangCode == old(targetLangCode)
      ensures Snapshot() == Navigation.NextPage(old(Snapshot()))
    {
      page := page + 1;
    }

    method PrevPage()
      modifies this
      ensures page == old(page) - 1
      ensures inputMethod == old(inputMethod) && videoPath == old(videoPath)
      ensures targetLang == old(targetLang) && targetLangCode == old(targetLangCode)
      ensures Snapshot() == Navigation.PrevPage(old(Snapshot()))
    {
      page := page - 1;
    }

    /** Back to the splash page, forgetting the input and the media but
        keeping the language. */
    method ResetApp()
      modifies this
      ensures page == 1 && videoPath == None && inputMethod == None
      ensures targetLang == old(targetLang) && targetLangCode == old(targetLangCode)
      ensures Snapshot() == Navigation.ResetApp(old(Snapshot()))
    {
      page := 1;
      videoPath := None;
      inputMethod := None;
    }

    method SetInput(choice: string)
      modifies this
      ensures inputMethod == Some(choice) && page == old(page) + 1
      ensures videoPath == old(videoPath)
      ensures targetLang == old(targetLang) && targetLangCode == old(targetLangCode)
      ensures Snapshot() == Navigation.SetInput(old(Snapshot()), choice)
    {
      inputMethod := Some(choice);
      NextPage();
    }

    method SetLanguage(name: string, code: string)
      modifies this
      ensures targetLang == name && targetLangCode == code && page == old(page) + 1
      ensures inputMethod == old(inputMethod) && videoPath == old(videoPath)
      ensures Snapshot() == Navigation.SetLanguage(old(Snapshot()), name, code)
    {
      targetLang := name;
      targetLangCode := code;
      NextPage();
    }

    /** Page 4 storing the temporary file an upload or a recording produced. */
    method SetVideoPath(path: string)
      modifies this
      ensures videoPath == Some(path)
      ensures page == old(page) && inputMethod == old(inputMethod)
      ensures targetLang == old(targetLang) && targetLangCode == old(targetLangCode)
      ensures Snapshot() == Navigation.SetVideoPath(old(Snapshot()), path)
    {
      videoPath := Some(path);
    }
  }

  /** What the page script has shown so far, as a log of events. */
  class Screen {
    var events: seq<Event>

    constructor ()
      ensures events == []
    {
      events := [];
    }

    method Emit(e: Event)
      modifies this
      ensures events == old(events) + [e]
    {
      events := events + [e];
    }
  }

  /** The "ANALYZE LIP MOVEMENTS" button: warn when there is no media,
      otherwise run the three collaborators between progress updates and
      show the translation with its transcript. */
  method Analyse(session: Session, screen: Screen, c: Collaborators)
    modifies screen
    ensures screen.events == old(screen.events) + AnalyseTrace(session.Snapshot(), c)
  {
    if session.videoPath == None || session.videoPath.value == "" {
      screen.Emit(Warning(NO_VIDEO_WARNING));
      return;
    }
    var path := session.videoPath.value;
    screen.Emit(Progress(0, LABEL_START));
    screen.Emit(VisualCall(path));
    var _ := c.visual(path);  // the features are not used further
    screen.Emit(Progress(40, LABEL_VISUAL));
    screen.Emit(Progress(70, LABEL_DECODE));
    screen.Emit(DecodeCall(path));
    var rawText := c.decode(path);
    screen.Emit(Progress(90, TranslatingLabel(session.targetLang)));
    screen.Emit(TranslateCall(rawText, session.targetLangCode));
    var translated := c.translate(rawText, session.targetLangCode);
    screen.Emit(Progress(100, LABEL_DONE));
    screen.Emit(ClearProgress);
    screen.Emit(Show(Output(session.targetLang, translated, rawText)));
  }

  /** One press of control `a`: the page the session is on decides whether it
      is there and which handler it runs. */
  method Click(session: Session, screen: Screen, c: Collaborators, a: Action) returns (handled: bool)
    modifies session, screen
    ensures handled == Offered(old(session.Snapshot()), a)
    ensures session.Snapshot() == if handled then Apply(old(session.Snapshot()), a) else old(session.Snapshot())
    ensures screen.events == old(screen.events)
      + if handled && a.AnalyseLipMovements? then AnalyseTrace(old(session.Snapshot()), c) else []
    ensures Inv(old(session.Snapshot())) ==> Inv(session.Snapshot())
  {
    ghost var before := session.Snapshot();
    handled := false;
    if session.page == 1 {
      if a.ExploreNow? {
        session.NextPage();
        handled := true;
      }
    } else if session.page == 2 {
      if a.Back? {
        session.PrevPage();
        handled := true;
      } else if a.ChooseInput? && a.choice in INPUT_METHODS {
        session.SetInput(a.choice);
        handled := true;
      }
    } else if session.page == 3 {
      if a.Back? {
        session.PrevPage();
        handled := true;
      } else if a.ChooseLanguage? && (a.name, a.code) in LANGUAGES {
        session.SetLanguage(a.name, a.code);
        handled := true;
      }
    } else if session.page == 4 {
      if a.StartOver? {
        session.ResetApp();
        handled := true;
      } else if a.UploadVideo? && session.inputMethod == Some("upload") && a.path != "" {
        session.SetVideoPath(a.path);
        handled := true;
      } else if a.RecordVideo? && session.inputMethod == Some("live") && a.path != "" {
        session.SetVideoPath(a.path);
        handled := true;
      } else if a.AnalyseLipMovements? {
        Analyse(session, screen, c);
        handled := true;
      }
    }
    if handled && Inv(before) {
      StepPreservesInv(before, a);
    }
  }
}
