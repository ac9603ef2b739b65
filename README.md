# Lip Decoder: session navigation and the analyse workflow

This project models the control logic of the Lip Decoder Streamlit app
(`app.py`). It has two parts.

The first is the session record. It has five fields: the current page, the
chosen input method, the target language's display name and code, and the
media path. Five handlers change it in place: `next_page`, `prev_page`,
`reset_app`, `set_input` and `set_language`. On top of them sits the
four-page dispatch:

- the splash page offers "Explore Now";
- the input page offers Back, "upload" and "live";
- the language page offers Back and five (name, code) buttons;
- the analyse page offers "Start Over", storing an uploaded or recorded
  media path, and the analyse button.

The second part is what the analyse button does. It first checks the media
path and shows a warning when there is none. Otherwise it runs a fixed
script: progress updates at 0, 40, 70, 90 and 100 percent, with calls to
the visual, decoder and translator collaborators in between. It then clears
the progress bar and shows the translation together with the transcript it
came from.

Files and modules:

- `navigation.dfy`, module `Navigation`. The record as a value (`State`),
  the handlers as functions, the controls (`Action`), which page offers
  which control (`Offered`), what each control does (`Apply`), button
  sequences (`Run`) and the invariant `Inv`. It proves that a session
  reachable from the initial one is exactly one that satisfies `Inv`.
- `pipeline.dfy`, module `Pipeline`. The analyse branch as the event trace
  it produces (`AnalyseTrace`), with lemmas about its progress values, its
  collaborator calls and the displayed result.
- `app.dfy`, module `App`. The imperative model:
  - class `Session` is the session record, with one method per handler;
  - class `Screen` is the log of what the page script showed;
  - method `Analyse` appends the analyse script's events step by step;
  - method `Click` dispatches one button press by page.

  The constructor, the six `Session` handlers, `Analyse` and `Click` each
  state their result as a value-level definition from `Navigation` or
  `Pipeline` applied to the old state. `Screen.Emit` just appends one
  event to the log.

The three collaborators (`visual_feature_extraction`, `deep_lip_decode`,
`translate_content`) are parameters. They are arbitrary total functions
(`Pipeline.Collaborators`), so every property holds whatever they compute.
Calling a collaborator is recorded as an event in the trace. The visual
collaborator's result is computed and then dropped, as in the source.

Input is modelled as the control the user presses: a value of `Action`
passed to `Click`. Uploaded and recorded media also arrive this way, as the
path carried by `UploadVideo(p)` or `RecordVideo(p)`. Such a path is never
empty, because both come from temporary-file names.

## Model

| member | source | states |
|---|---|---|
| Navigation.NextPage | app.py:66 | the record with the page one higher |
| Navigation.PrevPage | app.py:69 | the record with the page one lower, with no lower bound |
| Navigation.ResetApp | app.py:72-75 | the record on page 1 with no input method and no media path |
| Navigation.SetInput | app.py:78-80 | the record with the given input method, then moved on one page |
| Navigation.SetLanguage | app.py:83-86 | the record with the given (name, code), then moved on one page |
| Navigation.SetVideoPath | app.py:199-213 | the record with the given media path |
| Navigation.Offered | app.py:157-219 | which controls each page shows: Explore Now on 1; Back and upload/live on 2; Back and the five language pairs on 3; Start Over, a non-empty upload path (upload chosen), a non-empty recording path (live chosen) and Analyse on 4; nothing on any other page number |
| Navigation.Apply | app.py:157-219 | the handler each control runs; the analyse button leaves the record unchanged |
| Navigation.Inv | app.py:157-213 | page in 1..4; language one of the five pairs; input method absent, upload or live; an input method on pages 3 and 4; a media path only on page 4 and never empty |
| Pipeline.HasVideo | app.py:220 | Python truthiness of the media path: present and not empty |
| Pipeline.AnalyseTrace | app.py:219-251 | without media, only the warning; with media, progress 0, visual(path), progress 40, progress 70, decode(path), progress 90 "Translating to <lang>...", translate(transcript, code), progress 100, clearing the bar, then the result box |
| App.Session.constructor | app.py:21-25 | a fresh session is page 1, no input method, English/en, no media path; it satisfies the invariant |
| App.Session.NextPage | app.py:66 | the page goes up by one and no other field changes; the new snapshot is `NextPage` of the old one |
| App.Session.PrevPage | app.py:69 | the page goes down by one and no other field changes; the new snapshot is `PrevPage` of the old one |
| App.Session.ResetApp | app.py:72-75 | page 1, with no media path and no input method; the language name and code are kept; the new snapshot is `ResetApp` of the old one |
| App.Session.SetInput | app.py:78-80 | the input method becomes exactly the argument and the page goes up by one; the media path and the language are unchanged; the new snapshot is `SetInput` of the old one |
| App.Session.SetLanguage | app.py:83-86 | the language becomes exactly (name, code) and the page goes up by one; the input method and the media path are unchanged; the new snapshot is `SetLanguage` of the old one |
| App.Session.SetVideoPath | app.py:199-213 | the upload or recording branch stores the new path; nothing else changes; the new snapshot is `SetVideoPath` of the old one |
| App.Analyse | app.py:219-251 | it appends exactly `AnalyseTrace` of the session to the screen log: only a warning when there is no media, otherwise the full progress/collaborator/result script |
| App.Click | app.py:157-219 | a press is handled iff the current page offers that control; a handled press changes the session by `Apply` and an ignored one changes nothing; the screen changes only by the analyse trace; the invariant is preserved |
| Navigation.PrevUndoesNext | app.py:66-69 | `prev_page` after `next_page` restores the record, and so does the reverse order |
| Navigation.ResetKeepsLanguage | app.py:72-75 | reset yields page 1, no input method, no media path and the old language pair |
| Navigation.SetterFrames | app.py:78-86 | `set_input` changes only the input method and the page (+1); `set_language` changes only the language pair and the page (+1) |
| Navigation.InitialInv | app.py:21-25 | the initial session satisfies the invariant |
| Navigation.StepPreservesInv | app.py:157-196 | any control a page offers keeps the invariant: page in 1..4, language one of the five pairs, input method absent or upload/live, pages 3 and 4 only with an input method, media only on page 4 and never empty |
| Navigation.RunPreservesInv | app.py:157-196 | every sequence of offered controls keeps the invariant |
| Navigation.ReachableIsInv | app.py:21-25 | a session reachable from the initial one by offered controls satisfies the invariant |
| Navigation.InvIsReachable | app.py:157-196 | every session satisfying the invariant is reachable from the initial one |
| Navigation.ReachableIffInv | app.py:157-196 | reachable sessions are exactly those satisfying the invariant |
| Navigation.RunAppend | app.py:157-196 | pressing two control sequences one after the other is the same as pressing their concatenation |
| Pipeline.NoVideoOnlyWarns | app.py:219-221 | with no media path, or an empty one, the trace is the single warning: no progress event, no collaborator call, no result |
| Pipeline.ProgressValues | app.py:224-240 | with media the progress values are exactly 0, 40, 70, 90, 100: strictly increasing and within 0..100 |
| Pipeline.CallOrder | app.py:228-238 | with media the calls are visual(path), decode(path) and translate(decoder output, session code), each exactly once and in that order |
| Pipeline.DisplayedResult | app.py:234-251 | the last event shows the session's language, the translator's answer for the decoder's transcript, and that transcript |
| Pipeline.VisualUnused | app.py:228 | replacing the visual collaborator changes nothing observable |
| Pipeline.CallsMembers | app.py:228-238 | the call projection keeps exactly the collaborator-call events of a trace |
| Pipeline.PercentsAppend | app.py:224-240 | the progress projection distributes over concatenation of traces |
| Pipeline.CallsAppend | app.py:228-238 | the call projection distributes over concatenation of traces |
| Pipeline.RepeatedAnalyses | app.py:219-240 | n presses of analyse on the same session with media show n runs of 0, 40, 70, 90, 100 and n copies of the three calls |

## Left out

- `record_av_segment` (app.py:90-128) is not modelled. It does camera and
  microphone capture, runs a loop bounded by wall-clock time, and waits for
  a background recording. That is device I/O, timing and concurrency. Only
  its result is modelled: a non-empty path given to `Session.SetVideoPath`.
- The moviepy merge and the temp-file cleanup (app.py:130-151) are not
  modelled. Both wrap an external media library. The choice of which path
  is returned is folded into "some non-empty path".
- The upload widget and temp-file writing (app.py:199-205) are file I/O.
  They are modelled only as the path they yield.
- The bodies of `visual_feature_extraction`, `deep_lip_decode` and
  `translate_content` are not part of this model. The model treats them as
  arbitrary functions, and a collaborator that raises is not modelled.
- Not modelled, because it is presentation or timing with nothing to
  verify:
  - page configuration, the CSS and the markdown/HTML of each page;
  - the logo check;
  - `st.video` previews;
  - `time.sleep`.
- The progress bar and the result box are modelled as events in a log.
  How they are rendered is not modelled.
- Streamlit's rerun is not modelled. The script runs again after every
  interaction, and at most one button reports a press per rerun. The model
  treats one rerun as one `Click`, apart from the upload case below.
- An upload is rewritten on every rerun of page 4 (app.py:200-204).
  While an upload is held, each rerun writes a fresh temporary file and
  stores its path before the analyse check at app.py:219. So a press of
  ANALYZE with an upload is two `Click`s in the model: `UploadVideo` with
  the fresh path, then `AnalyseLipMovements`. The file analysed is always
  that fresh copy of the upload.
- The collaborators are modelled as deterministic functions that share no
  state with each other or with the app. `Pipeline.VisualUnused` holds only
  under that assumption: a real visual step could influence the decoder
  through a cache or a file.
- The "2 MINUTES" text against `duration=60` (app.py:208, 211) is UI text
  only and is not modelled.
- App.Analyse: when a collaborator raises, the source leaves a partial
  trace. The model's collaborators are total, so that case does not occur.
