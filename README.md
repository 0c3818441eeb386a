# Read-aloud playback controller of the PDF viewer

This project models the playback controller inside the `PDFViewer` component
of the Audiophile PDF Reader (`src/components/PDFViewer.tsx`). The user
chooses a PDF file. The component extracts the text of the current page, and
the browser's speech engine reads that text aloud at a chosen rate and volume.
The user can pause, resume, and move to the next or previous page. When an
utterance ends, the viewer moves on to the next page.

The model has five modules:

- `Wrappers` (`wrappers.dfy`): `Option`. It stands for the nullable utterance reference.
- `PageText` (`page_text.dfy`): how a page's text items are joined into the
  text that gets spoken. `SplitAtSpaces` is its inverse, and a round-trip
  lemma connects the two.
- `Speech` (`speech.dfy`): the platform speech engine. It is a class
  `Synthesizer` holding a queue of utterances and a `paused` flag. The engine
  is "speaking" exactly when its queue is non-empty.
- `ViewerSpec` (`viewer_spec.dfy`): the controller as a value-level state
  machine, with one transition function per handler of the component. It
  defines the invariant `Valid`, event traces (`Event`, `Step`, `Run`) and
  the lemmas that state what each handler promises.
- `PDFViewer` (`pdf_viewer.dfy`): the class `Controller`. Its fields are the
  component's state hooks (`numPages`, `pageNumber`, `isPlaying`, `isLoading`,
  `text`, `rate`, `volume`), the utterance reference `current`, and the
  engine `synth`. Ghost logs record the notifications raised, the pages whose
  extraction was started and the file reads still in flight. Each handler is
  a method. Its postcondition states its whole effect: the new `Snapshot()`
  is the matching `ViewerSpec` transition of the old one, and `Valid()` is
  kept.

Representation choices:

- A `numPages` of `null` is 0, so `numPages || 1` becomes `LastPage`.
- `rate` and `volume` are whole numbers of tenths, matching the sliders' step
  of 0.1. The rate runs from 5 to 20 (0.5x to 2x) and the volume from 0 to 10.
  Both start at 10.
- Notifications are kept as their titles only.
- I/O outcomes are parameters or events:
  - `readerThrows` says whether starting the file read throws. That is the
    only failure the `try`/`catch` at lines 49-75 catches.
  - `OnTextExtracted(tokens)` delivers the strings of the page's text items.
  - `OnExtractionRejected` stands for a pdf.js call inside the read callback
    rejecting.
  - `OnUtteranceEnd` is the engine finishing the queued utterance.

React applies `setState` updates at the next render, and the component's
callbacks read state captured when they were created. The model instead
applies every update immediately, in program order, and every callback reads
the current state. This matters at line 61 (`isPlaying` inside `onload`),
line 89 (`pageNumber` inside `onend`) and line 137 (`pageNumber + 1`).

Under that immediate-update reading, the model behaves as follows. Where
the reading changes the outcome, the source's own behaviour is listed under
"## Left out":

- When an utterance ends before the last page, `onend` calls `goToNextPage`.
  That calls `stopSpeech`, which clears `isPlaying` before the new page's
  text arrives. So in the model the next page's text is fetched and stored
  but not spoken: reading stops after auto-advance
  (`AutoAdvanceStopsReading`, `ThreePageScenario`).
- In the model, next and previous page always clear `isPlaying` before the
  new page's text arrives, so they never resume reading on the new page.
- Choosing a new file stops speech. It does not reset the page and does not
  request any text. The page goes back to 1 only when the document reports
  its page count.
- There is no error state and no empty-text check; empty text is spoken like
  any other. There is no guard against a stale completion, no voice
  selection, no test audio and no live rate restart. None of these is modelled.
- A rejection inside the read callback is not caught. `isLoading` stays set
  and no notification is shown (`RejectionLeavesLoading`).

## Model

| member | source | states |
|---|---|---|
| `PageText.JoinTokens` | src/components/PDFViewer.tsx:57 | No tokens give the empty text. Otherwise the text's length is the tokens' total length plus one separator between each pair of neighbours, and the text starts with the first token. |
| `PageText.SplitJoin` | src/components/PDFViewer.tsx:57 | When no token contains a space, cutting the joined text at its spaces gives back exactly the tokens, in source order. Joining loses and reorders nothing. |
| `PageText.JoinAppend` | src/components/PDFViewer.tsx:57 | Joining two non-empty runs of tokens is joining each run and putting a single space between them. |
| `Speech.Synthesizer.Cancel` | src/components/PDFViewer.tsx:127-129 | `cancel` leaves nothing queued and the engine not paused. This is an assumption about the platform. |
| `Speech.Synthesizer.Pause` | src/components/PDFViewer.tsx:114 | `pause` sets the paused flag and keeps the queue. |
| `Speech.Synthesizer.Resume` | src/components/PDFViewer.tsx:117 | `resume` clears the paused flag and keeps the queue. |
| `Speech.Synthesizer.Speak` | src/components/PDFViewer.tsx:100 | `speak(u)` appends `u` to the queue. |
| `Speech.Synthesizer.Finish` | src/components/PDFViewer.tsx:88 | Only a queued, unpaused utterance can finish. The finished one is the head of the queue, and it leaves the queue. |
| `ViewerSpec.LastPage` | src/components/PDFViewer.tsx:134 | The last page (`numPages`, or 1 while unknown) is at least 1 and at least `numPages`, and equals `numPages` once that is known. |
| `ViewerSpec.InitialValid` | src/components/PDFViewer.tsx:17-25 | On mount the state satisfies the invariant, on page 1, not playing and with nothing spoken. |
| `ViewerSpec.StepPreservesValid` | src/components/PDFViewer.tsx:27-147 | Every event keeps the invariant: 1 ≤ page ≤ the last page, rate and volume within the slider bounds, at most one queued utterance, and that utterance is the referenced one. With no file there is no page count, nothing in flight, no playing and no speech. |
| `ViewerSpec.RunPreservesValid` | src/components/PDFViewer.tsx:27-147 | Any sequence of events from a valid state ends in a valid state. |
| `ViewerSpec.ReachableValid` | src/components/PDFViewer.tsx:17-147 | Every state reachable from mount satisfies the invariant, so the page is always within bounds. |
| `ViewerSpec.DocumentLoadResets` | src/components/PDFViewer.tsx:27-34 | A document load records the page count, returns to page 1 and notifies "PDF Loaded Successfully". Playing, speech and text are untouched. |
| `ViewerSpec.FileChangeStops` | src/components/PDFViewer.tsx:36-43 | Choosing a file stops speech and playing. The page, the page count, the requests and the notifications are unchanged. |
| `ViewerSpec.NextPageBehaviour` | src/components/PDFViewer.tsx:133-139 | Before the last page, speech stops, playing stops, the page rises by exactly 1 and that page's text is requested. At the last page nothing changes. |
| `ViewerSpec.PrevPageBehaviour` | src/components/PDFViewer.tsx:141-147 | Above page 1, speech stops, playing stops, the page falls by exactly 1 and that page's text is requested. At page 1 nothing changes. |
| `ViewerSpec.NextThenPrev` | src/components/PDFViewer.tsx:133-147 | Next then previous from a page before the last returns to that page with nothing speaking. The two pages are requested in order. |
| `ViewerSpec.PlayWithoutFile` | src/components/PDFViewer.tsx:104-111 | Play/pause without a file only adds the "No PDF Loaded" notification. All other state, `isPlaying` included, is unchanged. |
| `ViewerSpec.PlayPauseWithFile` | src/components/PDFViewer.tsx:113-123 | With a file, `isPlaying` flips once. If playing, the engine is paused. If not playing and the engine is paused, it resumes. Otherwise the current page's text is requested. The page stays. |
| `ViewerSpec.SpeakCancelsFirst` | src/components/PDFViewer.tsx:78-100 | After speaking, exactly the new utterance is queued, so whatever was speaking was cancelled. It carries the current rate and volume and is the current reference. |
| `ViewerSpec.ExtractionBehaviour` | src/components/PDFViewer.tsx:57-63 | A finished read stores the joined text and clears `isLoading`. If playing, exactly an utterance of that text is queued; otherwise the engine is untouched. |
| `ViewerSpec.ExtractionWithoutFile` | src/components/PDFViewer.tsx:46 | Without a file, extraction changes nothing. |
| `ViewerSpec.ExtractionCaughtFailure` | src/components/PDFViewer.tsx:67-75 | A read that throws on start leaves `isLoading` clear and notifies "Error". Nothing stays in flight and the engine is untouched. |
| `ViewerSpec.RejectionLeavesLoading` | src/components/PDFViewer.tsx:52-56 | A rejection inside the read callback leaves `isLoading`, the text and the notifications as they were. |
| `ViewerSpec.UtteranceEndBehaviour` | src/components/PDFViewer.tsx:88-98 | At the end of an utterance playing stops and nothing speaks. Before the last page the page rises by 1 and its text is requested. On the last page the page stays and "Reading Complete" is notified. |
| `ViewerSpec.AutoAdvanceStopsReading` | src/components/PDFViewer.tsx:88-98 | After an auto-advance, the next page's text arrives and is stored, but it is not spoken and `isPlaying` is false. |
| `ViewerSpec.ThreePageScenario` | src/components/PDFViewer.tsx:27-139 | For a three-page document: choose, load, play and extract leaves page 1 being spoken at the default rate and volume. Utterance end plus the next extraction leaves page 2's text stored and unspoken, with pages 1 and 2 requested. |
| `ViewerSpec.SlidersAffectNextUtterance` | src/components/PDFViewer.tsx:160-178 | The next utterance spoken after a slider change carries the new rate or volume, and the other value unchanged. An utterance already queued keeps the values it was built with. |
| `PDFViewer.Controller.constructor` | src/components/PDFViewer.tsx:17-25 | The initial state of the hooks and the reference, which satisfies the invariant. |
| `PDFViewer.Controller.OnDocumentLoadSuccess` | src/components/PDFViewer.tsx:27-34 | The new state is the document-load transition of the old one, and the invariant is kept. |
| `PDFViewer.Controller.HandleFileChange` | src/components/PDFViewer.tsx:36-43 | The new state is the file-change transition of the old one, and the invariant is kept. |
| `PDFViewer.Controller.ExtractTextFromPage` | src/components/PDFViewer.tsx:45-76 | The new state is the extraction-start transition: no-op without a file, otherwise loading and requested, or caught failure. |
| `PDFViewer.Controller.OnTextExtracted` | src/components/PDFViewer.tsx:52-63 | The new state is the read-completion transition of the old one, and the invariant is kept. |
| `PDFViewer.Controller.OnExtractionRejected` | src/components/PDFViewer.tsx:52-56 | The new state is the rejection transition of the old one, and the invariant is kept. |
| `PDFViewer.Controller.SpeakText` | src/components/PDFViewer.tsx:78-101 | The new state is the speak transition: cancel-if-speaking, then a new utterance with the current rate and volume as the reference. |
| `PDFViewer.Controller.OnUtteranceEnd` | src/components/PDFViewer.tsx:88-98 | The new state is the utterance-end transition of the old one, and the invariant is kept. |
| `PDFViewer.Controller.TogglePlayPause` | src/components/PDFViewer.tsx:103-124 | The new state is the play/pause transition of the old one, and the invariant is kept. |
| `PDFViewer.Controller.StopSpeech` | src/components/PDFViewer.tsx:126-131 | The new state is the stop transition: the engine is cancelled if speaking, and playing is cleared. |
| `PDFViewer.Controller.GoToNextPage` | src/components/PDFViewer.tsx:133-139 | The new state is the next-page transition of the old one, and the invariant is kept. |
| `PDFViewer.Controller.GoToPrevPage` | src/components/PDFViewer.tsx:141-147 | The new state is the previous-page transition of the old one, and the invariant is kept. |
| `PDFViewer.Controller.SetRate` | src/components/PDFViewer.tsx:160-166 | Only the rate changes, to a value within the slider's bounds. |
| `PDFViewer.Controller.SetVolume` | src/components/PDFViewer.tsx:172-178 | Only the volume changes, to a value within the slider's bounds. |

## Left out

- Rendering (src/components/PDFViewer.tsx:149-243), src/components/Footer.tsx, src/components/Navigation.tsx and src/pages/Index.tsx: layout, static links and composition, with no controller logic. This includes the buttons' `disabled` conditions (lines 211, 219 and 233). The model lets every event reach its handler, and the handlers make their own checks.
- The pdf.js worker set-up (line 14), `FileReader`, and `getDocument`, `getPage` and `getTextContent` (lines 50-66). These are I/O. The model receives their outcome as the `readerThrows` parameter or as the `OnTextExtracted` and `OnExtractionRejected` events. Text items are given by their `str` strings.
- Which file is loaded: only whether one has been chosen. A read started for an earlier file may still complete after a new file is chosen. The model treats it like any other completion.
- The browser's speech engine. It is abstracted as a queue plus a paused flag. The model assumes that `cancel` empties the queue and clears the paused flag, and that a cancelled utterance's `onend` never runs.
- React's deferred state updates and the stale values captured by callbacks. Updates are applied immediately, in order, and every callback reads the current state. The source behaves differently in three ways the model does not capture:
  - The `onload` callback reads the `isPlaying` of the render that started the extraction (line 61). So `goToNextPage` and `goToPrevPage` run from a render where `isPlaying` is true, including the call from `onend` (lines 88-90), do speak the new page, even though `stopSpeech` has queued `setIsPlaying(false)`.
  - `togglePlayPause` starts the extraction (line 119) before `setIsPlaying` (line 123), so pressing Play from idle sees `isPlaying` false at line 61 and does not speak.
  - `onend` reads a possibly stale `pageNumber` (line 89), while the page update is functional (`prev => prev + 1`, line 136). Together they can move the page past `numPages`. The page bound of `ReachableValid` therefore holds for the model only.
- Floating-point `rate` and `volume`. They are whole tenths, and the slider bounds are preconditions of `SetRate` and `SetVolume`.
- Notification descriptions and styles, and the `console.error` call at line 68. Only titles are kept.
