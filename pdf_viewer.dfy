/**
 * The `PDFViewer` component's playback controller: the component's state
 * hooks are fields, the utterance reference is `current`, the speech engine
 * is `synth`, and every handler is a method whose effect on the whole state
 * is the matching transition of `ViewerSpec`.
 */
module PDFViewer {
  import opened Wrappers
  import opened Speech
  import PageText
  import ViewerSpec

  class Controller {
    var hasFile: bool
    var numPages: nat
    var pageNumber: int
    var isPlaying: bool
    var isLoading: bool
    var text: string
    var rate: int
    var volume: int
    /** `speechSynthesisRef.current` */
    var current: Option<Utterance>
    const synth: Synthesizer
    /** Titles of the notifications shown so far. */
    ghost var notices: seq<string>
    /** Pages whose text extraction was started, in order. */
    ghost var requests: seq<int>
    /** File reads started and not yet completed. */
    ghost var outstanding: nat

    ghost function Snapshot(): ViewerSpec.State
      reads this, synth
    {
      ViewerSpec.State(hasFile, numPages, pageNumber, isPlaying, isLoading, text, rate, volume,
                       current, synth.Value(), notices, requests, outstanding)
    }

    ghost predicate Valid()
      reads this, synth
    {
      ViewerSpec.Valid(Snapshot())
    }

    constructor ()
      ensures Valid() && fresh(synth)
      ensures Snapshot() == ViewerSpec.Initial()
    {
      hasFile, numPages, pageNumber := false, 0, 1;
      isPlaying, isLoading, text := false, false, "";
      rate, volume, current := ViewerSpec.DefaultRate, ViewerSpec.DefaultVolume, None;
      synth := new Synthesizer();
      notices, requests, outstanding := [], [], 0;
    }

    /** `onDocumentLoadSuccess`: the document reports its page count. */
    method OnDocumentLoadSuccess(n: nat)
      requires Valid() && hasFile
      modifies this
      ensures Valid()
      ensures Snapshot() == ViewerSpec.OnDocumentLoadSuccess(old(Snapshot()), n)
    {
      numPages := n;
      pageNumber := 1;
      notices := notices + [ViewerSpec.PdfLoaded];
    }

    /** `handleFileChange`: `picked` says whether the input holds a file. */
    method HandleFileChange(picked: bool)
      requires Valid()
      modifies this, synth
      ensures Valid()
      ensures Snapshot() == ViewerSpec.HandleFileChange(old(Snapshot()), picked)
    {
      if picked {
        hasFile := true;
        StopSpeech();
      }
    }

    /** `extractTextFromPage(pageNum)`, up to the start of the file read. */
    method ExtractTextFromPage(pageNum: int, readerThrows: bool)
      modifies this
      ensures Snapshot() == ViewerSpec.ExtractTextFromPage(old(Snapshot()), pageNum, readerThrows)
    {
      if !hasFile {
        return;
      }
      isLoading := true;
      requests := requests + [pageNum];
      if readerThrows {
        notices := notices + [ViewerSpec.ExtractionFailed];
        isLoading := false;
      } else {
        outstanding := outstanding + 1;
      }
    }

    /** The file read's `onload`: the page's text items arrived. */
    method OnTextExtracted(tokens: seq<string>)
      requires Valid() && outstanding > 0
      modifies this, synth
      ensures Valid()
      ensures Snapshot() == ViewerSpec.OnTextExtracted(old(Snapshot()), tokens)
    {
      outstanding := outstanding - 1;
      var pageText := PageText.JoinTokens(tokens);
      text := pageText;
      isLoading := false;
      if isPlaying {
        SpeakText(pageText);
      }
    }

    /** The pdf.js calls inside `onload` rejected; nothing handles it. */
    method OnExtractionRejected()
      requires Valid() && outstanding > 0
      modifies this
      ensures Valid()
      ensures Snapshot() == ViewerSpec.OnExtractionRejected(old(Snapshot()))
    {
      outstanding := outstanding - 1;
    }

    /** `speakText(textToSpeak)` */
    method SpeakText(textToSpeak: string)
      modifies this, synth
      ensures Snapshot() == ViewerSpec.SpeakText(old(Snapshot()), textToSpeak)
    {
      if synth.Speaking() {
        synth.Cancel();
      }
      var utterance := Utterance(textToSpeak, rate, volume);
      current := Some(utterance);
      synth.Speak(utterance);
    }

    /** `utterance.onend`, after the engine finished the queued utterance. */
    method OnUtteranceEnd(readerThrows: bool)
      requires Valid() && synth.queue != [] && !synth.paused
      modifies this, synth
      ensures Valid()
      ensures Snapshot() == ViewerSpec.OnUtteranceEnd(old(Snapshot()), readerThrows)
    {
      var _ := synth.Finish();
      if pageNumber < ViewerSpec.LastPage(numPages) {
        GoToNextPage(readerThrows);
      } else {
        isPlaying := false;
        notices := notices + [ViewerSpec.ReadingComplete];
      }
    }

    /** `togglePlayPause` */
    method TogglePlayPause(readerThrows: bool)
      requires Valid()
      modifies this, synth
      ensures Valid()
      ensures Snapshot() == ViewerSpec.TogglePlayPause(old(Snapshot()), readerThrows)
    {
      if !hasFile {
        notices := notices + [ViewerSpec.NoPdfLoaded];
        return;
      }
      if isPlaying {
        synth.Pause();
      } else {
        if synth.paused {
          synth.Resume();
        } else {
          ExtractTextFromPage(pageNumber, readerThrows);
        }
      }
      isPlaying := !isPlaying;
    }

    /** `stopSpeech` */
    method StopSpeech()
      modifies this, synth
      ensures Snapshot() == ViewerSpec.StopSpeech(old(Snapshot()))
    {
      if synth.Speaking() {
        synth.Cancel();
      }
      isPlaying := false;
    }

    /** `goToNextPage` */
    method GoToNextPage(readerThrows: bool)
      requires Valid()
      modifies this, synth
      ensures Valid()
      ensures Snapshot() == ViewerSpec.GoToNextPage(old(Snapshot()), readerThrows)
    {
      if pageNumber < ViewerSpec.LastPage(numPages) {
        StopSpeech();
        pageNumber := pageNumber + 1;
        ExtractTextFromPage(pageNumber, readerThrows);
      }
    }

    /** `goToPrevPage` */
    method GoToPrevPage(readerThrows: bool)
      requires Valid()
      modifies this, synth
      ensures Valid()
      ensures Snapshot() == ViewerSpec.GoToPrevPage(old(Snapshot()), readerThrows)
    {
      if pageNumber > 1 {
        StopSpeech();
        pageNumber := pageNumber - 1;
        ExtractTextFromPage(pageNumber, readerThrows);
      }
    }

    /** The speed slider (`setRate`), whose range is 0.5 to 2 in steps of 0.1. */
    method SetRate(r: int)
      requires Valid() && ViewerSpec.MinRate <= r <= ViewerSpec.MaxRate
      modifies this
      ensures Valid()
      ensures Snapshot() == ViewerSpec.SetRate(old(Snapshot()), r)
    {
      rate := r;
    }

    /** The volume slider (`setVolume`), whose range is 0 to 1 in steps of 0.1. */
    method SetVolume(v: int)
      requires Valid() && ViewerSpec.MinVolume <= v <= ViewerSpec.MaxVolume
      modifies this
      ensures Valid()
      ensures Snapshot() == ViewerSpec.SetVolume(old(Snapshot()), v)
    {
      volume := v;
    }
  }
}
