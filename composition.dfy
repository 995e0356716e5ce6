/** The composition controller: the poster designer's whole state, the
    actions the control panel triggers on it, the download filename, and
    what the preview pane shows for a state. */
module Composition {
  import opened JsText
  import opened Templates
  import opened Layout
  import opened DateUtils

  /** The sentence the preview holds before anything was generated. */
  const InitialDisplayText := "আপনার প্রার্থীর সুন্দর উক্তি এখানে প্রদর্শিত হবে।"

  /** The three error messages the designer can show. */
  datatype Message =
    | WriteSomething  // generate was asked for with nothing but whitespace
    | SummaryFailed   // the summariser failed
    | DownloadFailed  // the preview could not be turned into an image

  /** The text of each message, as the banner shows it. */
  function MessageText(m: Message): (text: string)
    ensures text != ""
  {
    match m
    case WriteSomething => "অনুগ্রহ করে টেক্সট বক্সে কিছু লিখুন।"
    case SummaryFailed => "উক্তি তৈরিতে সমস্যা হয়েছে। অনুগ্রহ করে আবার চেষ্টা করুন।"
    case DownloadFailed => "ডিজাইন ডাউনলোড করা যায়নি।"
  }

  const FileNamePrefix := "social-post-"
  const FileNameSuffix := ".jpeg"

  /** What an external call hands back: the summariser's quote or the
      rasteriser's data URL when its promise resolves, nothing when it
      rejects. */
  datatype Outcome = Resolved(value: string) | Rejected

  /** A file handed to the browser for saving. */
  datatype SavedFile = SavedFile(name: string, dataUrl: string)

  /** The controller's state, one field per piece of state it keeps. */
  datatype State = State(
    candidateImage: Option<string>,
    logoImage: Option<string>,
    rawText: string,
    displayText: string,
    template: TemplateId,
    isLoading: bool,
    error: Option<Message>,
    isDesignGenerated: bool)

  /** What the user can do from the control panel. */
  datatype Action =
    | UploadCandidateImage(image: string)
    | ClearCandidateImage
    | UploadLogo(image: string)
    | ClearLogo
    | EditText(text: string)
    | ChooseTemplate(choice: TemplateId)
    | Generate(summary: Outcome)
    | Download(raster: Outcome, now: nat)

  // ---------------------------------------------------------------------
  // The transitions
  // ---------------------------------------------------------------------

  /** The state on first render; the two images come back from the
      browser's persisted storage. */
  function Initial(savedCandidateImage: Option<string>, savedLogo: Option<string>): State {
    State(savedCandidateImage, savedLogo, "", InitialDisplayText, Facebook, false, None, false)
  }

  /** The state once generate has run to completion with the given
      summariser outcome. */
  function AfterGenerate(s: State, summary: Outcome): State {
    if Trim(s.rawText) == "" then s.(error := Some(WriteSomething))
    else
      match summary
      case Resolved(quote) => s.(displayText := quote, isDesignGenerated := true, isLoading := false, error := None)
      case Rejected => s.(isLoading := false, error := Some(SummaryFailed))
  }

  /** The state once download has run to completion with the given
      rasteriser outcome. */
  function AfterDownload(s: State, raster: Outcome): State {
    if !s.isDesignGenerated || raster.Resolved? then s
    else s.(error := Some(DownloadFailed))
  }

  /** The download name: the fixed prefix, the template id, a dash, the
      millisecond timestamp in decimal, and the JPEG extension. */
  function DownloadFileName(t: TemplateId, now: nat): string {
    FileNamePrefix + Name(t) + "-" + DecimalString(now) + FileNameSuffix
  }

  /** The file download hands to the browser, if any. */
  function DownloadedFile(s: State, raster: Outcome, now: nat): Option<SavedFile> {
    if s.isDesignGenerated && raster.Resolved? then
      Some(SavedFile(DownloadFileName(s.template, now), raster.value))
    else None
  }

  function Step(s: State, a: Action): State {
    match a
    case UploadCandidateImage(image) => s.(candidateImage := Some(image))
    case ClearCandidateImage => s.(candidateImage := None)
    case UploadLogo(image) => s.(logoImage := Some(image))
    case ClearLogo => s.(logoImage := None)
    case EditText(text) => s.(rawText := text)
    case ChooseTemplate(choice) => s.(template := choice)
    case Generate(summary) => AfterGenerate(s, summary)
    case Download(raster, _) => AfterDownload(s, raster)
  }

  /** The state after a sequence of actions, each run to completion. */
  function Run(s: State, actions: seq<Action>): State
    decreases |actions|
  {
    if actions == [] then s
    else Step(Run(s, actions[..|actions| - 1]), actions[|actions| - 1])
  }

  // ---------------------------------------------------------------------
  // What the preview pane shows
  // ---------------------------------------------------------------------

  /** The preview pane's main area: the "ready to design" prompt sized
      like the poster will be, or the poster itself. */
  datatype Pane = ReadyPrompt(aspect: AspectRatio) | Canvas(poster: Poster)

  /** The error banner's text above the pane, if any, and the pane. */
  datatype Screen = Screen(banner: Option<string>, pane: Pane)

  /** The aspect class of the prompt shown before generation. */
  function PlaceholderAspectRatio(t: TemplateId): AspectRatio {
    if Name(t) == "youtube" then Widescreen else Square
  }

  function PaneAspect(pane: Pane): AspectRatio {
    match pane
    case ReadyPrompt(aspect) => aspect
    case Canvas(poster) => poster.aspect
  }

  /** The screen for a state on the given day: an error shows as a banner
      (every message text is non-empty, so the banner's truthiness test never
      hides one), and the canvas replaces the prompt once a design exists. */
  function View(s: State, today: CalendarDate): Screen
    requires today.month < |BengaliMonths|
  {
    var banner := if s.error.Some? then Some(MessageText(s.error.value)) else None;
    if !s.isDesignGenerated then Screen(banner, ReadyPrompt(PlaceholderAspectRatio(s.template)))
    else
      var date := BengaliDate(today.day, today.month, today.year);
      Screen(banner, Canvas(Render(s.template, CanvasProps(s.candidateImage, s.logoImage, s.displayText, date))))
  }

  // ---------------------------------------------------------------------
  // The controller
  // ---------------------------------------------------------------------

  class Composer {
    var candidateImage: Option<string>
    var logoImage: Option<string>
    var rawText: string
    var displayText: string
    var template: TemplateId
    var isLoading: bool
    var error: Option<Message>
    var isDesignGenerated: bool

    function Snapshot(): State
      reads this
    {
      State(candidateImage, logoImage, rawText, displayText, template, isLoading, error, isDesignGenerated)
    }

    constructor(savedCandidateImage: Option<string>, savedLogo: Option<string>)
      ensures Snapshot() == Initial(savedCandidateImage, savedLogo)
    {
      candidateImage := savedCandidateImage;
      logoImage := savedLogo;
      rawText := "";
      displayText := InitialDisplayText;
      template := Facebook;
      isLoading := false;
      error := None;
      isDesignGenerated := false;
    }

    method SetCandidateImage(image: string)
      modifies this
      ensures Snapshot() == Step(old(Snapshot()), UploadCandidateImage(image))
    {
      candidateImage := Some(image);
    }

    method ClearCandidateImage()
      modifies this
      ensures Snapshot() == Step(old(Snapshot()), Action.ClearCandidateImage)
    {
      candidateImage := None;
    }

    method SetLogo(image: string)
      modifies this
      ensures Snapshot() == Step(old(Snapshot()), UploadLogo(image))
    {
      logoImage := Some(image);
    }

    method ClearLogo()
      modifies this
      ensures Snapshot() == Step(old(Snapshot()), Action.ClearLogo)
    {
      logoImage := None;
    }

    method SetRawText(text: string)
      modifies this
      ensures Snapshot() == Step(old(Snapshot()), EditText(text))
    {
      rawText := text;
    }

    method SetTemplate(choice: TemplateId)
      requires WellFormed(choice)
      modifies this
      ensures Snapshot() == Step(old(Snapshot()), ChooseTemplate(choice))
    {
      template := choice;
    }

    /** Generate: refuses whitespace-only text, otherwise asks the
        summariser (whose outcome is the parameter) and shows its quote.
        `called` tells whether the summariser was asked at all. */
    method GenerateQuote(summary: Outcome) returns (called: bool)
      modifies this
      ensures called <==> Trim(old(rawText)) != ""
      ensures Snapshot() == AfterGenerate(old(Snapshot()), summary)
    {
      ghost var before := Snapshot();
      if Trim(rawText) == "" {
        error := Some(WriteSomething);
        assert Snapshot() == before.(error := Some(WriteSomething));
        return false;
      }
      isLoading := true;
      error := None;
      // While the summariser runs, the designer is loading with no error.
      assert isLoading && error == None;
      called := true;
      match summary {
        case Resolved(quote) =>
          displayText := quote;
          isDesignGenerated := true;
        case Rejected =>
          error := Some(SummaryFailed);
      }
      isLoading := false;
    }

    /** Download: nothing happens while no canvas is shown; otherwise the
        rasterised canvas (the parameter) is saved under the timestamped
        name, or the download error is shown. */
    method Download(raster: Outcome, now: nat) returns (saved: Option<SavedFile>)
      modifies this
      ensures saved == DownloadedFile(old(Snapshot()), raster, now)
      ensures Snapshot() == AfterDownload(old(Snapshot()), raster)
    {
      if !isDesignGenerated {
        return None;
      }
      match raster {
        case Resolved(dataUrl) =>
          saved := Some(SavedFile(DownloadFileName(template, now), dataUrl));
        case Rejected =>
          error := Some(DownloadFailed);
          saved := None;
      }
    }
  }
}
