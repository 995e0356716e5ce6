/** What the controller promises: the guard and the outcomes of generate,
    that a design once shown stays shown and exactly when it appears, the
    download guard and filename, and what the screen shows. */
module CompositionProperties {
  import opened JsText
  import opened Templates
  import opened Layout
  import opened LayoutProperties
  import opened DateUtils
  import opened Composition

  // ---------------------------------------------------------------------
  // Generate
  // ---------------------------------------------------------------------

  /** Whitespace-only text only raises the "write something" error: the
      summariser's outcome plays no part, and the quote, the loading flag
      and the design flag stay as they were. */
  lemma GenerateRefusesBlankText(s: State, summary: Outcome)
    requires Trim(s.rawText) == ""
    ensures AfterGenerate(s, summary) == AfterGenerate(s, Rejected)
    ensures AfterGenerate(s, summary).error == Some(WriteSomething)
    ensures AfterGenerate(s, summary).(error := s.error) == s
  {
  }

  /** Text with something in it always ends with loading off, and the
      error cleared exactly when the summariser succeeded: its quote then
      becomes the display text and a design exists; on failure the display
      text and the design flag keep their values. */
  lemma GenerateOutcome(s: State, summary: Outcome)
    requires Trim(s.rawText) != ""
    ensures !AfterGenerate(s, summary).isLoading
    ensures AfterGenerate(s, summary).error == None <==> summary.Resolved?
    ensures summary.Resolved? ==>
              AfterGenerate(s, summary).displayText == summary.value && AfterGenerate(s, summary).isDesignGenerated
    ensures summary.Rejected? ==>
              && AfterGenerate(s, summary).error == Some(SummaryFailed)
              && AfterGenerate(s, summary).displayText == s.displayText
              && AfterGenerate(s, summary).isDesignGenerated == s.isDesignGenerated
  {
  }

  /** A successful generate, as the user sees it: no banner, and the
      canvas for the current template showing the new quote with the photo,
      the logo and today's date. */
  lemma GeneratedScreen(s: State, quote: string, today: CalendarDate)
    requires Trim(s.rawText) != "" && today.month < |BengaliMonths|
    ensures View(AfterGenerate(s, Resolved(quote)), today) ==
              Screen(None, Canvas(Render(s.template,
                CanvasProps(s.candidateImage, s.logoImage, quote, BengaliDate(today.day, today.month, today.year)))))
  {
  }

  /** Neither generate nor download changes the images, the text typed in
      or the template. */
  lemma ActionsKeepInputs(s: State, summary: Outcome, raster: Outcome)
    ensures var g := AfterGenerate(s, summary);
            g.candidateImage == s.candidateImage && g.logoImage == s.logoImage
            && g.rawText == s.rawText && g.template == s.template
    ensures AfterDownload(s, raster).(error := s.error) == s
  {
  }

  // ---------------------------------------------------------------------
  // Sequences of actions
  // ---------------------------------------------------------------------

  /** The one way a design comes into existence: a generate whose text is
      not blank and whose summariser succeeds. */
  predicate CreatesDesign(s: State, a: Action) {
    a.Generate? && a.summary.Resolved? && Trim(s.rawText) != ""
  }

  lemma StepDesign(s: State, a: Action)
    ensures Step(s, a).isDesignGenerated <==> s.isDesignGenerated || CreatesDesign(s, a)
  {
    match a
    case Generate(summary) =>
      if Trim(s.rawText) == "" {
        assert AfterGenerate(s, summary) == s.(error := Some(WriteSomething));
      } else if summary.Resolved? {
        assert AfterGenerate(s, summary).isDesignGenerated;
      } else {
        assert AfterGenerate(s, summary).isDesignGenerated == s.isDesignGenerated;
      }
    case Download(raster, _) =>
      assert AfterDownload(s, raster).isDesignGenerated == s.isDesignGenerated;
    case _ =>
  }

  /** The display text changes only by a design-creating generate, and then
      to the summariser's quote. */
  lemma StepDisplayText(s: State, a: Action)
    ensures Step(s, a).displayText != s.displayText ==>
              CreatesDesign(s, a) && Step(s, a).displayText == a.summary.value
  {
  }

  lemma StepIdle(s: State, a: Action)
    requires !s.isLoading
    ensures !Step(s, a).isLoading
  {
    match a
    case Generate(summary) =>
      if Trim(s.rawText) == "" {
        assert AfterGenerate(s, summary) == s.(error := Some(WriteSomething));
      } else {
        assert !AfterGenerate(s, summary).isLoading;
      }
    case Download(raster, _) =>
      assert AfterDownload(s, raster).isLoading == s.isLoading;
    case _ =>
  }

  /** Once a design is shown, no sequence of actions takes it away. */
  lemma {:induction false} RunKeepsDesign(s: State, actions: seq<Action>)
    requires s.isDesignGenerated
    ensures Run(s, actions).isDesignGenerated
    decreases |actions|
  {
    if actions != [] {
      RunKeepsDesign(s, actions[..|actions| - 1]);
      StepDesign(Run(s, actions[..|actions| - 1]), actions[|actions| - 1]);
    }
  }

  /** Between actions nothing is loading: every completed action leaves the
      loading flag off when it found it off. */
  lemma {:induction false} RunStaysIdle(s: State, actions: seq<Action>)
    requires !s.isLoading
    ensures !Run(s, actions).isLoading
    decreases |actions|
  {
    if actions != [] {
      RunStaysIdle(s, actions[..|actions| - 1]);
      StepIdle(Run(s, actions[..|actions| - 1]), actions[|actions| - 1]);
    }
  }

  /** Some action of the sequence created a design, by the same recursion
      on the last action as the run itself. */
  predicate DesignCreated(s: State, actions: seq<Action>)
    decreases |actions|
  {
    actions != []
    && (DesignCreated(s, actions[..|actions| - 1])
        || CreatesDesign(Run(s, actions[..|actions| - 1]), actions[|actions| - 1]))
  }

  lemma {:induction false} RunDesign(s: State, actions: seq<Action>)
    ensures Run(s, actions).isDesignGenerated <==> s.isDesignGenerated || DesignCreated(s, actions)
    decreases |actions|
  {
    if actions != [] {
      var n := |actions| - 1;
      RunDesign(s, actions[..n]);
      StepDesign(Run(s, actions[..n]), actions[n]);
    }
  }

  /** An action of a sequence, taken with the actions before it, passes a
      test exactly when one of all but the last does, or the last does. */
  lemma SomeActionSplit(actions: seq<Action>, passes: (seq<Action>, Action) -> bool)
    requires actions != []
    ensures var n := |actions| - 1;
            (exists k :: 0 <= k < |actions| && passes(actions[..k], actions[k])) <==>
              (exists k :: 0 <= k < n && passes(actions[..n][..k], actions[..n][k]))
              || passes(actions[..n], actions[n])
  {
    var n := |actions| - 1;
    var init := actions[..n];
    forall k | 0 <= k < n
      ensures actions[..k] == init[..k] && actions[k] == init[k]
    {
    }
    if exists k :: 0 <= k < |actions| && passes(actions[..k], actions[k]) {
      var k :| 0 <= k < |actions| && passes(actions[..k], actions[k]);
      if k < n {
        assert passes(init[..k], init[k]);
      }
    }
  }

  lemma {:induction false} DesignCreatedAt(s: State, actions: seq<Action>)
    ensures DesignCreated(s, actions) <==>
              exists k :: 0 <= k < |actions| && CreatesDesign(Run(s, actions[..k]), actions[k])
    decreases |actions|
  {
    if actions != [] {
      DesignCreatedAt(s, actions[..|actions| - 1]);
      SomeActionSplit(actions, (before, a) => CreatesDesign(Run(s, before), a));
    }
  }

  /** A design exists after a sequence of actions exactly when one existed
      before or one of the actions created it. */
  lemma DesignExistsIff(s: State, actions: seq<Action>)
    ensures Run(s, actions).isDesignGenerated <==>
              s.isDesignGenerated
              || exists k :: 0 <= k < |actions| && CreatesDesign(Run(s, actions[..k]), actions[k])
  {
    RunDesign(s, actions);
    DesignCreatedAt(s, actions);
  }

  /** From the first render, the designer keeps showing the prompt until a
      design was created, and is never caught loading between actions. */
  lemma FromFirstRender(savedCandidateImage: Option<string>, savedLogo: Option<string>, actions: seq<Action>)
    ensures var s := Run(Initial(savedCandidateImage, savedLogo), actions);
            && !s.isLoading
            && (s.isDesignGenerated <==>
                  exists k :: 0 <= k < |actions| &&
                    CreatesDesign(Run(Initial(savedCandidateImage, savedLogo), actions[..k]), actions[k]))
  {
    RunStaysIdle(Initial(savedCandidateImage, savedLogo), actions);
    DesignExistsIff(Initial(savedCandidateImage, savedLogo), actions);
  }

  // ---------------------------------------------------------------------
  // Download
  // ---------------------------------------------------------------------

  /** Without a canvas, download does nothing at all: no file, no error. */
  lemma DownloadNeedsCanvas(s: State, raster: Outcome, now: nat)
    requires !s.isDesignGenerated
    ensures AfterDownload(s, raster) == s && DownloadedFile(s, raster, now) == None
  {
  }

  /** With a canvas, a file is saved exactly when rasterising succeeds,
      under the timestamped name for the current template and with the
      rasterised image; otherwise the download error replaces any other.
      A successful download leaves an earlier error in place. */
  lemma DownloadOutcome(s: State, raster: Outcome, now: nat)
    requires s.isDesignGenerated
    ensures DownloadedFile(s, raster, now).Some? <==> raster.Resolved?
    ensures raster.Resolved? ==>
              DownloadedFile(s, raster, now).value == SavedFile(DownloadFileName(s.template, now), raster.value)
              && AfterDownload(s, raster).error == s.error
    ensures raster.Rejected? ==> AfterDownload(s, raster).error == Some(DownloadFailed)
  {
  }

  /** Splits a download filename back into its template and timestamp. */
  function ParseDownloadFileName(name: string): Option<(TemplateId, nat)> {
    if |name| < |FileNamePrefix| + |FileNameSuffix| then None
    else if name[..|FileNamePrefix|] != FileNamePrefix || name[|name| - |FileNameSuffix|..] != FileNameSuffix then None
    else
      var parts := Split(name[|FileNamePrefix|..|name| - |FileNameSuffix|], '-');
      if |parts| == 2 && Canonical(parts[1]) then Some((FromName(parts[0]), ParseDecimal(parts[1])))
      else None
  }

  /** The filename records the template and the timestamp: both are read
      back from it, for every template whose id has no dash. */
  lemma DownloadFileNameRoundTrip(t: TemplateId, now: nat)
    requires WellFormed(t) && '-' !in Name(t)
    ensures ParseDownloadFileName(DownloadFileName(t, now)) == Some((t, now))
  {
    var name := DownloadFileName(t, now);
    var digits := DecimalString(now);
    var middle := Name(t) + "-" + digits;
    assert name == FileNamePrefix + middle + FileNameSuffix;
    assert name[..|FileNamePrefix|] == FileNamePrefix;
    assert name[|name| - |FileNameSuffix|..] == FileNameSuffix;
    assert name[|FileNamePrefix|..|name| - |FileNameSuffix|] == middle;
    assert '-' !in digits by {
      assert forall i :: 0 <= i < |digits| ==> IsAsciiDigit(digits[i]);
    }
    JoinCons(Name(t), [digits], '-');
    assert Join([Name(t), digits], '-') == middle;
    SplitJoin([Name(t), digits], '-');
    FromNameOfName(t);
    ParseDecimalString(now);
  }

  /** The eight template ids are dash-free, so every template the buttons
      offer gets a distinct filename at every instant, and no two instants
      share one. */
  lemma DownloadFileNamesDistinct(t: TemplateId, u: TemplateId, now: nat, later: nat)
    requires t in KnownTemplates && u in KnownTemplates
    requires DownloadFileName(t, now) == DownloadFileName(u, later)
    ensures t == u && now == later
  {
    KnownTemplateIds(t);
    KnownTemplateIds(u);
    DownloadFileNameRoundTrip(t, now);
    DownloadFileNameRoundTrip(u, later);
  }

  lemma KnownTemplateIds(t: TemplateId)
    requires t in KnownTemplates
    ensures WellFormed(t) && '-' !in Name(t)
  {
  }

  /** The name of a youtube poster downloaded 42 ms into the epoch: the
      template id and the millisecond count in plain ASCII decimal, not in
      Bengali numerals. */
  lemma YouTubeFileName()
    ensures DownloadFileName(YouTube, 42) == "social-post-youtube-42.jpeg"
  {
  }

  // ---------------------------------------------------------------------
  // The screen
  // ---------------------------------------------------------------------

  /** The prompt shown before generation is sized by the same rule as the
      canvas, so the pane keeps its shape when the design appears. */
  lemma PlaceholderMatchesCanvas(t: TemplateId, p: CanvasProps)
    ensures PlaceholderAspectRatio(t) == Render(t, p).aspect
  {
  }

  lemma PaneKeepsShape(s: State, today: CalendarDate)
    requires today.month < |BengaliMonths|
    ensures PaneAspect(View(s, today).pane) == AspectRatioOf(s.template)
    ensures View(s, today).pane.Canvas? <==> s.isDesignGenerated
  {
  }

  /** On first render the pane holds the square prompt and no banner. */
  lemma FirstScreen(savedCandidateImage: Option<string>, savedLogo: Option<string>, today: CalendarDate)
    requires today.month < |BengaliMonths|
    ensures View(Initial(savedCandidateImage, savedLogo), today) == Screen(None, ReadyPrompt(Square))
  {
  }

  /** Clearing the photo touches nothing else, and a shown poster of a
      photo template then falls back to the photo placeholder. */
  lemma ClearedPhotoShowsPlaceholder(s: State, today: CalendarDate)
    requires today.month < |BengaliMonths|
    ensures Step(s, Action.ClearCandidateImage).(candidateImage := s.candidateImage) == s
    ensures s.isDesignGenerated && ShowsCandidateSlot(s.template) ==>
              var rs := View(Step(s, Action.ClearCandidateImage), today).pane.poster.regions;
              Shows(rs, Placeholder(CandidateCaption)) && !HasImage(rs, Candidate)
  {
    if s.isDesignGenerated && ShowsCandidateSlot(s.template) {
      var date := BengaliDate(today.day, today.month, today.year);
      CandidateSlotRule(s.template, CanvasProps(None, s.logoImage, s.displayText, date));
    }
  }

  /** Clearing the logo touches nothing else, and a shown poster with an
      optional logo then has nothing in the logo's place. */
  lemma ClearedLogoLeavesNoTrace(s: State, today: CalendarDate)
    requires today.month < |BengaliMonths|
    ensures Step(s, Action.ClearLogo).(logoImage := s.logoImage) == s
    ensures s.isDesignGenerated && ShowsLogoWhenGiven(s.template) ==>
              var rs := View(Step(s, Action.ClearLogo), today).pane.poster.regions;
              !HasImage(rs, Logo) && !Occupies(rs, "logo")
  {
    if s.isDesignGenerated && ShowsLogoWhenGiven(s.template) {
      var date := BengaliDate(today.day, today.month, today.year);
      LogoIsOptional(s.template, CanvasProps(s.candidateImage, None, s.displayText, date));
    }
  }
}
