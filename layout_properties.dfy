/** What the canvas promises about its layouts: the aspect-ratio rule, the
    dispatch, the placeholder rule for the candidate photo, the optional logo,
    where the date and the display text appear, the panel's colon split and
    member cards, and the fixed hadith saying. */
module LayoutProperties {
  import opened JsText
  import opened Templates
  import opened Layout

  // ---------------------------------------------------------------------
  // Queries on a rendered layout
  // ---------------------------------------------------------------------

  /** What a region shows: a panel card shows its face. */
  function Shown(c: Content): Content {
    match c
    case Card(_, _, face) => face
    case _ => c
  }

  predicate Shows(rs: seq<Region>, c: Content) {
    exists i :: 0 <= i < |rs| && Shown(rs[i].content) == c
  }

  predicate HasImage(rs: seq<Region>, role: ImageRole) {
    exists i :: 0 <= i < |rs| && Shown(rs[i].content).Picture? && Shown(rs[i].content).role == role
  }

  predicate HasPlaceholder(rs: seq<Region>) {
    exists i :: 0 <= i < |rs| && Shown(rs[i].content).Placeholder?
  }

  predicate HasText(rs: seq<Region>, kind: TextRole) {
    exists i :: 0 <= i < |rs| && rs[i].content.Text? && rs[i].content.kind == kind
  }

  /** Some region sits inside a container of the given name. */
  predicate Occupies(rs: seq<Region>, container: string) {
    exists i :: 0 <= i < |rs| && container in rs[i].place
  }

  lemma ShowsIntro(rs: seq<Region>, r: Region)
    requires r in rs
    ensures Shows(rs, Shown(r.content))
  {
  }

  predicate ShowsCandidateSlot(t: TemplateId) {
    t == Facebook || t == YouTube || t == Instagram || t == Quote || t == Speech
  }

  predicate ShowsLogoWhenGiven(t: TemplateId) {
    t == Facebook || t == YouTube || t == Instagram || t == Quote || t == Hadith
  }

  predicate ShowsDate(t: TemplateId) {
    t == Facebook || t == YouTube || t == Instagram || t == Quote || t == News
  }

  // ---------------------------------------------------------------------
  // Aspect ratio and dispatch
  // ---------------------------------------------------------------------

  /** The poster is 16:9 exactly for the youtube template and square for
      every other template, an unrecognised id included. */
  lemma AspectRatioRule(t: TemplateId, p: CanvasProps)
    requires WellFormed(t)
    ensures Render(t, p).aspect == Widescreen <==> t == YouTube
  {
    WidescreenOnlyForYouTube(t);
  }

  /** An unrecognised template id renders exactly as facebook does. */
  lemma UnrecognisedRendersAsFacebook(id: string, p: CanvasProps)
    requires WellFormed(Unrecognised(id))
    ensures Render(Unrecognised(id), p) == Render(Facebook, p)
  {
    assert YouTube in KnownTemplates;
  }

  lemma OccupiesIntro(rs: seq<Region>, r: Region, container: string)
    requires r in rs && container in r.place
    ensures Occupies(rs, container)
  {
  }

  /** Every region sits in containers drawn from the given list. */
  predicate PlacedWithin(rs: seq<Region>, containers: seq<string>) {
    forall i, c :: 0 <= i < |rs| && c in rs[i].place ==> c in containers
  }

  lemma Absent(rs: seq<Region>, containers: seq<string>, container: string)
    requires PlacedWithin(rs, containers) && container !in containers
    ensures !Occupies(rs, container)
  {
  }

  /** The containers each layout places its regions in. */
  function Containers(t: TemplateId): seq<string> {
    match t
    case YouTube => ["column", "logo", "headline", "date", "photo"]
    case Instagram => ["logo", "date", "portrait", "quote"]
    case Quote => ["backdrop", "photo", "centred", "quote icon", "header", "quote", "footer", "logo"]
    case Speech => ["upper", "quote icon", "photo"]
    case Panel => ["header", "members"]
    case Hadith => ["backdrop", "saying", "logo"]
    case News => ["header", "logo", "photo", "headline", "call to action"]
    case _ => ["photo", "separator", "lower", "quote", "footer", "logo"]
  }

  /** The container that marks each layout: only that layout occupies it,
      except the quote layout's backdrop, which the hadith layout shares. */
  function Landmark(t: TemplateId): string {
    match t
    case YouTube => "column"
    case Instagram => "portrait"
    case Quote => "backdrop"
    case Speech => "upper"
    case Panel => "members"
    case Hadith => "saying"
    case News => "call to action"
    case _ => "separator"
  }

  /** Reads the template back from a rendered layout by a container only
      that layout has: the saying, the member row, the upper half, the call
      to action, the round portrait, the text column and the wave separator;
      once the saying is ruled out, a backdrop marks the quote layout. */
  function TemplateOf(rs: seq<Region>): Option<TemplateId> {
    if Occupies(rs, "saying") then Some(Hadith)
    else if Occupies(rs, "backdrop") then Some(Quote)
    else if Occupies(rs, "members") then Some(Panel)
    else if Occupies(rs, "upper") then Some(Speech)
    else if Occupies(rs, "call to action") then Some(News)
    else if Occupies(rs, "portrait") then Some(Instagram)
    else if Occupies(rs, "column") then Some(YouTube)
    else if Occupies(rs, "separator") then Some(Facebook)
    else None
  }

  lemma FacebookPlaces(p: CanvasProps)
    ensures PlacedWithin(FacebookLayout(p), Containers(Facebook))
  {
  }

  lemma YouTubePlaces(p: CanvasProps)
    ensures PlacedWithin(YouTubeLayout(p), Containers(YouTube))
  {
  }

  lemma InstagramPlaces(p: CanvasProps)
    ensures PlacedWithin(InstagramLayout(p), Containers(Instagram))
  {
  }

  lemma QuotePlaces(p: CanvasProps)
    ensures PlacedWithin(QuoteLayout(p), Containers(Quote))
  {
  }

  lemma SpeechPlaces(p: CanvasProps)
    ensures PlacedWithin(SpeechLayout(p), Containers(Speech))
  {
  }

  lemma PanelPlaces(p: CanvasProps)
    ensures PlacedWithin(PanelLayout(p), Containers(Panel))
  {
  }

  lemma HadithPlaces(p: CanvasProps)
    ensures PlacedWithin(HadithLayout(p), Containers(Hadith))
  {
  }

  lemma NewsPlaces(p: CanvasProps)
    ensures PlacedWithin(NewsLayout(p), Containers(News))
  {
  }

  /** A layout that keeps to a template's containers and occupies its
      landmark is read back as that template. */
  lemma RecognisedBy(rs: seq<Region>, t: TemplateId)
    requires t in KnownTemplates
    requires PlacedWithin(rs, Containers(t)) && Occupies(rs, Landmark(t))
    ensures TemplateOf(rs) == Some(t)
  {
    if t in [Hadith, Quote, Panel, Speech, News] {
      RecognisedEarly(rs, t);
    } else if t in [Instagram, YouTube] {
      RecognisedLate(rs, t);
    } else {
      RecognisedLast(rs);
    }
  }

  /** The first five landmarks the read-back tries. */
  lemma RecognisedEarly(rs: seq<Region>, t: TemplateId)
    requires t in [Hadith, Quote, Panel, Speech, News]
    requires PlacedWithin(rs, Containers(t)) && Occupies(rs, Landmark(t))
    ensures TemplateOf(rs) == Some(t)
  {
    var cs := Containers(t);
    if t != Hadith {
      Absent(rs, cs, "saying");
    }
    if t in [Panel, Speech, News] {
      Absent(rs, cs, "backdrop");
    }
    if t in [Speech, News] {
      Absent(rs, cs, "members");
    }
    if t == News {
      Absent(rs, cs, "upper");
    }
  }

  /** The portrait and the column, tried after the first five. */
  lemma RecognisedLate(rs: seq<Region>, t: TemplateId)
    requires t in [Instagram, YouTube]
    requires PlacedWithin(rs, Containers(t)) && Occupies(rs, Landmark(t))
    ensures TemplateOf(rs) == Some(t)
  {
    var cs := Containers(t);
    Absent(rs, cs, "saying");
    Absent(rs, cs, "backdrop");
    Absent(rs, cs, "members");
    Absent(rs, cs, "upper");
    Absent(rs, cs, "call to action");
    if t == YouTube {
      Absent(rs, cs, "portrait");
    }
  }

  /** The wave separator, tried last of all. */
  lemma RecognisedLast(rs: seq<Region>)
    requires PlacedWithin(rs, Containers(Facebook)) && Occupies(rs, Landmark(Facebook))
    ensures TemplateOf(rs) == Some(Facebook)
  {
    var cs := Containers(Facebook);
    Absent(rs, cs, "saying");
    Absent(rs, cs, "backdrop");
    Absent(rs, cs, "members");
    Absent(rs, cs, "upper");
    Absent(rs, cs, "call to action");
    Absent(rs, cs, "portrait");
    Absent(rs, cs, "column");
  }

  lemma FacebookRecovered(p: CanvasProps)
    ensures TemplateOf(FacebookLayout(p)) == Some(Facebook)
  {
    FacebookPlaces(p);
    OccupiesIntro(FacebookLayout(p), Region(["separator"], Decoration("wave")), "separator");
    RecognisedBy(FacebookLayout(p), Facebook);
  }

  lemma YouTubeRecovered(p: CanvasProps)
    ensures TemplateOf(YouTubeLayout(p)) == Some(YouTube)
  {
    YouTubePlaces(p);
    OccupiesIntro(YouTubeLayout(p), Region(["column", "headline"], Decoration("accent bar")), "column");
    RecognisedBy(YouTubeLayout(p), YouTube);
  }

  lemma InstagramRecovered(p: CanvasProps)
    ensures TemplateOf(InstagramLayout(p)) == Some(Instagram)
  {
    InstagramPlaces(p);
    var portrait := Region(["portrait"], ImageOr(p.candidateImage, Candidate, CandidateCaption));
    OccupiesIntro(InstagramLayout(p), portrait, "portrait");
    RecognisedBy(InstagramLayout(p), Instagram);
  }

  lemma QuoteRecovered(p: CanvasProps)
    ensures TemplateOf(QuoteLayout(p)) == Some(Quote)
  {
    QuotePlaces(p);
    OccupiesIntro(QuoteLayout(p), Region(["backdrop"], Decoration("blob")), "backdrop");
    RecognisedBy(QuoteLayout(p), Quote);
  }

  lemma SpeechRecovered(p: CanvasProps)
    ensures TemplateOf(SpeechLayout(p)) == Some(Speech)
  {
    SpeechPlaces(p);
    OccupiesIntro(SpeechLayout(p), Region(["upper"], Text(Caption, CandidateNameLine)), "upper");
    RecognisedBy(SpeechLayout(p), Speech);
  }

  lemma PanelRecovered(p: CanvasProps)
    ensures TemplateOf(PanelLayout(p)) == Some(Panel)
  {
    PanelPlaces(p);
    assert PanelLayout(p)[4].place == ["members"];
    RecognisedBy(PanelLayout(p), Panel);
  }

  lemma HadithRecovered(p: CanvasProps)
    ensures TemplateOf(HadithLayout(p)) == Some(Hadith)
  {
    HadithPlaces(p);
    OccupiesIntro(HadithLayout(p), Region(["saying"], Text(Caption, HadithIntro)), "saying");
    RecognisedBy(HadithLayout(p), Hadith);
  }

  lemma NewsRecovered(p: CanvasProps)
    ensures TemplateOf(NewsLayout(p)) == Some(News)
  {
    NewsPlaces(p);
    OccupiesIntro(NewsLayout(p), Region(["call to action"], Text(Caption, NewsCallToAction)), "call to action");
    RecognisedBy(NewsLayout(p), News);
  }

  /** The switch gives each of the eight templates a layout of its own: the
      template can be read back from what is rendered. */
  lemma DispatchSelectsOwnLayout(t: TemplateId, p: CanvasProps)
    requires t in KnownTemplates
    ensures TemplateOf(RenderContent(t, p)) == Some(t)
  {
    match t
    case Facebook => FacebookRecovered(p);
    case YouTube => YouTubeRecovered(p);
    case Instagram => InstagramRecovered(p);
    case Quote => QuoteRecovered(p);
    case Speech => SpeechRecovered(p);
    case Panel => PanelRecovered(p);
    case Hadith => HadithRecovered(p);
    case News => NewsRecovered(p);
  }

  /** Two different templates never render the same layout, whatever the
      properties of each. */
  lemma LayoutsAreDistinct(t: TemplateId, u: TemplateId, p: CanvasProps, q: CanvasProps)
    requires t in KnownTemplates && u in KnownTemplates && t != u
    ensures RenderContent(t, p) != RenderContent(u, q)
  {
    DispatchSelectsOwnLayout(t, p);
    DispatchSelectsOwnLayout(u, q);
  }

  // ---------------------------------------------------------------------
  // The placeholder rule, the optional logo, the date and the display text
  // ---------------------------------------------------------------------

  /** A photo slot shows the image when there is one, and then no placeholder
      at all; without an image it shows the placeholder with the given caption
      instead, and no image of that role. No other placeholder ever appears. */
  predicate PhotoSlotRule(rs: seq<Region>, image: Option<string>, role: ImageRole, caption: string) {
    && (Truthy(image) ==> Shows(rs, Picture(role, image.value)) && !HasPlaceholder(rs))
    && (!Truthy(image) ==> Shows(rs, Placeholder(caption)) && !HasImage(rs, role))
    && forall i :: 0 <= i < |rs| && Shown(rs[i].content).Placeholder? ==> Shown(rs[i].content) == Placeholder(caption)
  }

  /** A given logo is shown; a missing one leaves no content in the logo
      box: no image, no stand-in, no placeholder. The empty box itself is
      not a region. */
  predicate OptionalLogoRule(rs: seq<Region>, logo: Option<string>) {
    && (Truthy(logo) ==> Shows(rs, Picture(Logo, logo.value)))
    && (!Truthy(logo) ==> !HasImage(rs, Logo) && !Occupies(rs, "logo"))
    && forall i :: 0 <= i < |rs| ==> rs[i].content != StandIn
  }

  /** The layout shows the date, and the display text as given headline. */
  predicate DatedHeadline(rs: seq<Region>, date: string, headline: string) {
    Shows(rs, Text(Date, date)) && Shows(rs, Text(Headline, headline))
  }

  lemma FacebookPhoto(p: CanvasProps)
    ensures PhotoSlotRule(FacebookLayout(p), p.candidateImage, Candidate, CandidateCaption)
  {
    ShowsIntro(FacebookLayout(p), Region(["photo"], ImageOr(p.candidateImage, Candidate, CandidateCaption)));
  }

  lemma FacebookLogo(p: CanvasProps)
    ensures OptionalLogoRule(FacebookLayout(p), p.logoImage)
  {
    if Truthy(p.logoImage) {
      ShowsIntro(FacebookLayout(p), Region(["lower", "footer", "logo"], Picture(Logo, p.logoImage.value)));
    }
  }

  lemma FacebookTexts(p: CanvasProps)
    ensures DatedHeadline(FacebookLayout(p), p.date, OpenQuote + p.displayText + CloseQuote)
  {
    ShowsIntro(FacebookLayout(p), Region(["lower", "footer"], Text(Date, p.date)));
    ShowsIntro(FacebookLayout(p), Region(["lower", "quote"], Text(Headline, OpenQuote + p.displayText + CloseQuote)));
  }

  lemma YouTubePhoto(p: CanvasProps)
    ensures PhotoSlotRule(YouTubeLayout(p), p.candidateImage, Candidate, CandidateCaption)
  {
    ShowsIntro(YouTubeLayout(p), Region(["photo"], ImageOr(p.candidateImage, Candidate, CandidateCaption)));
  }

  lemma YouTubeLogo(p: CanvasProps)
    ensures OptionalLogoRule(YouTubeLayout(p), p.logoImage)
  {
    if Truthy(p.logoImage) {
      ShowsIntro(YouTubeLayout(p), Region(["column", "logo"], Picture(Logo, p.logoImage.value)));
    }
  }

  lemma YouTubeTexts(p: CanvasProps)
    ensures DatedHeadline(YouTubeLayout(p), p.date, p.displayText)
  {
    ShowsIntro(YouTubeLayout(p), Region(["column", "date"], Text(Date, p.date)));
    ShowsIntro(YouTubeLayout(p), Region(["column", "headline"], Text(Headline, p.displayText)));
  }

  lemma InstagramPhoto(p: CanvasProps)
    ensures PhotoSlotRule(InstagramLayout(p), p.candidateImage, Candidate, CandidateCaption)
  {
    ShowsIntro(InstagramLayout(p), Region(["portrait"], ImageOr(p.candidateImage, Candidate, CandidateCaption)));
  }

  lemma InstagramLogo(p: CanvasProps)
    ensures OptionalLogoRule(InstagramLayout(p), p.logoImage)
  {
    if Truthy(p.logoImage) {
      ShowsIntro(InstagramLayout(p), Region(["logo"], Picture(Logo, p.logoImage.value)));
    }
  }

  lemma InstagramTexts(p: CanvasProps)
    ensures DatedHeadline(InstagramLayout(p), p.date, p.displayText)
  {
    ShowsIntro(InstagramLayout(p), Region(["date"], Text(Date, p.date)));
    ShowsIntro(InstagramLayout(p), Region(["quote"], Text(Headline, p.displayText)));
  }

  lemma QuotePhoto(p: CanvasProps)
    ensures PhotoSlotRule(QuoteLayout(p), p.candidateImage, Candidate, CandidateCaption)
  {
    if Truthy(p.candidateImage) {
      ShowsIntro(QuoteLayout(p), Region(["photo"], Picture(Candidate, p.candidateImage.value)));
    } else {
      ShowsIntro(QuoteLayout(p), Region(["photo", "centred"], Placeholder(CandidateCaption)));
    }
  }

  lemma QuoteLogo(p: CanvasProps)
    ensures OptionalLogoRule(QuoteLayout(p), p.logoImage)
  {
    if Truthy(p.logoImage) {
      ShowsIntro(QuoteLayout(p), Region(["footer", "logo"], Picture(Logo, p.logoImage.value)));
    }
  }

  lemma QuoteTexts(p: CanvasProps)
    ensures DatedHeadline(QuoteLayout(p), p.date, p.displayText)
  {
    ShowsIntro(QuoteLayout(p), Region(["header"], Text(Date, p.date)));
    ShowsIntro(QuoteLayout(p), Region(["quote"], Text(Headline, p.displayText)));
  }

  lemma SpeechPhoto(p: CanvasProps)
    ensures PhotoSlotRule(SpeechLayout(p), p.candidateImage, Candidate, CandidateCaption)
  {
    ShowsIntro(SpeechLayout(p), Region(["photo"], ImageOr(p.candidateImage, Candidate, CandidateCaption)));
  }

  /** Speech shows the display text, but neither a logo nor a date. */
  lemma SpeechTexts(p: CanvasProps)
    ensures Shows(SpeechLayout(p), Text(Headline, p.displayText))
    ensures !HasText(SpeechLayout(p), Date)
    ensures !HasImage(SpeechLayout(p), Logo) && !Occupies(SpeechLayout(p), "logo")
  {
    ShowsIntro(SpeechLayout(p), Region(["upper"], Text(Headline, p.displayText)));
  }

  /** The news layout's main photo follows the placeholder rule with its own
      caption and never shows a candidate-role image. */
  lemma NewsPhotoRule(p: CanvasProps)
    ensures PhotoSlotRule(NewsLayout(p), p.candidateImage, NewsPhoto, NewsPhotoCaption)
    ensures !HasImage(NewsLayout(p), Candidate)
  {
    ShowsIntro(NewsLayout(p), Region(["photo"], ImageOr(p.candidateImage, NewsPhoto, NewsPhotoCaption)));
  }

  /** The news header shows the logo when given and a grey stand-in
      otherwise. */
  lemma NewsLogoStandIn(p: CanvasProps)
    ensures Truthy(p.logoImage) ==>
              Shows(NewsLayout(p), Picture(Logo, p.logoImage.value)) && !Shows(NewsLayout(p), StandIn)
    ensures !Truthy(p.logoImage) ==>
              Shows(NewsLayout(p), StandIn) && !HasImage(NewsLayout(p), Logo)
  {
    var head := if Truthy(p.logoImage) then Picture(Logo, p.logoImage.value) else StandIn;
    ShowsIntro(NewsLayout(p), Region(["header", "logo"], head));
  }

  lemma NewsTexts(p: CanvasProps)
    ensures DatedHeadline(NewsLayout(p), p.date, p.displayText)
  {
    ShowsIntro(NewsLayout(p), Region(["header"], Text(Date, p.date)));
    ShowsIntro(NewsLayout(p), Region(["headline"], Text(Headline, p.displayText)));
  }

  /** In facebook, youtube, instagram, quote and speech the candidate slot
      follows the placeholder rule with the candidate-photo caption. An
      unrecognised id renders the facebook layout, so the rule carries over
      to it by UnrecognisedRendersAsFacebook. */
  lemma CandidateSlotRule(t: TemplateId, p: CanvasProps)
    requires ShowsCandidateSlot(t)
    ensures PhotoSlotRule(RenderContent(t, p), p.candidateImage, Candidate, CandidateCaption)
  {
    match t
    case Facebook => FacebookPhoto(p);
    case YouTube => YouTubePhoto(p);
    case Instagram => InstagramPhoto(p);
    case Quote => QuotePhoto(p);
    case Speech => SpeechPhoto(p);
  }

  /** In facebook, youtube, instagram, quote and hadith the logo is optional:
      shown when given, and leaving no trace when missing. An unrecognised
      id renders the facebook layout, so the rule carries over to it by
      UnrecognisedRendersAsFacebook. */
  lemma LogoIsOptional(t: TemplateId, p: CanvasProps)
    requires ShowsLogoWhenGiven(t)
    ensures OptionalLogoRule(RenderContent(t, p), p.logoImage)
  {
    match t
    case Facebook => FacebookLogo(p);
    case YouTube => YouTubeLogo(p);
    case Instagram => InstagramLogo(p);
    case Quote => QuoteLogo(p);
    case Hadith => HadithLogo(p);
  }

  /** The date appears in facebook, youtube, instagram, quote and news, and
      in no other layout; the display text is the headline of each of those
      and of speech, facebook wrapping it in curly quotation marks. An
      unrecognised id renders the facebook layout, so the facebook results
      carry over to it by UnrecognisedRendersAsFacebook. */
  lemma DateAndTextPlacement(t: TemplateId, p: CanvasProps)
    ensures ShowsDate(t) ==> Shows(RenderContent(t, p), Text(Date, p.date))
    ensures t == Speech || t == Panel || t == Hadith ==> !HasText(RenderContent(t, p), Date)
    ensures t == YouTube || t == Instagram || t == Quote || t == Speech || t == News ==>
              Shows(RenderContent(t, p), Text(Headline, p.displayText))
    ensures t == Facebook ==>
              Shows(RenderContent(t, p), Text(Headline, OpenQuote + p.displayText + CloseQuote))
  {
    match t
    case Facebook => FacebookTexts(p);
    case YouTube => YouTubeTexts(p);
    case Instagram => InstagramTexts(p);
    case Quote => QuoteTexts(p);
    case Speech => SpeechTexts(p);
    case Panel => PanelShowsHeadings(p);
    case Hadith => HadithContent(p);
    case News => NewsTexts(p);
    case Unrecognised(_) => FacebookTexts(p);
  }

  // ---------------------------------------------------------------------
  // The panel layout
  // ---------------------------------------------------------------------

  /** Without a colon the whole text is the title and the subtitle is
      undefined. */
  lemma PanelHeadingsWithoutColon(text: string)
    requires ':' !in text
    ensures PanelHeadings(text) == (text, None)
  {
  }

  /** With one colon the title is the part before it and the subtitle the
      part after it. */
  lemma PanelHeadingsWithOneColon(title: string, subtitle: string)
    requires ':' !in title && ':' !in subtitle
    ensures PanelHeadings(title + ":" + subtitle) == (title, Some(subtitle))
  {
    var parts := [title, subtitle];
    assert Join(parts, ':') == title + ":" + subtitle by {
      JoinCons(title, [subtitle], ':');
    }
    SplitJoin(parts, ':');
  }

  /** Everything from a second colon on is dropped. */
  lemma PanelHeadingsDropTheRest(title: string, subtitle: string, rest: string)
    requires ':' !in title && ':' !in subtitle
    ensures PanelHeadings(title + ":" + subtitle + ":" + rest) == (title, Some(subtitle))
  {
    var tail := subtitle + [':'] + rest;
    var s := title + [':'] + tail;
    assert title + ":" + subtitle + ":" + rest == s;
    IndexOfAfter(title, ':', tail);
    assert s[..|title|] == title && s[|title| + 1..] == tail;
    assert Split(s, ':') == [title] + Split(tail, ':');
    IndexOfAfter(subtitle, ':', rest);
    assert tail[..|subtitle|] == subtitle;
    assert Split(tail, ':')[0] == subtitle;
  }

  /** The panel's headings are the title and the subtitle split from the
      display text, an undefined subtitle rendering as an empty heading. */
  lemma PanelShowsHeadings(p: CanvasProps)
    ensures Shows(PanelLayout(p), Text(Title, PanelHeadings(p.displayText).0))
    ensures Shows(PanelLayout(p), Text(Subtitle, PanelHeadings(p.displayText).1.GetOr("")))
    ensures !HasText(PanelLayout(p), Headline) && !HasText(PanelLayout(p), Date)
    ensures !HasImage(PanelLayout(p), Logo) && !Occupies(PanelLayout(p), "logo")
  {
    var (title, subtitle) := PanelHeadings(p.displayText);
    ShowsIntro(PanelLayout(p), Region(["header"], Text(Title, title)));
    ShowsIntro(PanelLayout(p), Region(["header"], Text(Subtitle, subtitle.GetOr(""))));
  }

  /** Exactly four member cards follow the headings, tilted alternately by
      the parity of their index; only the first can show the candidate photo,
      and the others always show the placeholder numbered i + 1. */
  lemma PanelMemberCards(p: CanvasProps)
    ensures |PanelLayout(p)| == 8
    ensures forall i :: 0 <= i < 4 ==> !PanelLayout(p)[i].content.Card?
    ensures forall i :: 4 <= i < 8 ==> PanelLayout(p)[i].content.Card?
    ensures forall i :: 0 <= i < 4 ==>
              var c := PanelLayout(p)[4 + i].content;
              c.Card? && c.index == i && (c.tilt == TiltLeft <==> i % 2 == 0)
    ensures PanelLayout(p)[4].content.face ==
              if Truthy(p.candidateImage) then Picture(Panelist, p.candidateImage.value)
              else Placeholder(MemberCaption(0))
    ensures forall i :: 1 <= i < 4 ==> PanelLayout(p)[4 + i].content.face == Placeholder(MemberCaption(i))
  {
  }

  /** The member placeholders are numbered from 1 with ASCII digits. */
  lemma MemberCaptions()
    ensures MemberCaption(0) == "সদস্য 1"
    ensures MemberCaption(3) == "সদস্য 4"
  {
  }

  // ---------------------------------------------------------------------
  // The hadith layout
  // ---------------------------------------------------------------------

  /** The hadith layout depends on the logo alone: its saying is fixed text,
      whatever the display text, photo or date. */
  lemma HadithIgnoresAllButLogo(p: CanvasProps, q: CanvasProps)
    requires p.logoImage == q.logoImage
    ensures HadithLayout(p) == HadithLayout(q)
  {
  }

  lemma HadithLogo(p: CanvasProps)
    ensures OptionalLogoRule(HadithLayout(p), p.logoImage)
  {
    if Truthy(p.logoImage) {
      ShowsIntro(HadithLayout(p), Region(["logo"], Picture(Logo, p.logoImage.value)));
    }
  }

  /** The hadith layout shows the fixed saying, whatever the display text. */
  lemma HadithSaying(p: CanvasProps)
    ensures Shows(HadithLayout(p), Text(Headline, HadithQuoteOpening))
    ensures Shows(HadithLayout(p), Text(Headline, HadithQuoteHighlight))
    ensures Shows(HadithLayout(p), Text(Headline, HadithQuoteClosing))
  {
    ShowsIntro(HadithLayout(p), Region(["saying"], Text(Headline, HadithQuoteOpening)));
    ShowsIntro(HadithLayout(p), Region(["saying"], Text(Headline, HadithQuoteHighlight)));
    ShowsIntro(HadithLayout(p), Region(["saying"], Text(Headline, HadithQuoteClosing)));
  }

  /** The hadith layout has no candidate image, no placeholder and no date. */
  lemma HadithContent(p: CanvasProps)
    ensures !HasImage(HadithLayout(p), Candidate) && !HasPlaceholder(HadithLayout(p))
    ensures !HasText(HadithLayout(p), Date)
  {
  }

  // ---------------------------------------------------------------------
  // Decorations
  // ---------------------------------------------------------------------

  /** Decorations are static: every decoration a layout renders for some
      properties it renders, at the same place, for any others. */
  lemma DecorationsAreStatic(t: TemplateId, p: CanvasProps, q: CanvasProps)
    ensures var rs := RenderContent(t, p);
            forall i :: 0 <= i < |rs| && rs[i].content.Decoration? ==> rs[i] in RenderContent(t, q)
  {
    match t
    case Facebook =>
    case YouTube =>
    case Instagram =>
    case Quote =>
    case Speech =>
    case Panel =>
    case Hadith =>
    case News =>
    case Unrecognised(_) =>
  }

  /** A widescreen poster without images: 16:9, the candidate placeholder,
      and nothing where the logo would be. */
  lemma WidescreenWithoutImages(text: string, date: string)
    ensures var p := CanvasProps(None, None, text, date);
            Render(YouTube, p).aspect == Widescreen
            && Shows(Render(YouTube, p).regions, Placeholder(CandidateCaption))
            && !Occupies(Render(YouTube, p).regions, "logo")
  {
    CandidateSlotRule(YouTube, CanvasProps(None, None, text, date));
  }
}
