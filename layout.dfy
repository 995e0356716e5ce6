/** The canvas of the poster designer as an abstract region tree. A poster is
    its aspect ratio and the regions the chosen layout renders, in document
    order; each region records the path of named containers that hold it
    (its place in the tree) and what it shows. Styling, SVG geometry and
    colours are left abstract: a decoration is a named constant region. */
module Layout {
  import opened JsText
  import opened Templates

  /** What an image region depicts (the alt text of the image in the layout). */
  datatype ImageRole = Candidate | Logo | Panelist | NewsPhoto

  datatype TextRole =
    | Headline   // the main text: the display text, or the fixed hadith saying
    | QuoteMark  // a large decorative opening quotation mark
    | Date
    | Title      // the panel heading before the first ':'
    | Subtitle   // the panel heading after the first ':'
    | Caption    // fixed wording such as an attribution line

  /** The two rotations of the panel member cards. */
  datatype Tilt = TiltLeft | TiltRight

  datatype Content =
    | Picture(role: ImageRole, src: string)
    | Placeholder(caption: string)              // a neutral block with a centred caption
    | StandIn                                    // a blank grey block where an image would go
    | Text(kind: TextRole, text: string)
    | Decoration(name: string)                   // a static shape, icon or backdrop
    | Card(index: nat, tilt: Tilt, face: Content) // a tilted panel member card

  datatype Region = Region(place: seq<string>, content: Content)

  datatype Poster = Poster(aspect: AspectRatio, regions: seq<Region>)

  /** The canvas properties other than the template. */
  datatype CanvasProps = CanvasProps(
    candidateImage: Option<string>,
    logoImage: Option<string>,
    displayText: string,
    date: string)

  const CandidateCaption := "প্রার্থীর ছবি"
  const NewsPhotoCaption := "মূল ছবি"
  const CandidateNameLine := "-- প্রার্থীর নাম"
  const SpeakerNameLine := "-- বক্তার নাম"
  const HadithIntro := "রাসূলুল্লাহ (স:) বলেছেন,"
  const HadithQuoteOpening := "“আল্লাহর রাস্তায় কাজ করতে গিয়ে কোনো "
  const HadithQuoteHighlight := "নিন্দুকের তিরস্কারকে"
  const HadithQuoteClosing := " ভয় করো না।”"
  const HadithSource := "- শুআবুল ঈমান"
  const NewsCallToAction := "বিস্তারিত কমেন্টে"
  const OpenQuote := "“"
  const CloseQuote := "”"

  /** The caption of panel member placeholder i: the word for "member" and
      the number i + 1 in ASCII digits (a template literal prints it). */
  function MemberCaption(i: nat): string {
    "সদস্য " + DecimalString(i + 1)
  }

  // ---------------------------------------------------------------------
  // Building blocks
  // ---------------------------------------------------------------------

  /** A photo slot: the image when there is a non-empty one, otherwise the
      placeholder with the given caption. */
  function ImageOr(image: Option<string>, role: ImageRole, caption: string): Content {
    if Truthy(image) then Picture(role, image.value) else Placeholder(caption)
  }

  /** An optional logo: a logo region when there is a non-empty logo, and
      otherwise nothing, since an empty logo box has no content to show. */
  function LogoAt(place: seq<string>, logo: Option<string>): seq<Region> {
    if Truthy(logo) then [Region(place, Picture(Logo, logo.value))] else []
  }

  // ---------------------------------------------------------------------
  // The eight layouts
  // ---------------------------------------------------------------------

  /** Photo on top, a wave separator, the quote in curly quotation marks,
      and a footer with the logo and the date. */
  function FacebookLayout(p: CanvasProps): seq<Region> {
    [ Region(["photo"], ImageOr(p.candidateImage, Candidate, CandidateCaption)),
      Region(["separator"], Decoration("wave")),
      Region(["lower", "quote"], Text(Headline, OpenQuote + p.displayText + CloseQuote)) ]
    + LogoAt(["lower", "footer", "logo"], p.logoImage)
    + [ Region(["lower", "footer"], Text(Date, p.date)) ]
  }

  /** A text column with logo, quote and date beside a clipped photo. */
  function YouTubeLayout(p: CanvasProps): seq<Region> {
    LogoAt(["column", "logo"], p.logoImage)
    + [ Region(["column", "headline"], Decoration("accent bar")),
        Region(["column", "headline"], Text(QuoteMark, OpenQuote)),
        Region(["column", "headline"], Text(Headline, p.displayText)),
        Region(["column", "date"], Text(Date, p.date)),
        Region(["photo"], ImageOr(p.candidateImage, Candidate, CandidateCaption)) ]
  }

  /** Logo and date in the top corners, a round portrait, the quote below. */
  function InstagramLayout(p: CanvasProps): seq<Region> {
    LogoAt(["logo"], p.logoImage)
    + [ Region(["date"], Text(Date, p.date)),
        Region(["portrait"], ImageOr(p.candidateImage, Candidate, CandidateCaption)),
        Region(["quote"], Text(QuoteMark, OpenQuote)),
        Region(["quote"], Text(Headline, p.displayText)) ]
  }

  /** A backdrop blob behind a cut-out photo, a quote icon, the date with a
      calendar icon, the quote and the logo at the bottom. */
  function QuoteLayout(p: CanvasProps): seq<Region> {
    [ Region(["backdrop"], Decoration("blob")),
      if Truthy(p.candidateImage) then Region(["photo"], Picture(Candidate, p.candidateImage.value))
      else Region(["photo", "centred"], Placeholder(CandidateCaption)),
      Region(["quote icon"], Decoration("quote icon")),
      Region(["header"], Decoration("calendar icon")),
      Region(["header"], Text(Date, p.date)),
      Region(["quote"], Text(Headline, p.displayText)) ]
    + LogoAt(["footer", "logo"], p.logoImage)
  }

  /** The quote with an attribution line over the photo; no logo, no date. */
  function SpeechLayout(p: CanvasProps): seq<Region> {
    [ Region(["upper", "quote icon"], Decoration("quote icon")),
      Region(["upper"], Text(Headline, p.displayText)),
      Region(["upper"], Text(Caption, CandidateNameLine)),
      Region(["photo"], ImageOr(p.candidateImage, Candidate, CandidateCaption)) ]
  }

  /** The panel's title and subtitle: the first and second colon-separated
      segments of the display text, the second undefined when there is no
      colon. */
  function PanelHeadings(displayText: string): (string, Option<string>) {
    var parts := Split(displayText, ':');
    (parts[0], if |parts| > 1 then Some(parts[1]) else None)
  }

  /** Four member cards, tilted by index parity; only the first
      can show the candidate photo, the others always show their placeholder. */
  function PanelMembers(candidateImage: Option<string>): seq<Region> {
    seq(4, i requires 0 <= i < 4 =>
      Region(["members"], Card(i, if i % 2 == 0 then TiltLeft else TiltRight,
        if i == 0 && Truthy(candidateImage) then Picture(Panelist, candidateImage.value)
        else Placeholder(MemberCaption(i)))))
  }

  /** Title and subtitle split from the display text, a speaker line and four
      member cards; no logo, no date. An undefined subtitle renders as an
      empty heading. */
  function PanelLayout(p: CanvasProps): seq<Region> {
    var (title, subtitle) := PanelHeadings(p.displayText);
    [ Region(["header"], Text(Title, title)),
      Region(["header"], Text(Subtitle, subtitle.GetOr(""))),
      Region(["header"], Decoration("divider")),
      Region(["header"], Text(Caption, SpeakerNameLine)) ]
    + PanelMembers(p.candidateImage)
  }

  /** A fixed saying over a skyline backdrop, and the logo; the display text,
      the photo and the date are not used. */
  function HadithLayout(p: CanvasProps): seq<Region> {
    [ Region(["backdrop"], Decoration("skyline")),
      Region(["backdrop"], Decoration("wave")),
      Region(["saying"], Text(Caption, HadithIntro)),
      Region(["saying"], Text(Headline, HadithQuoteOpening)),
      Region(["saying"], Text(Headline, HadithQuoteHighlight)),
      Region(["saying"], Text(Headline, HadithQuoteClosing)),
      Region(["saying"], Text(Caption, HadithSource)) ]
    + LogoAt(["logo"], p.logoImage)
  }

  /** A header with the logo (or a grey stand-in) and the date, the main
      photo, the headline and a call to action. */
  function NewsLayout(p: CanvasProps): seq<Region> {
    [ Region(["header", "logo"], if Truthy(p.logoImage) then Picture(Logo, p.logoImage.value) else StandIn),
      Region(["header"], Text(Date, p.date)),
      Region(["photo"], ImageOr(p.candidateImage, NewsPhoto, NewsPhotoCaption)),
      Region(["headline"], Decoration("dot pattern")),
      Region(["headline"], Text(Headline, p.displayText)),
      Region(["call to action"], Text(Caption, NewsCallToAction)) ]
  }

  /** The layout of the template, facebook for any other id. */
  function RenderContent(t: TemplateId, p: CanvasProps): seq<Region> {
    match t
    case Facebook => FacebookLayout(p)
    case YouTube => YouTubeLayout(p)
    case Instagram => InstagramLayout(p)
    case Quote => QuoteLayout(p)
    case Speech => SpeechLayout(p)
    case Panel => PanelLayout(p)
    case Hadith => HadithLayout(p)
    case News => NewsLayout(p)
    case Unrecognised(_) => FacebookLayout(p)
  }

  /** The canvas: the template's aspect ratio around its layout. */
  function Render(t: TemplateId, p: CanvasProps): Poster {
    Poster(AspectRatioOf(t), RenderContent(t, p))
  }
}
