/** The closed set of poster templates, their ids as the template buttons
    send them, and the aspect-ratio rule shared by the canvas and the
    pre-generation placeholder. */
module Templates {

  /** The eight templates, plus any other id, which the canvas renders with
      the facebook layout. */
  datatype TemplateId =
    | Facebook | YouTube | Instagram | Quote | Speech | Panel | Hadith | News
    | Unrecognised(id: string)

  /** The eight templates in the order of the template buttons. */
  const KnownTemplates: seq<TemplateId> :=
    [Facebook, YouTube, Instagram, Quote, Speech, Panel, Hadith, News]

  /** The id string of a template, as it appears in the filename. */
  function Name(t: TemplateId): string {
    match t
    case Facebook => "facebook"
    case YouTube => "youtube"
    case Instagram => "instagram"
    case Quote => "quote"
    case Speech => "speech"
    case Panel => "panel"
    case Hadith => "hadith"
    case News => "news"
    case Unrecognised(id) => id
  }

  /** The template an id string denotes. */
  function FromName(s: string): TemplateId {
    if s == "facebook" then Facebook
    else if s == "youtube" then YouTube
    else if s == "instagram" then Instagram
    else if s == "quote" then Quote
    else if s == "speech" then Speech
    else if s == "panel" then Panel
    else if s == "hadith" then Hadith
    else if s == "news" then News
    else Unrecognised(s)
  }

  /** An unrecognised id is one that none of the eight templates carries. */
  predicate WellFormed(t: TemplateId) {
    t.Unrecognised? ==> forall k :: k in KnownTemplates ==> Name(k) != t.id
  }

  /** Every id string denotes a well-formed template that prints as that id. */
  lemma NameOfFromName(s: string)
    ensures Name(FromName(s)) == s
    ensures WellFormed(FromName(s))
    ensures FromName(s).Unrecognised? <==> forall k :: k in KnownTemplates ==> Name(k) != s
  {
  }

  /** A well-formed template is recovered from its id string. */
  lemma FromNameOfName(t: TemplateId)
    requires WellFormed(t)
    ensures FromName(Name(t)) == t
  {
    if t.Unrecognised? {
      assert forall k :: k in KnownTemplates ==> Name(k) != t.id;
      assert Name(Facebook) != t.id && Name(YouTube) != t.id && Name(Instagram) != t.id
          && Name(Quote) != t.id && Name(Speech) != t.id && Name(Panel) != t.id
          && Name(Hadith) != t.id && Name(News) != t.id;
    }
  }

  datatype AspectRatio = Square | Widescreen

  /** Widescreen when the id is "youtube", square otherwise: the rule
      both the canvas and the pre-generation placeholder apply. */
  function AspectRatioOf(t: TemplateId): AspectRatio {
    if Name(t) == "youtube" then Widescreen else Square
  }

  /** Only the youtube template is 16:9; every other template, an
      unrecognised id included, is square. */
  lemma WidescreenOnlyForYouTube(t: TemplateId)
    requires WellFormed(t)
    ensures AspectRatioOf(t) == Widescreen <==> t == YouTube
  {
    if t.Unrecognised? {
      assert YouTube in KnownTemplates;
    }
  }
}
