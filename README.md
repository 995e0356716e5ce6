# Social media poster designer — a verified model

The designer lets a user compose a social-media poster from five inputs:
- a candidate photo;
- a logo;
- a quote, which an external language model summarises from a longer text;
- today's date in Bengali;
- one of eight fixed templates.

The poster can then be downloaded as a JPEG. This project models the three parts of the designer that carry logic:

- **Bengali dates** (`date_utils.dfy`, module `DateUtils`). Non-negative integers are turned into Bengali numerals one digit at a time. A date is formatted as `<day> <month name> <year>`, taking day, zero-based month and year as parameters.
- **The template layout engine** (`templates.dfy`, `layout.dfy`, `layout_properties.dfy`).
  - The eight templates are a closed datatype, with a fallback for any other id.
  - Each layout is a pure function from the canvas properties to a flat list of regions. Each region has a place (the path of containers it sits in) and content: an image, a labelled placeholder, the news stand-in box, a text of a given role, an opaque decoration, or a panel member card.
  - The poster carries its aspect ratio.
- **The composition controller** (`composition.dfy`, `composition_properties.dfy`).
  - A class holds the designer's eight pieces of state. Its methods are the setters, the two clear actions, generate and download.
  - Each method is proved against a transition function on a value snapshot of that state.
  - The lemmas are about sequences of actions and about what the screen shows.
  - The summariser and the rasteriser are outcome parameters: resolved with a string, or rejected.

`js_text.dfy` (module `JsText`) writes out the JavaScript primitives the code relies on:
- `Number.prototype.toString` on non-negative integers;
- `parseInt` on digit strings;
- `String.prototype.trim` with ECMAScript's whitespace set;
- `split` with a one-character separator;
- `join`;
- the truthiness of a `string | null`.

Three behaviours of the code that the model follows as written:
- **Download without a canvas.** Download checks only that the canvas element exists and returns silently otherwise; there is no "no rendered content" error. The model returns no file and leaves the error unchanged (`DownloadNeedsCanvas`).
- **Overlapping generates.** The code has no request guard for overlapping generates, so the model claims nothing about stale responses.
- **Download error.** There is one download error message, and a successful download leaves an earlier error on screen (`DownloadOutcome`).

## Model

| member | source | states |
|---|---|---|
| JsText.DecimalString | utils/dateUtils.ts:9 | `n.toString()` for n ≥ 0 is a non-empty string of ASCII digits with no leading zero unless n is 0, and it has one character exactly when n < 10 |
| JsText.ParseDecimalString | utils/dateUtils.ts:9 | parsing the decimal string of n with parseInt gives back n |
| JsText.DecimalStringInjective | utils/dateUtils.ts:9 | distinct numbers have distinct decimal strings |
| JsText.DecimalStringOfCanonical | utils/dateUtils.ts:9 | every digit string without a leading zero is the decimal string of the number it parses to |
| JsText.TrimStart | App.tsx:23 | the result is the suffix of the input that begins at its first non-whitespace character; everything cut is whitespace |
| JsText.TrimEnd | App.tsx:23 | the result is the prefix of the input that ends at its last non-whitespace character; everything cut is whitespace |
| JsText.TrimEmptyIff | App.tsx:23 | `!rawText.trim()` holds exactly when the text is empty or all whitespace |
| JsText.TrimIsCore | App.tsx:23 | trim keeps a contiguous piece of the input and cuts only whitespace on either side |
| JsText.TrimEdges | App.tsx:23 | what trim keeps neither starts nor ends with whitespace |
| JsText.Split | components/Canvas.tsx:245 | `split(':')` yields at least one piece and no piece contains the separator |
| JsText.JoinSplit | components/Canvas.tsx:245 | joining the pieces with the separator gives back the original string |
| JsText.SplitJoin | components/Canvas.tsx:248 | splitting a join of separator-free pieces gives back exactly those pieces |
| JsText.SplitHead | components/Canvas.tsx:245 | the first piece is the whole string when there is no separator, and otherwise everything before the first separator, with at least two pieces |
| DateUtils.BengaliDigitsConsecutive | utils/dateUtils.ts:2 | the table holds ten numerals, the d-th being code point U+09E6 + d |
| DateUtils.TransliterateDigitsAt | utils/dateUtils.ts:9 | on a digit string, the split/map/join keeps the length and replaces each digit in place by its Bengali numeral |
| DateUtils.BengaliNumberDigits | utils/dateUtils.ts:8-10 | `toBengaliNumber(n)` is as long as n's decimal string, and its i-th character is the numeral of the i-th decimal digit |
| DateUtils.BengaliNumberAlphabet | utils/dateUtils.ts:8-10 | the result is non-empty, holds only Bengali numerals and no ASCII digit, and has no leading ০ unless it is ০ itself |
| DateUtils.BengaliNumberRoundTrip | utils/dateUtils.ts:8-10 | mapping each numeral back to its digit and parsing recovers n |
| DateUtils.BengaliNumberInjective | utils/dateUtils.ts:8-10 | distinct numbers have distinct Bengali numeral strings |
| DateUtils.SmallBengaliNumbers | utils/dateUtils.ts:14 | 0 becomes "০" and a day of 5 the single numeral "৫": there is no zero padding |
| DateUtils.MonthTable | utils/dateUtils.ts:3-6 | twelve pairwise distinct, non-empty month names, none containing a space or an ASCII digit |
| DateUtils.MonthIndexOfName | utils/dateUtils.ts:15 | looking up the m-th month name finds index m, so each index selects its own name |
| DateUtils.BengaliDateParts | utils/dateUtils.ts:18 | the date splits at its spaces into exactly the day numerals, the month name and the year numerals |
| DateUtils.BengaliDateRoundTrip | utils/dateUtils.ts:12-19 | reading the formatted date back gives the day, month and year it was made from |
| DateUtils.BengaliDateHasNoAsciiDigits | utils/dateUtils.ts:14-18 | no ASCII digit appears anywhere in the formatted date |
| Templates.NameOfFromName | components/Canvas.tsx:342-351 | every id string denotes a well-formed template printing as that id, unrecognised exactly when it is none of the eight |
| Templates.FromNameOfName | components/Canvas.tsx:342-351 | a well-formed template is recovered from its id string |
| Templates.WidescreenOnlyForYouTube | components/Canvas.tsx:25 | the aspect class is 16:9 exactly for youtube and square for every other template |
| LayoutProperties.AspectRatioRule | components/Canvas.tsx:356 | the rendered poster is 16:9 if and only if the template is youtube, unrecognised ids included |
| LayoutProperties.UnrecognisedRendersAsFacebook | components/Canvas.tsx:351 | any other template id renders exactly the facebook poster |
| LayoutProperties.DispatchSelectsOwnLayout | components/Canvas.tsx:342-350 | each of the eight ids renders a layout from which that id is read back by a container only it occupies (the quote layout's backdrop once the saying is ruled out) |
| LayoutProperties.LayoutsAreDistinct | components/Canvas.tsx:342-350 | two different ids among the eight never render the same layout, whatever the properties of each |
| LayoutProperties.RecognisedBy | components/Canvas.tsx:342-350 | a layout that keeps to a template's containers and occupies its landmark is read back as that template |
| LayoutProperties.FacebookPhoto | components/Canvas.tsx:32-37 | the photo when one is given, and then no placeholder at all; otherwise the "প্রার্থীর ছবি" placeholder and no candidate image; no other placeholder |
| LayoutProperties.FacebookLogo | components/Canvas.tsx:59-61 | a given logo is shown; a missing one leaves no logo image, no stand-in and no content in the logo box |
| LayoutProperties.FacebookTexts | components/Canvas.tsx:47-67 | the date appears, and the display text as headline wrapped in curly quotation marks |
| LayoutProperties.YouTubePhoto | components/Canvas.tsx:99-105 | the placeholder rule for the candidate photo, as for facebook |
| LayoutProperties.YouTubeLogo | components/Canvas.tsx:79-81 | the optional-logo rule, as for facebook: no logo image and no content in the logo box without a logo |
| LayoutProperties.YouTubeTexts | components/Canvas.tsx:84-95 | the date and the display text as headline appear |
| LayoutProperties.InstagramPhoto | components/Canvas.tsx:130-136 | the placeholder rule for the candidate photo |
| LayoutProperties.InstagramLogo | components/Canvas.tsx:113-117 | the optional-logo rule: the logo when given, otherwise no logo image and no content in the logo box |
| LayoutProperties.InstagramTexts | components/Canvas.tsx:120-147 | the date and the display text as headline appear |
| LayoutProperties.QuotePhoto | components/Canvas.tsx:168-176 | the placeholder rule for the candidate photo, the placeholder sitting in its centring box |
| LayoutProperties.QuoteLogo | components/Canvas.tsx:208-212 | the optional-logo rule: the logo when given, otherwise no logo image and no content in the logo box |
| LayoutProperties.QuoteTexts | components/Canvas.tsx:186-205 | the date and the display text as headline appear |
| LayoutProperties.SpeechPhoto | components/Canvas.tsx:230-236 | the placeholder rule for the candidate photo |
| LayoutProperties.SpeechTexts | components/Canvas.tsx:217-238 | the display text appears as headline; there is no date, no logo image and no logo region |
| LayoutProperties.NewsPhotoRule | components/Canvas.tsx:314-322 | the main photo follows the placeholder rule with the caption "মূল ছবি", and no candidate-role image appears |
| LayoutProperties.NewsLogoStandIn | components/Canvas.tsx:307-309 | a given logo is shown and no stand-in; without one the grey stand-in box is shown and no logo |
| LayoutProperties.NewsTexts | components/Canvas.tsx:306-330 | the date and the display text as headline appear |
| LayoutProperties.CandidateSlotRule | components/Canvas.tsx:341-352 | in facebook, youtube, instagram, quote and speech the candidate slot follows the placeholder rule |
| LayoutProperties.LogoIsOptional | components/Canvas.tsx:341-352 | in facebook, youtube, instagram, quote and hadith a missing logo leaves no logo image and no content in the logo box |
| LayoutProperties.DateAndTextPlacement | components/Canvas.tsx:341-352 | the date appears in facebook, youtube, instagram, quote and news and not in speech, panel or hadith; every layout but panel and hadith shows the display text as its headline |
| LayoutProperties.PanelHeadingsWithoutColon | components/Canvas.tsx:244-249 | without a colon the title is the whole text and the subtitle is undefined |
| LayoutProperties.PanelHeadingsWithOneColon | components/Canvas.tsx:244-249 | with one colon the title is the part before it and the subtitle the part after it |
| LayoutProperties.PanelHeadingsDropTheRest | components/Canvas.tsx:244-249 | with two or more colons the title and the subtitle are the first two segments, and the rest is dropped |
| LayoutProperties.PanelShowsHeadings | components/Canvas.tsx:243-252 | the panel shows the split title and subtitle; there is no headline, no date, no logo image and no logo region |
| LayoutProperties.PanelMemberCards | components/Canvas.tsx:254-262 | exactly four member cards follow four heading regions, tilted by the parity of their index; only card 0 can show the photo; cards 1 to 3 always show the placeholder numbered i + 1 |
| LayoutProperties.MemberCaptions | components/Canvas.tsx:259 | the member placeholders read "সদস্য 1" to "সদস্য 4", numbered with ASCII digits |
| LayoutProperties.HadithIgnoresAllButLogo | components/Canvas.tsx:268-300 | the hadith layout depends on the logo alone, not on the display text, the photo or the date |
| LayoutProperties.HadithLogo | components/Canvas.tsx:296-298 | the optional-logo rule: the logo when given, otherwise no logo image and no content in the logo box |
| LayoutProperties.HadithSaying | components/Canvas.tsx:288-292 | the three parts of the fixed saying appear as headline, whatever the display text |
| LayoutProperties.HadithContent | components/Canvas.tsx:268-300 | there is no candidate image, no placeholder and no date |
| LayoutProperties.DecorationsAreStatic | components/Canvas.tsx:40-45 | every decoration a layout shows for some properties it shows, at the same place, for any others |
| LayoutProperties.WidescreenWithoutImages | components/Canvas.tsx:74-107 | youtube without images is 16:9, shows the candidate placeholder, and has no content in the logo box |
| Composition.MessageText | App.tsx:89 | every error message has non-empty text, so the banner's truthiness test shows each one |
| Composition.Composer.constructor | App.tsx:10-17 | the first state: persisted images, empty raw text, the fixed placeholder sentence, facebook, not loading, no error, no design |
| Composition.Composer.SetCandidateImage | App.tsx:74 | the upload becomes the candidate image, and nothing else changes |
| Composition.Composer.ClearCandidateImage | App.tsx:76 | the candidate image becomes null, and nothing else changes |
| Composition.Composer.SetLogo | App.tsx:77 | the upload becomes the logo, and nothing else changes |
| Composition.Composer.ClearLogo | App.tsx:79 | the logo becomes null, and nothing else changes |
| Composition.Composer.SetRawText | App.tsx:80 | the typed text becomes the raw text, and nothing else changes |
| Composition.Composer.SetTemplate | App.tsx:83 | one of the eight template ids the buttons send becomes current, and nothing else changes |
| Composition.Composer.GenerateQuote | App.tsx:22-39 | the summariser is called exactly when the trimmed text is non-empty, and the new state is the generate transition of the old one |
| Composition.Composer.Download | App.tsx:41-58 | the file saved and the new state are the download transition of the old state, the rasteriser outcome and the clock |
| CompositionProperties.GenerateRefusesBlankText | App.tsx:23-26 | blank text sets only the "write something" error; the summariser's outcome plays no part |
| CompositionProperties.GenerateOutcome | App.tsx:27-38 | non-blank text ends with loading off. The error is cleared exactly on success, which shows the quote and marks a design. A failure sets the summary error and keeps the text and the design flag |
| CompositionProperties.GeneratedScreen | App.tsx:100-107 | after a successful generate: no banner, and the canvas for the current template with the new quote, the images and today's date |
| CompositionProperties.ActionsKeepInputs | App.tsx:22-58 | generate and download never touch the images, the raw text or the template; download changes at most the error |
| CompositionProperties.StepDesign | App.tsx:32 | an action yields a design exactly when one existed or it is a successful generate on non-blank text |
| CompositionProperties.StepDisplayText | App.tsx:31 | the display text changes only through a successful generate, and then to the returned quote |
| CompositionProperties.RunKeepsDesign | App.tsx:17 | once a design exists, no sequence of actions removes it |
| CompositionProperties.RunStaysIdle | App.tsx:36-38 | after every completed action the loading flag is off if it was off before |
| CompositionProperties.RunDesign | App.tsx:17 | after a sequence of actions a design exists exactly when one existed or the last-action recursion finds an action that created one |
| CompositionProperties.DesignCreatedAt | App.tsx:22-32 | that recursion finds a creating action exactly when some action, taken in the state the actions before it left, is a successful generate on non-blank text |
| CompositionProperties.DesignExistsIff | App.tsx:91 | after a sequence of actions a design exists exactly when one existed or some action in it created one |
| CompositionProperties.FromFirstRender | App.tsx:12-17 | from the first render: never loading between actions, and a design exactly when some generate succeeded on non-blank text |
| CompositionProperties.DownloadNeedsCanvas | App.tsx:42-44 | without a canvas, download saves nothing and changes nothing |
| CompositionProperties.DownloadOutcome | App.tsx:47-57 | with a canvas, a file is saved exactly when rasterising succeeds, under the timestamped name and with the image; a failure sets the download error |
| CompositionProperties.DownloadFileNameRoundTrip | App.tsx:50 | the template and the timestamp are read back from the filename |
| CompositionProperties.DownloadFileNamesDistinct | App.tsx:50 | for the eight templates, different template or instant means different filename |
| CompositionProperties.YouTubeFileName | App.tsx:50 | youtube at 42 ms is "social-post-youtube-42.jpeg" |
| CompositionProperties.PlaceholderMatchesCanvas | App.tsx:60 | the prompt's aspect class equals the poster's for every template |
| CompositionProperties.PaneKeepsShape | App.tsx:91-108 | the pane has the template's aspect ratio either side of the switch, and shows the canvas exactly when a design exists |
| CompositionProperties.FirstScreen | App.tsx:89-98 | the first screen is the square prompt with no error banner |
| CompositionProperties.ClearedPhotoShowsPlaceholder | App.tsx:76 | clearing the photo touches nothing else, and a shown photo template falls back to the placeholder |
| CompositionProperties.ClearedLogoLeavesNoTrace | App.tsx:79 | clearing the logo touches nothing else, and a shown optional-logo template has no logo image and no content in the logo box |

## Left out

I/O and external services:
- Image upload (components/Uploader.tsx) reads a file as base64 through the browser's file reader. It is not part of this model: an uploaded image is an opaque string, passed to `SetCandidateImage` or `SetLogo`.
- The summariser (services/geminiService.ts) is a network call to an external language model, which trims its answer. It is the `Outcome` parameter of `GenerateQuote`, and the model makes no claim about the quote's content.
- Rasterising (`htmlToImage.toJpeg`, quality 1.0, pixel ratio 2) and the link click that saves the file are foreign browser calls. They are the `Outcome` parameter of `Download`. The saved file is returned, not written anywhere.
- Persisting the two images in local storage happens in a hook that is not part of this model. The constructor takes the persisted values as parameters, and the setters do not model the write-back.

The clock and concurrency:
- `Date.now()` and `new Date()` are parameters: `now` for download, and the day, month and year for the date and the screen.
- Await points are not modelled. Generate and download run to completion inside one method, so the loading state exists only inside `GenerateQuote` and can never be observed. Overlapping generates and stale responses are not modelled; the code has no guard against them.
- The button's `disabled={isLoading}` in components/Controls.tsx is a UI guard, and the rest of that file is markup, so it is left out.

Numbers and rendering:
- `JsText.DecimalString` models `toString` on non-negative integers only. Exponent notation from 1e21 on, fractions and negative numbers are left out. These never arise for a day of the month, for years from 0 on, or for a millisecond timestamp.
- `JsText.DecimalString` is exact for every non-negative integer, but a JavaScript number is a double: above 2^53 it cannot hold every integer, and `toString` then prints the shortest round-trip digits followed by zeros. The model leaves this out. Days, years and millisecond timestamps stay far below 2^53.
- The JSX tree becomes a flat list of regions with container paths. CSS classes, SVG paths, colours, fonts and pixel geometry are reduced to decoration names.
- The panel's undefined subtitle renders as an empty heading element.
- `LayoutProperties.OptionalLogoRule`: empty containers are not represented, so the logo box of facebook, youtube, instagram, quote and hadith has no region when there is no logo, although it keeps its fixed height on the page. The same holds for the rows `FacebookLogo`, `YouTubeLogo`, `InstagramLogo`, `QuoteLogo`, `HadithLogo`, `LogoIsOptional`, `WidescreenWithoutImages` and `ClearedLogoLeavesNoTrace`: "no content in the logo box" says nothing about the empty box's size. The panel's empty subtitle differs because the heading element itself is rendered with empty text.
- `LayoutProperties` states only the properties listed above, not the full order of every region; the layout functions fix the order. Beyond `LayoutsAreDistinct`, the model does not state each layout's full region list as a lemma.
- `CompositionProperties.YouTubeFileName`: the example uses a 42 ms timestamp rather than a realistic 13-digit one. The verifier unfolds the decimal function on a literal argument digit by digit, which is too costly for 13 digits. `DownloadFileNameRoundTrip` covers every timestamp.
