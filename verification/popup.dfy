/** The extension's popup: which of its sections is shown, the article text
    it holds, and the two actions, extracting the article from the page and
    asking the service for a spoken summary. DOM writes become fields of a
    `Ui` value; the replies of the content script and of the service are
    parameters. */
module Popup {
  import opened Common
  import opened Text
  import ContentScript
  import ArticleService

  datatype Section = ArticlePreview | Loading | ResultSection | ErrorSection | MainContent

  /** The four sections `hideAllSections` hides; `main-content` is not one
      of them. */
  const Hideable: set<Section> := {ArticlePreview, Loading, ResultSection, ErrorSection}

  datatype Ui = Ui(
    visible: set<Section>,
    articleText: string,
    loadingText: string,
    previewText: string,
    summaryText: string,
    audioSource: string,
    errorText: string)

  /** The popup as constructed: no article text; the page decides what is
      visible at first. */
  function Start(visible: set<Section>): (ui: Ui)
    ensures ui.articleText == "" && ui.visible == visible
  {
    Ui(visible, "", "", "", "", "", "")
  }

  function HideAllSections(ui: Ui): (r: Ui)
    ensures r.visible * Hideable == {}
    ensures MainContent in r.visible <==> MainContent in ui.visible
    ensures r == ui.(visible := r.visible)
  {
    ui.(visible := ui.visible - Hideable)
  }

  /** Exactly section `s` of the four is visible. */
  predicate Showing(ui: Ui, s: Section) {
    ui.visible * Hideable == {s}
  }

  function ShowLoading(ui: Ui, message: string): (r: Ui)
    ensures Showing(r, Loading) && r.loadingText == message
    ensures (MainContent in r.visible <==> MainContent in ui.visible) && r.articleText == ui.articleText
  {
    HideAllSections(ui).(visible := HideAllSections(ui).visible + {Loading}, loadingText := message)
  }

  /** The preview: the first 200 characters, with "..." exactly when the text
      is longer. */
  function Preview(text: string): (p: string)
    ensures |text| <= 200 ==> p == text
    ensures |text| > 200 ==> |p| == 203 && p[..200] == text[..200] && p[200..] == "..."
  {
    Ellipsize(text, 200)
  }

  function ShowArticlePreview(ui: Ui, text: string): (r: Ui)
    ensures Showing(r, ArticlePreview) && r.previewText == Preview(text)
    ensures (MainContent in r.visible <==> MainContent in ui.visible) && r.articleText == ui.articleText
  {
    HideAllSections(ui).(visible := HideAllSections(ui).visible + {ArticlePreview}, previewText := Preview(text))
  }

  function ShowResult(ui: Ui, summary: string, audioUrl: string): (r: Ui)
    ensures Showing(r, ResultSection) && r.summaryText == summary && r.audioSource == audioUrl
    ensures (MainContent in r.visible <==> MainContent in ui.visible) && r.articleText == ui.articleText
  {
    HideAllSections(ui).(visible := HideAllSections(ui).visible + {ResultSection}, summaryText := summary, audioSource := audioUrl)
  }

  function ShowError(ui: Ui, message: string): (r: Ui)
    ensures Showing(r, ErrorSection) && r.errorText == message
    ensures (MainContent in r.visible <==> MainContent in ui.visible) && r.articleText == ui.articleText
  {
    HideAllSections(ui).(visible := HideAllSections(ui).visible + {ErrorSection}, errorText := message)
  }

  /** "Try again": the article is forgotten, the four sections are hidden and
      the main content is shown. */
  function ResetApp(ui: Ui): (r: Ui)
    ensures r.articleText == "" && r.visible * Hideable == {} && MainContent in r.visible
  {
    var h := HideAllSections(ui.(articleText := ""));
    h.(visible := h.visible + {MainContent})
  }

  const ExtractFailedMessage: string := "Could not extract article content. Make sure you're on an article page."
  const ExtractThrewMessage: string := "Failed to extract article. Try refreshing the page."

  /** What `chrome.tabs.sendMessage` gives back: an exception, or the
      content script's response (`undefined` when nothing answered). */
  datatype ExtractOutcome = MessagingFailed | Answered(response: Option<ContentScript.Response>)

  /** `response && response.success && response.text`. */
  predicate Usable(o: ExtractOutcome) {
    o.Answered? && o.response.Some? && o.response.value.success
      && o.response.value.text.Some? && o.response.value.text.value != ""
  }

  /** `extractArticle`: the text is kept and previewed only when the response
      reports success and carries a non-empty text; otherwise an error is
      shown and the text held before is kept. */
  function ExtractArticle(ui: Ui, outcome: ExtractOutcome): (r: Ui)
    ensures Usable(outcome) ==>
      r.articleText == outcome.response.value.text.value
      && Showing(r, ArticlePreview) && r.previewText == Preview(r.articleText)
    ensures !Usable(outcome) ==> r.articleText == ui.articleText && Showing(r, ErrorSection)
    ensures outcome.MessagingFailed? ==> r.errorText == ExtractThrewMessage
    ensures outcome.Answered? && !Usable(outcome) ==> r.errorText == ExtractFailedMessage
  {
    var loading := ShowLoading(ui, "Extracting article content...");
    match outcome
    case MessagingFailed => ShowError(loading, ExtractThrewMessage)
    case Answered(response) =>
      if Usable(outcome) then
        var text := response.value.text.value;
        ShowArticlePreview(loading.(articleText := text), text)
      else ShowError(loading, ExtractFailedMessage)
  }

  const NoTextMessage: string := "No article text available"
  const ConnectMessage: string := "Failed to connect to processing service. Check your internet connection."
  const ProcessFailedMessage: string := "Failed to process article"

  /** What the `fetch` to `/process-article` gives back. */
  datatype ApiOutcome =
    | NetworkFailed
    | HttpStatus(ok: bool, body: ArticleService.Reply)

  datatype Generated = Generated(ui: Ui, request: Option<string>)

  /** `generateSummaryAndAudio`: without article text nothing is sent and an
      error is shown; otherwise the text is posted and the reply shown. */
  function GenerateSummaryAndAudio(ui: Ui, outcome: ApiOutcome): (r: Generated)
    ensures ui.articleText == "" <==> r.request.None?
    ensures ui.articleText == "" ==> Showing(r.ui, ErrorSection) && r.ui.errorText == NoTextMessage
    ensures r.request.Some? ==> r.request.value == ui.articleText
    ensures ui.articleText != "" && outcome.HttpStatus? && outcome.ok && outcome.body.Success? ==>
      Showing(r.ui, ResultSection) && r.ui.summaryText == outcome.body.summary && r.ui.audioSource == outcome.body.audioUrl
    ensures ui.articleText != "" && outcome.HttpStatus? && outcome.ok && outcome.body.Failure? ==>
      Showing(r.ui, ErrorSection)
      && r.ui.errorText == (if outcome.body.error != "" then outcome.body.error else ProcessFailedMessage)
    ensures ui.articleText != "" && (outcome.NetworkFailed? || !outcome.ok) ==>
      Showing(r.ui, ErrorSection) && r.ui.errorText == ConnectMessage
    ensures r.ui.articleText == ui.articleText
  {
    if ui.articleText == "" then Generated(ShowError(ui, NoTextMessage), None)
    else
      var loading := ShowLoading(ui, "Generating summary and audio...");
      var shown :=
        match outcome
        case NetworkFailed => ShowError(loading, ConnectMessage)
        case HttpStatus(ok, body) =>
          if !ok then ShowError(loading, ConnectMessage)
          else match body
            case Success(summary, audioUrl, _, _) => ShowResult(loading, summary, audioUrl)
            case Failure(e) => ShowError(loading, if e != "" then e else ProcessFailedMessage);
      Generated(shown, Some(ui.articleText))
  }

  /** The service refuses a short article with a 200 reply; the popup shows
      its reason. */
  lemma ShortArticleReported(ui: Ui, cache: ArticleService.Cache, w: ArticleService.World)
    requires ui.articleText != "" && |Trim(ui.articleText)| < ArticleService.MinArticleLength
    ensures var reply := ArticleService.ProcessArticle(Some(ArticleService.TextBody(ui.articleText)), cache, w).0;
      var r := GenerateSummaryAndAudio(ui, HttpStatus(true, reply));
      Showing(r.ui, ErrorSection) && r.ui.errorText == "Article too short"
  {
    ArticleService.TextBodyValidates(ui.articleText);
  }

  /** Whatever happens, main-content keeps the visibility it had, except that
      "Try again" shows it. */
  lemma MainContentOnlyShownByReset(ui: Ui, e: ExtractOutcome, a: ApiOutcome)
    ensures MainContent in ExtractArticle(ui, e).visible <==> MainContent in ui.visible
    ensures MainContent in GenerateSummaryAndAudio(ui, a).ui.visible <==> MainContent in ui.visible
  {
  }
}
