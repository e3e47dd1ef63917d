/** The Next.js front end's `portfolio` slice: the profile being drafted, the
    chosen template, the rendered preview, the published URL and the SEO
    settings. Each reducer is a pure function from state and payload to the
    next state. */
module PortfolioStore {
  import opened Common
  import opened Profile

  datatype SeoSettings = SeoSettings(title: string, description: string, keywords: seq<string>)

  /** `Partial<SeoSettings>`: a key is `None` when the payload leaves it out. */
  datatype SeoPatch = SeoPatch(title: Option<string>, description: Option<string>, keywords: Option<seq<string>>)

  datatype State = State(
    data: Draft,
    selectedTemplate: Option<string>,
    htmlPreview: string,
    publishedUrl: Option<string>,
    seoSettings: SeoSettings)

  const InitialState: State := State(EmptyDraft, None, "", None, SeoSettings("", "", []))

  datatype Action =
    | UpdatePortfolioData(payload: Draft)
    | SetSelectedTemplate(id: string)
    | SetHtmlPreview(html: string)
    | SetPublishedUrl(url: Option<string>)  // `undefined` reaches it at run time
    | UpdateSeoSettings(patch: SeoPatch)

  /** The fields of the state. */
  datatype Field = DataField | TemplateField | PreviewField | UrlField | SeoField

  /** `r` agrees with `s` on every field but `f`. */
  predicate ChangesOnly(s: State, r: State, f: Field) {
    && (f != DataField ==> r.data == s.data)
    && (f != TemplateField ==> r.selectedTemplate == s.selectedTemplate)
    && (f != PreviewField ==> r.htmlPreview == s.htmlPreview)
    && (f != UrlField ==> r.publishedUrl == s.publishedUrl)
    && (f != SeoField ==> r.seoSettings == s.seoSettings)
  }

  /** The field an action writes. */
  function Target(a: Action): Field {
    match a
    case UpdatePortfolioData(_) => DataField
    case SetSelectedTemplate(_) => TemplateField
    case SetHtmlPreview(_) => PreviewField
    case SetPublishedUrl(_) => UrlField
    case UpdateSeoSettings(_) => SeoField
  }

  /** `{ ...seoSettings, ...payload }`. */
  function MergeSeo(current: SeoSettings, patch: SeoPatch): (r: SeoSettings)
    ensures r.title == if patch.title.Some? then patch.title.value else current.title
    ensures r.description == if patch.description.Some? then patch.description.value else current.description
    ensures r.keywords == if patch.keywords.Some? then patch.keywords.value else current.keywords
  {
    SeoSettings(
      patch.title.GetOr(current.title),
      patch.description.GetOr(current.description),
      patch.keywords.GetOr(current.keywords))
  }

  /** The slice's reducer. */
  function Reduce(s: State, a: Action): (r: State)
    ensures ChangesOnly(s, r, Target(a))
    ensures a.UpdatePortfolioData? ==> r.data == Merge(s.data, a.payload)
    ensures a.SetSelectedTemplate? ==> r.selectedTemplate == Some(a.id)
    ensures a.SetHtmlPreview? ==> r.htmlPreview == a.html
    ensures a.SetPublishedUrl? ==> r.publishedUrl == a.url
    ensures a.UpdateSeoSettings? ==> r.seoSettings == MergeSeo(s.seoSettings, a.patch)
  {
    match a
    case UpdatePortfolioData(payload) => s.(data := Merge(s.data, payload))
    case SetSelectedTemplate(id) => s.(selectedTemplate := Some(id))
    case SetHtmlPreview(html) => s.(htmlPreview := html)
    case SetPublishedUrl(url) => s.(publishedUrl := url)
    case UpdateSeoSettings(patch) => s.(seoSettings := MergeSeo(s.seoSettings, patch))
  }

  /** The store starts with an empty profile, no template, an empty preview, no
      published URL and empty SEO settings without keywords. */
  lemma InitialStateIsEmpty()
    ensures InitialState.data == EmptyDraft && InitialState.selectedTemplate.None?
    ensures InitialState.htmlPreview == "" && InitialState.publishedUrl.None?
    ensures InitialState.seoSettings.title == "" && InitialState.seoSettings.description == ""
    ensures |InitialState.seoSettings.keywords| == 0
  {
  }

  /** An SEO patch that sets nothing changes nothing, and applying a patch
      twice is applying it once. */
  lemma MergeSeoLaws(current: SeoSettings, patch: SeoPatch)
    ensures MergeSeo(current, SeoPatch(None, None, None)) == current
    ensures MergeSeo(MergeSeo(current, patch), patch) == MergeSeo(current, patch)
  {
  }

  /** Updating the profile with the empty payload leaves the state alone, and
      repeating an update has no further effect. */
  lemma UpdatePortfolioDataLaws(s: State, payload: Draft)
    ensures Reduce(s, UpdatePortfolioData(EmptyDraft)) == s
    ensures Reduce(Reduce(s, UpdatePortfolioData(payload)), UpdatePortfolioData(payload))
      == Reduce(s, UpdatePortfolioData(payload))
  {
    MergeEmpty(s.data);
    MergeIdempotent(s.data, payload);
  }

  /** Actions on different fields commute. */
  lemma DistinctFieldsCommute(s: State, a: Action, b: Action)
    requires Target(a) != Target(b)
    ensures Reduce(Reduce(s, a), b) == Reduce(Reduce(s, b), a)
  {
  }
}
