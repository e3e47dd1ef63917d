/** The settings page of the Next.js front end: the SEO form, whose keyword
    list is edited as one comma-separated line, and the publish button. */
module SeoSettingsPage {
  import opened Common
  import S = Text
  import PortfolioStore

  /** The form's local state; `keywords` is the text of the keywords input. */
  datatype Form = Form(title: string, description: string, keywords: string)

  /** The keyword list as the input shows it. */
  function FormatKeywords(ks: seq<string>): (text: string)
    ensures ks == [] ==> text == ""
    ensures |ks| == 1 ==> text == ks[0]
    ensures |ks| > 1 ==> text == S.Join(ks[..|ks| - 1], ", ") + ", " + ks[|ks| - 1]
  {
    if |ks| > 1 then
      assert ks == ks[..|ks| - 1] + [ks[|ks| - 1]];
      S.JoinSnoc(ks[..|ks| - 1], ks[|ks| - 1], ", ");
      S.Join(ks, ", ")
    else S.Join(ks, ", ")
  }

  /** Trims every element. */
  function TrimAll(xs: seq<string>): (r: seq<string>)
    ensures |r| == |xs|
    ensures forall i :: 0 <= i < |xs| ==> r[i] == S.Trim(xs[i])
  {
    seq(|xs|, i requires 0 <= i < |xs| => S.Trim(xs[i]))
  }

  /** The keyword list read back from the input: one entry per comma-separated
      piece, each trimmed. Nothing is dropped, so an empty input gives one
      empty keyword. */
  function ParseKeywords(text: string): (ks: seq<string>)
    ensures |ks| == S.Count(text, ',') + 1
    ensures forall i :: 0 <= i < |ks| ==> S.IsTrimmed(ks[i])
  {
    S.SplitCount(text, ',');
    TrimAll(S.Split(text, ","))
  }

  /** The form as first shown, from the stored settings. */
  function FormOf(seo: PortfolioStore.SeoSettings): (f: Form)
    ensures f.title == seo.title && f.description == seo.description
    ensures |seo.keywords| == 0 ==> f.keywords == ""
    ensures f.keywords == FormatKeywords(seo.keywords)
  {
    Form(seo.title, seo.description, FormatKeywords(seo.keywords))
  }

  /** Saving writes all three SEO fields from the form and nothing else. */
  function HandleSave(store: PortfolioStore.State, form: Form): (r: PortfolioStore.State)
    ensures PortfolioStore.ChangesOnly(store, r, PortfolioStore.SeoField)
    ensures r.seoSettings.title == form.title && r.seoSettings.description == form.description
    ensures r.seoSettings.keywords == ParseKeywords(form.keywords)
    ensures |r.seoSettings.keywords| == S.Count(form.keywords, ',') + 1
  {
    var patch := PortfolioStore.SeoPatch(Some(form.title), Some(form.description), Some(ParseKeywords(form.keywords)));
    PortfolioStore.Reduce(store, PortfolioStore.UpdateSeoSettings(patch))
  }

  /** The pieces a split on "," finds in a list joined with ", ": the first
      keyword, then every later one behind its space. */
  function Spaced(ks: seq<string>): (r: seq<string>)
    requires |ks| > 0
    ensures |r| == |ks| && r[0] == ks[0]
    ensures forall i :: 1 <= i < |ks| ==> r[i] == " " + ks[i]
    decreases |ks|
  {
    if |ks| == 1 then ks else [ks[0]] + S.ConsFirst(' ', Spaced(ks[1..]))
  }

  lemma {:induction false} JoinSpaced(ks: seq<string>)
    requires |ks| > 0
    ensures S.Join(Spaced(ks), ",") == FormatKeywords(ks)
    decreases |ks|
  {
    if |ks| > 1 {
      var tail := Spaced(ks[1..]);
      var sp := Spaced(ks);
      assert sp[1..] == S.ConsFirst(' ', tail);
      JoinSpaced(ks[1..]);
      S.JoinConsFirst(' ', tail, ",");
      assert S.Join(sp, ",") == ks[0] + "," + ([' '] + S.Join(tail, ","));
      assert ks[0] + "," + ([' '] + S.Join(tail, ",")) == ks[0] + ", " + S.Join(tail, ",");
    }
  }

  /** A keyword that survives the round trip through the input unchanged. */
  predicate Plain(k: string) {
    S.IsTrimmed(k) && ',' !in k
  }

  /** Showing a list of plain keywords in the input and reading it back gives
      the same list. */
  lemma KeywordsRoundTrip(ks: seq<string>)
    requires |ks| > 0
    requires forall i :: 0 <= i < |ks| ==> Plain(ks[i])
    ensures ParseKeywords(FormatKeywords(ks)) == ks
  {
    var sp := Spaced(ks);
    forall i | 0 <= i < |sp| ensures ',' !in sp[i] {
      if i > 0 {
        assert sp[i] == " " + ks[i];
      }
    }
    S.SplitJoin(sp, ',');
    JoinSpaced(ks);
    TrimSpaced(ks);
  }

  /** Trimming the pieces gives the plain keywords back. */
  lemma TrimSpaced(ks: seq<string>)
    requires |ks| > 0
    requires forall i :: 0 <= i < |ks| ==> Plain(ks[i])
    ensures TrimAll(Spaced(ks)) == ks
  {
    var sp := Spaced(ks);
    var r := TrimAll(sp);
    forall i | 0 <= i < |ks| ensures r[i] == ks[i] {
      if i == 0 {
        S.TrimOfTrimmed(ks[0]);
      } else {
        S.TrimSpaceThenTrimmed(ks[i]);
      }
    }
  }

  /** Saving the form untouched leaves the store as it was, when the stored
      keywords are a non-empty list of plain keywords. */
  lemma SaveUntouchedForm(store: PortfolioStore.State)
    requires |store.seoSettings.keywords| > 0
    requires forall i :: 0 <= i < |store.seoSettings.keywords| ==> Plain(store.seoSettings.keywords[i])
    ensures HandleSave(store, FormOf(store.seoSettings)) == store
  {
    KeywordsRoundTrip(store.seoSettings.keywords);
  }

  /** With no stored keywords, saving the untouched form stores one empty
      keyword. */
  lemma SaveUntouchedEmptyKeywords(store: PortfolioStore.State)
    requires store.seoSettings.keywords == []
    ensures HandleSave(store, FormOf(store.seoSettings)).seoSettings.keywords == [""]
  {
    assert S.Split("", ",") == [""];
  }

  /** The publish button is enabled only while no request is running and a
      custom domain is typed. */
  function PublishEnabled(loading: bool, customDomain: string): (enabled: bool)
    ensures enabled ==> !loading
    ensures enabled <==> !loading && |customDomain| > 0
  {
    !loading && customDomain != ""
  }

  const PublishedMessage: string := "Portfolio published successfully!"
  const PublishErrorMessage: string := "Error publishing portfolio"

  /** The body the page posts: only the custom domain. */
  function PublishBody(customDomain: string): (body: Json)
    ensures body.JObj? && |body.members| == 1 && body.members[0].0 == "customDomain"
    ensures body.members[0].1 == JStr(customDomain)
  {
    JObj([("customDomain", JStr(customDomain))])
  }

  /** What the fetch gives back: it throws, or it yields a body whose `url`
      key may be absent (an error reply has none). */
  datatype PublishReply = FetchFailed | Replied(url: Option<string>)

  datatype Published = Published(store: PortfolioStore.State, alert: string)

  /** `handlePublish` after the reply: any reply that parses is taken as
      success and its `url`, present or not, becomes the published URL. */
  function HandlePublish(store: PortfolioStore.State, reply: PublishReply): (r: Published)
    ensures PortfolioStore.ChangesOnly(store, r.store, PortfolioStore.UrlField)
    ensures reply.FetchFailed? ==> r.store == store && r.alert == PublishErrorMessage
    ensures reply.Replied? ==> r.store.publishedUrl == reply.url && r.alert == PublishedMessage
  {
    match reply
    case FetchFailed => Published(store, PublishErrorMessage)
    case Replied(url) => Published(PortfolioStore.Reduce(store, PortfolioStore.SetPublishedUrl(url)), PublishedMessage)
  }

  /** A reply without a URL still announces success, and clears a URL
      published before. */
  lemma ReplyWithoutUrlClearsUrl(store: PortfolioStore.State)
    requires store.publishedUrl.Some?
    ensures HandlePublish(store, Replied(None)).alert == PublishedMessage
    ensures HandlePublish(store, Replied(None)).store.publishedUrl.None?
  {
  }
}
