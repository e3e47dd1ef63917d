/** The decision logic of the portfolio controller: request validation, the
    authentication guard, ownership on publish, the published-URL formula and
    the view counter. The portfolio collection is a map from document id to
    document; the authenticated user id is an input (`req.userId`), and the
    clock reading for `lastViewed` is a parameter. */
module PortfolioApi {
  import opened Common
  import opened Profile
  import Renderer
  import TemplateRegistry

  datatype StoredPortfolio = StoredPortfolio(
    owner: string,
    profile: Draft,
    template: string,
    publishedUrl: Option<string>,
    views: nat,
    lastViewed: Option<int>)

  type Store = map<string, StoredPortfolio>

  const DataRequired: HttpError := HttpError(400, "Portfolio data is required")
  const AuthRequired: HttpError := HttpError(401, "Authentication required")
  const PortfolioNotFound: HttpError := HttpError(404, "Portfolio not found")
  const RenderFailed: HttpError := HttpError(500, "Failed to render portfolio")

  const PublishBase: string := "https://ai-portfolio.app/"

  /** The id `renderPortfolio` hands to the renderer: a missing or empty
      template id becomes `modern-minimal`. The substitution never changes
      which template the renderer settles on, as written or corrected. */
  function EffectiveTemplateId(templateId: Option<string>): (id: string)
    ensures id != ""
    ensures !Falsy(templateId) ==> id == templateId.value
    ensures TemplateRegistry.ResolveId(Some(id)) == TemplateRegistry.ResolveId(templateId)
    ensures TemplateRegistry.ResolveAsWritten(Some(id)) == TemplateRegistry.ResolveAsWritten(templateId)
  {
    if Falsy(templateId) then TemplateRegistry.DefaultId else templateId.value
  }

  /** `renderPortfolio`: missing data is refused with 400; the renderer's
      failure on a template id naming an `Object.prototype` member is caught
      and answered with 500; otherwise the page is the expansion of the data. */
  function RenderPortfolio(portfolioData: Option<Draft>, templateId: Option<string>): (r: Result<Renderer.Document, HttpError>)
    ensures portfolioData.None? <==> r == Err(DataRequired)
    ensures portfolioData.Some? ==>
      (r == Err(RenderFailed) <==> !Falsy(templateId) && templateId.value in TemplateRegistry.ObjectPrototypeMembers)
    ensures r.Ok? ==> portfolioData.Some? && r.value == Renderer.Expand(portfolioData.value)
  {
    if portfolioData.None? then Err(DataRequired)
    else
      var id := EffectiveTemplateId(templateId);
      TemplateRegistry.PrototypeIdsFail(id);
      match Renderer.GeneratePortfolioHtmlAsWritten(portfolioData.value, Some(id))
      case Ok(page) => Ok(page)
      case Err(_) => Err(RenderFailed)
  }

  /** Without a template id, and with any registered one, the data renders. */
  lemma RenderWithoutTemplate(d: Draft, templateId: Option<string>)
    requires Falsy(templateId) || templateId.value in TemplateRegistry.Registry
    ensures RenderPortfolio(Some(d), templateId) == Ok(Renderer.Expand(d))
  {
    if !Falsy(templateId) {
      TemplateRegistry.PrototypeMembersUnregistered();
    }
  }

  /** The body of a save request: the profile, and the keys of the stored
      document a client can also send. */
  datatype SavePayload = SavePayload(userId: Option<string>, profile: Draft, template: Option<string>)

  /** `Portfolio.create({ userId, ...portfolioData })` as written: a `userId`
      in the body comes after the authenticated one and replaces it. */
  function SavePortfolioAsWritten(userId: Option<string>, payload: SavePayload, newId: string, store: Store): (r: Result<Store, HttpError>)
    requires newId !in store
    ensures Falsy(userId) <==> r == Err(AuthRequired)
    ensures r.Ok? ==>
      && r.value.Keys == store.Keys + {newId}
      && r.value[newId].owner == payload.userId.GetOr(userId.value)
      && r.value[newId].profile == payload.profile
      && forall id :: id in store ==> r.value[id] == store[id]
  {
    if Falsy(userId) then Err(AuthRequired)
    else
      var owner := payload.userId.GetOr(userId.value);
      Ok(store[newId := StoredPortfolio(owner, payload.profile, payload.template.GetOr(TemplateRegistry.DefaultId), None, 0, None)])
  }

  /** A body naming another user files the new portfolio under that user. */
  lemma SaveAsWrittenMisfiles()
    ensures var r := SavePortfolioAsWritten(Some("alice"), SavePayload(Some("mallory"), EmptyDraft, None), "p1", map[]);
      r.Ok? && r.value["p1"].owner == "mallory"
  {
  }

  /** `savePortfolio` with the owner fixed to the authenticated user: the new
      document is stored under its id, owned by the caller, with the schema's
      defaults, and no other document changes. */
  function SavePortfolio(userId: Option<string>, payload: SavePayload, newId: string, store: Store): (r: Result<Store, HttpError>)
    requires newId !in store
    ensures Falsy(userId) <==> r == Err(AuthRequired)
    ensures r.Ok? ==>
      && r.value.Keys == store.Keys + {newId}
      && r.value[newId].owner == userId.value
      && r.value[newId].profile == payload.profile
      && r.value[newId].template == payload.template.GetOr(TemplateRegistry.DefaultId)
      && r.value[newId].views == 0 && r.value[newId].publishedUrl.None?
      && forall id :: id in store ==> r.value[id] == store[id]
  {
    if Falsy(userId) then Err(AuthRequired)
    else Ok(store[newId := StoredPortfolio(userId.value, payload.profile, payload.template.GetOr(TemplateRegistry.DefaultId), None, 0, None)])
  }

  /** Without an owner in the body the code as written does the same. */
  lemma SaveAsWrittenAgrees(userId: Option<string>, payload: SavePayload, newId: string, store: Store)
    requires payload.userId.None?
    requires newId !in store
    ensures SavePortfolioAsWritten(userId, payload, newId, store) == SavePortfolio(userId, payload, newId, store)
  {
  }

  /** The published address: the custom domain when one is given, the
      document id otherwise. */
  function PublishedUrl(portfolioId: string, customDomain: Option<string>): (url: string)
    ensures |url| >= |PublishBase| && url[..|PublishBase|] == PublishBase
    ensures !Falsy(customDomain) ==> url[|PublishBase|..] == customDomain.value
    ensures Falsy(customDomain) ==> url[|PublishBase|..] == portfolioId
  {
    PublishBase + (if Falsy(customDomain) then portfolioId else customDomain.value)
  }

  /** The document the publish acted on, the URL it is published at, and the
      collection afterwards. */
  datatype Published = Published(id: string, url: string, store: Store)

  /** `id` names a document of `owner`. */
  predicate Owns(store: Store, owner: string, id: string) {
    id in store && store[id].owner == owner
  }

  /** The first id of `scan` naming a document of `owner`. */
  function FirstOwned(scan: seq<string>, owner: string, store: Store): (r: Option<string>)
    ensures r.None? <==> forall i :: 0 <= i < |scan| ==> !Owns(store, owner, scan[i])
    ensures r.Some? ==> exists i :: (0 <= i < |scan| && scan[i] == r.value && Owns(store, owner, scan[i])
      && forall j :: 0 <= j < i ==> !Owns(store, owner, scan[j]))
    decreases |scan|
  {
    if |scan| == 0 then None
    else if Owns(store, owner, scan[0]) then Some(scan[0])
    else
      var r := FirstOwned(scan[1..], owner, store);
      if r.Some? then
        var i :| (0 <= i < |scan| - 1 && scan[1..][i] == r.value && Owns(store, owner, scan[1..][i])
          && forall j :: 0 <= j < i ==> !Owns(store, owner, scan[1..][j]));
        assert scan[i + 1] == r.value;
        assert forall j :: 0 <= j < i + 1 ==> !Owns(store, owner, scan[j]) by {
          forall j | 0 <= j < i + 1 ensures !Owns(store, owner, scan[j]) {
            if j > 0 {
              assert scan[j] == scan[1..][j - 1];
            }
          }
        }
        r
      else
        assert forall i :: 0 <= i < |scan| ==> !Owns(store, owner, scan[i]) by {
          forall i | 0 <= i < |scan| ensures !Owns(store, owner, scan[i]) {
            if i > 0 {
              assert scan[i] == scan[1..][i - 1];
            }
          }
        }
        r
  }

  /** `Portfolio.findOne({ _id: portfolioId, userId })`. Mongoose drops a
      condition whose value is `undefined`, so a request without a
      `portfolioId` queries `{ userId }` alone and finds the caller's first
      document in the collection's natural order `scan`. */
  function FindForPublish(portfolioId: Option<string>, owner: string, scan: seq<string>, store: Store): (r: Option<string>)
    requires forall id :: id in store ==> id in scan
    ensures portfolioId.Some? ==> (r.Some? <==> Owns(store, owner, portfolioId.value))
    ensures portfolioId.Some? && r.Some? ==> r.value == portfolioId.value
    ensures portfolioId.None? ==> (r.None? <==> forall id :: id in store ==> store[id].owner != owner)
    ensures portfolioId.None? ==> r == FirstOwned(scan, owner, store)
    ensures r.Some? ==> Owns(store, owner, r.value)
  {
    match portfolioId
    case Some(id) => if Owns(store, owner, id) then Some(id) else None
    case None =>
      var r := FirstOwned(scan, owner, store);
      if r.None? then
        assert forall id :: id in store ==> store[id].owner != owner by {
          forall id | id in store ensures store[id].owner != owner {
            var i :| 0 <= i < |scan| && scan[i] == id;
          }
        }
        r
      else
        r
  }

  /** Marks one document as published at `url`. */
  function MarkPublished(store: Store, id: string, url: string): (r: Store)
    requires id in store
    ensures r.Keys == store.Keys && r[id].publishedUrl == Some(url)
    ensures r[id] == store[id].(publishedUrl := Some(url))
    ensures forall other :: other in store && other != id ==> r[other] == store[other]
  {
    store[id := store[id].(publishedUrl := Some(url))]
  }

  /** `publishPortfolio` as written: only the caller's documents can be
      published, but a request without a `portfolioId` (the only request the
      settings page sends) publishes whichever of them the query meets first.
      `scan` is the collection in natural order and lists every document. */
  function PublishPortfolioAsWritten(userId: Option<string>, portfolioId: Option<string>, customDomain: Option<string>,
                                     scan: seq<string>, store: Store): (r: Result<Published, HttpError>)
    requires forall id :: id in store ==> id in scan
    ensures Falsy(userId) ==> r == Err(AuthRequired)
    // 404 exactly when the named document is not the caller's, or, with no
    // id named, when the caller has no document at all
    ensures !Falsy(userId) ==> (r == Err(PortfolioNotFound) <==>
      if portfolioId.Some? then !Owns(store, userId.value, portfolioId.value)
      else forall id :: id in store ==> store[id].owner != userId.value)
    ensures !Falsy(userId) ==> r == Err(PortfolioNotFound) || r.Ok?
    ensures r.Ok? ==>
      && !Falsy(userId) && Owns(store, userId.value, r.value.id)
      && (portfolioId.Some? ==> r.value.id == portfolioId.value)
      && (portfolioId.None? ==> Some(r.value.id) == FirstOwned(scan, userId.value, store))
      && r.value.url == PublishedUrl(r.value.id, customDomain)
      && r.value.store == MarkPublished(store, r.value.id, r.value.url)
  {
    if Falsy(userId) then Err(AuthRequired)
    else match FindForPublish(portfolioId, userId.value, scan, store)
      case None => Err(PortfolioNotFound)
      case Some(id) =>
        var url := PublishedUrl(id, customDomain);
        Ok(Published(id, url, MarkPublished(store, id, url)))
  }

  /** `publishPortfolio` as evidently intended: only the document the request
      names is published, so a request naming none is answered 404. */
  function PublishPortfolio(userId: Option<string>, portfolioId: Option<string>, customDomain: Option<string>, store: Store): (r: Result<Published, HttpError>)
    ensures Falsy(userId) ==> r == Err(AuthRequired)
    ensures !Falsy(userId) && (portfolioId.None? || !Owns(store, userId.value, portfolioId.value)) ==>
      r == Err(PortfolioNotFound)
    ensures !Falsy(userId) && portfolioId.Some? && Owns(store, userId.value, portfolioId.value) ==> r.Ok?
    ensures r.Ok? ==>
      && !Falsy(userId) && portfolioId == Some(r.value.id) && Owns(store, userId.value, r.value.id)
      && r.value.url == PublishedUrl(r.value.id, customDomain)
      && r.value.store == MarkPublished(store, r.value.id, r.value.url)
  {
    if Falsy(userId) then Err(AuthRequired)
    else if portfolioId.None? || !Owns(store, userId.value, portfolioId.value) then Err(PortfolioNotFound)
    else
      var url := PublishedUrl(portfolioId.value, customDomain);
      Ok(Published(portfolioId.value, url, MarkPublished(store, portfolioId.value, url)))
  }

  /** With a `portfolioId` in the request, the publish as written and the
      intended one agree. */
  lemma PublishAsWrittenAgrees(userId: Option<string>, id: string, customDomain: Option<string>, scan: seq<string>, store: Store)
    requires forall d :: d in store ==> d in scan
    ensures PublishPortfolioAsWritten(userId, Some(id), customDomain, scan, store)
      == PublishPortfolio(userId, Some(id), customDomain, store)
  {
  }

  /** Without a `portfolioId`, a caller who owns any document gets one of them
      published, a document the request never named, where the intended
      publish answers 404. */
  lemma PublishWithoutIdPublishesAnyOwned(u: string, owned: string, customDomain: Option<string>, scan: seq<string>, store: Store)
    requires forall d :: d in store ==> d in scan
    requires u != "" && Owns(store, u, owned)
    ensures var r := PublishPortfolioAsWritten(Some(u), None, customDomain, scan, store);
      r.Ok? && Owns(store, u, r.value.id) && r.value.store[r.value.id].publishedUrl == Some(r.value.url)
    ensures PublishPortfolio(Some(u), None, customDomain, store) == Err(PortfolioNotFound)
  {
  }

  /** `getPortfolios`: the caller's own documents. */
  function GetPortfolios(userId: Option<string>, store: Store): (r: Result<set<string>, HttpError>)
    ensures Falsy(userId) <==> r == Err(AuthRequired)
    ensures r.Ok? ==> forall id :: id in r.value <==> id in store && store[id].owner == userId.value
  {
    if Falsy(userId) then Err(AuthRequired)
    else Ok(set id | id in store && store[id].owner == userId.value)
  }

  datatype Viewed = Viewed(portfolio: StoredPortfolio, store: Store)

  /** `getPortfolioById`: no authentication; each read counts one view. */
  function GetPortfolioById(id: string, now: int, store: Store): (r: Result<Viewed, HttpError>)
    ensures id !in store <==> r == Err(PortfolioNotFound)
    ensures r.Ok? ==>
      && r.value.portfolio.views == store[id].views + 1
      && r.value.portfolio.lastViewed == Some(now)
      && r.value.portfolio == store[id].(views := store[id].views + 1, lastViewed := Some(now))
      && r.value.store.Keys == store.Keys
      && r.value.store[id] == r.value.portfolio
      && forall other :: other in store && other != id ==> r.value.store[other] == store[other]
  {
    if id !in store then Err(PortfolioNotFound)
    else
      var p := store[id].(views := store[id].views + 1, lastViewed := Some(now));
      Ok(Viewed(p, store[id := p]))
  }

  /** A published portfolio, read back, shows the URL the publish replied with. */
  lemma PublishThenRead(userId: Option<string>, portfolioId: Option<string>, customDomain: Option<string>, now: int, store: Store)
    requires PublishPortfolio(userId, portfolioId, customDomain, store).Ok?
    ensures var p := PublishPortfolio(userId, portfolioId, customDomain, store).value;
      var v := GetPortfolioById(p.id, now, p.store);
      v.Ok? && v.value.portfolio.publishedUrl == Some(p.url)
      && v.value.portfolio.owner == store[p.id].owner
  {
  }

  /** A saved portfolio appears in its owner's list, and no other user's list
      changes. */
  lemma SaveThenList(u: string, other: string, payload: SavePayload, newId: string, store: Store)
    requires u != "" && newId !in store
    ensures var r := SavePortfolio(Some(u), payload, newId, store);
      r.Ok? && newId in GetPortfolios(Some(u), r.value).value
    ensures var r := SavePortfolio(Some(u), payload, newId, store);
      other != "" && other != u ==> GetPortfolios(Some(other), r.value) == GetPortfolios(Some(other), store)
  {
    var r := SavePortfolio(Some(u), payload, newId, store);
    if other != "" && other != u {
      var after := GetPortfolios(Some(other), r.value).value;
      var before := GetPortfolios(Some(other), store).value;
      assert after == before by {
        forall id ensures id in after <==> id in before {
          if id == newId {
            assert r.value[id].owner == u;
          }
        }
      }
    }
  }

  /** `n` reads of an existing document raise its view count by `n`. */
  function ReadTimes(id: string, n: nat, now: int, store: Store): Store
    requires id in store
    decreases n
  {
    if n == 0 then store
    else ReadTimes(id, n - 1, now, GetPortfolioById(id, now, store).value.store)
  }

  lemma {:induction false} ReadsCountViews(id: string, n: nat, now: int, store: Store)
    requires id in store
    ensures id in ReadTimes(id, n, now, store)
    ensures ReadTimes(id, n, now, store)[id].views == store[id].views + n
    ensures ReadTimes(id, n, now, store)[id].owner == store[id].owner
    decreases n
  {
    if n > 0 {
      var next := GetPortfolioById(id, now, store).value.store;
      ReadsCountViews(id, n - 1, now, next);
    }
  }
}
