# AI Portfolio Generator and TechListen, modelled in Dafny

The repository holds two products.

The **AI Portfolio Generator** has three parts:

- An Express back end. It holds a scripted and a model-driven chat controller, a Handlebars renderer with a template registry, a template catalogue, and portfolio CRUD.
- Two React front ends with Redux slices:
  - a Next.js one, with a portfolio slice, a chat slice, a user slice, the settings page and the template carousel;
  - a Vite one, with a section list slice, a chat slice, a UI slice, the chat window and the chat input.

**TechListen** is a Flask service and a browser extension:

- The service summarises an article, turns the summary into speech through a chain of text-to-speech providers, and caches the result.
- The extension's content script finds and cleans the article text of the current page.
- Its popup drives the exchange.

The model states the decision logic of each of these as pure Dafny functions over immutable data:

- Redux reducers are functions from state and action to state, with a frame predicate saying which fields an action writes.
- Controllers are functions from request and store to reply and new store.
- Model calls, the network, the database's failures, the clock and hashing are inputs.

| module | file | models |
|---|---|---|
| `Common` | common.dfy | optional values, results, JSON, HTTP errors |
| `Text` | text.dfy | whitespace, `trim`/`strip`, `split`, `join`, prefix and ellipsis |
| `Profile` | profile.dfy | `Partial<PortfolioData>` and the shallow spread merge |
| `TemplateRegistry` | registry.dfy | the renderer's template map and its lookup |
| `Renderer` | renderer.dfy | `generatePortfolioHTML` and the `modern-minimal` template's structure |
| `TemplateCatalogue`, `Carousel` | catalogue.dfy | `getTemplates`, `getTemplateById`, the carousel's navigation |
| `ChatTurn` | chat_turn.dfy | the TypeScript chat controller |
| `StepChat` | step_chat.dfy | the JavaScript chat controller and the `Chat` records |
| `ChatUi` | chat_ui.dfy | the Vite chat input and chat window |
| `PortfolioApi` | portfolio_api.dfy | the portfolio controller |
| `PortfolioStore` | portfolio_store.dfy | the Next.js portfolio slice |
| `SeoSettingsPage` | seo_settings.dfy | the settings page |
| `SectionStore` | section_store.dfy | the Vite portfolio slice |
| `AssistantChatStore` | assistant_chat_store.dfy | the Vite chat slice |
| `MessageStore` | message_store.dfy | the Next.js chat slice |
| `UserStore` | user_store.dfy | the Next.js user slice |
| `UiStore` | ui_store.dfy | the Vite UI slice |
| `ArticleService` | article_service.dfy | the Flask service's `/process-article` |
| `ContentScript` | content_script.dfy | the extension's content script |
| `Popup` | popup.dfy | the extension's popup |

Behaviour of the code worth noting:

- **Profile merge.** `updatePortfolioData` overwrites keys, as an object spread does; it does not fill only the gaps. An empty list in a later payload erases known values (`Profile.MergeOverwritesKnownSkills`).
- **Extraction failures in the TypeScript chat controller.** Only an unparseable extraction reply is tolerated. An extraction call that throws makes the whole turn answer 500 (`ChatTurn.Respond`).
- **Save failures in the JavaScript chat controller.** The `Chat` schema requires a non-empty `response` and a `step`. A `null` or empty completion, or a request without a step, makes the save fail, and the turn answers 500 (`StepChat.Respond`).
- **Publish without a portfolio id.** The publish handler reads `portfolioId` from the body, and the settings page never sends one. Mongoose drops the `undefined` condition, so such a request publishes whichever of the caller's portfolios the query meets first (`PortfolioApi.PublishPortfolioAsWritten`); the rest of the model uses the corrected `PortfolioApi.PublishPortfolio`.

## Model

| member | source | states |
|---|---|---|
| `Text.Trim` | backend/app.py:265 | the stripped text has no whitespace at either end, is no longer than the input, and is the input with its leading and then its trailing whitespace run removed |
| `Text.TrimEmptyIffAllSpace` | ai-portfolio-generator/src/components/chat/ChatInput.tsx:27 | `value.trim()` is falsy exactly when every character is whitespace |
| `Text.JoinSplit` | backend/app.py:59-64 | joining the parts of a split with the same separator gives the original string back |
| `Text.SplitCount` | ai-portfolio-generator/frontend/src/app/settings/page.tsx:27 | a split on one character yields one more part than there are occurrences of it |
| `Text.SplitJoin` | ai-portfolio-generator/frontend/src/app/settings/page.tsx:20-27 | splitting on a character that no element contains undoes a join with it |
| `Text.Ellipsize` | extension/popup.js:85 | short text is kept; long text keeps its first n characters followed by exactly "..." |
| `Text.Take` | backend/app.py:25 | the first n characters: a prefix of the input, all of it when it is short, exactly n characters otherwise |
| `Profile.Merge` | ai-portfolio-generator/frontend/src/store/portfolioSlice.ts:62-64 | every key the payload carries replaces the current value; every key it leaves out keeps the current value |
| `Profile.MergeEmpty` | ai-portfolio-generator/frontend/src/store/portfolioSlice.ts:63 | merging `{}` changes nothing |
| `Profile.MergeSequence` | ai-portfolio-generator/frontend/src/store/portfolioSlice.ts:63 | two successive merges equal one merge of the combined payload, so the latest value of each key wins |
| `Profile.MergeOverwritesKnownSkills` | ai-portfolio-generator/frontend/src/store/portfolioSlice.ts:63 | a later empty skills list erases skills already known |
| `TemplateRegistry.ResolveId` | ai-portfolio-generator/backend/src/utils/templateRenderer.ts:213-222 | the key used is always a registry key: the requested id when the registry holds it as its own key, `modern-minimal` for an unknown id or no id (corrected lookup) |
| `TemplateRegistry.Resolve` | ai-portfolio-generator/backend/src/utils/templateRenderer.ts:213-222 | a registered id gets its own source; an unknown id or no id gets the `modern-minimal` source (corrected lookup, own keys only) |
| `TemplateRegistry.RegistryKeys` | ai-portfolio-generator/backend/src/utils/templateRenderer.ts:213-219 | the registry holds exactly the five listed, pairwise distinct ids |
| `TemplateRegistry.AllIdsShareSource` | ai-portfolio-generator/backend/src/utils/templateRenderer.ts:214-218 | every id, known or not, resolves to the one `modern-minimal` source |
| `TemplateRegistry.ResolveAsWritten` | ai-portfolio-generator/backend/src/utils/templateRenderer.ts:221-223 | the lookup as written: a call without an id compiles the default source |
| `TemplateRegistry.PrototypeIdDefeatsFallback` | ai-portfolio-generator/backend/src/utils/templateRenderer.ts:222-223 | for the unknown ids "constructor" and "toString" the lookup as written fails to compile, where the corrected lookup falls back |
| `TemplateRegistry.ResolveAsWrittenAgrees` | ai-portfolio-generator/backend/src/utils/templateRenderer.ts:222 | for every id that is not an `Object.prototype` member, the code as written and the corrected lookup agree |
| `TemplateRegistry.PrototypeIdsFail` | ai-portfolio-generator/backend/src/utils/templateRenderer.ts:222-223 | the lookup as written fails exactly for ids naming an `Object.prototype` member, and the corrected lookup sends each of them to `modern-minimal` |
| `Renderer.Card` | ai-portfolio-generator/backend/src/utils/templateRenderer.ts:142-155 | a project card shows its technologies exactly when the list is non-empty, and its link exactly when the link is truthy |
| `Renderer.Cards` | ai-portfolio-generator/backend/src/utils/templateRenderer.ts:141-156 | one card per project, in input order |
| `Renderer.Links` | ai-portfolio-generator/backend/src/utils/templateRenderer.ts:188-201 | at most four contact links, in the order email, LinkedIn, GitHub, website |
| `Renderer.Expand` | ai-portfolio-generator/backend/src/utils/templateRenderer.ts:15-207 | each optional section is present exactly when its `{{#if}}` value is truthy (non-empty string or array, present object), and then carries that value; title, header and footer quote name and role |
| `Renderer.PresentHas` | ai-portfolio-generator/backend/src/utils/templateRenderer.ts:127-203 | every section whose condition holds appears on the page |
| `Renderer.PresentOnly` | ai-portfolio-generator/backend/src/utils/templateRenderer.ts:127-203 | only sections whose condition holds appear |
| `Renderer.BodyOrder` | ai-portfolio-generator/backend/src/utils/templateRenderer.ts:119-207 | any page body starts with the header, ends with the footer, and keeps the fixed section order |
| `Renderer.ExpandOrder` | ai-portfolio-generator/backend/src/utils/templateRenderer.ts:119-207 | an expanded page lists header, skills, projects, experience, education, contact and footer in that order, skipping absent ones |
| `Renderer.GeneratePortfolioHtml` | ai-portfolio-generator/backend/src/utils/templateRenderer.ts:221-225 | with the corrected lookup every template id renders the `modern-minimal` expansion |
| `Renderer.GeneratePortfolioHtmlAsWritten` | ai-portfolio-generator/backend/src/utils/templateRenderer.ts:221-225 | as written, whenever rendering succeeds it yields the `modern-minimal` expansion |
| `Renderer.TemplateIdIrrelevant` | ai-portfolio-generator/backend/src/utils/templateRenderer.ts:213-219 | the template id never changes the rendered page |
| `Renderer.MinimalProfile` | ai-portfolio-generator/backend/src/utils/templateRenderer.ts:119-207 | a profile with only name and role renders just the header and the footer |
| `Renderer.EmptyContactStillRendered` | ai-portfolio-generator/backend/src/utils/templateRenderer.ts:185-203 | an empty contact object is truthy, so the Contact section appears with no links |
| `Renderer.UnlinkLinks` | ai-portfolio-generator/backend/src/utils/templateRenderer.ts:188-201 | the contact links determine the contact's email and non-empty handles; the phone is never shown |
| `Renderer.LinksNormalize` | ai-portfolio-generator/backend/src/utils/templateRenderer.ts:188-201 | the links are the same for a contact and for its normalized form, which drops the phone and empty handles |
| `Renderer.RecoverExpand` | ai-portfolio-generator/backend/src/utils/templateRenderer.ts:119-207 | the profile can be read back from its page, up to what the page cannot show (empty strings and lists, the phone) |
| `Renderer.ExpandNormalize` | ai-portfolio-generator/backend/src/utils/templateRenderer.ts:119-207 | the page depends on nothing but the part of the profile it can show |
| `Renderer.JoinHelper` | ai-portfolio-generator/backend/src/utils/templateRenderer.ts:4-6 | an absent array joins to ""; a one-element array joins to its element |
| `Renderer.JoinHelperSplits` | ai-portfolio-generator/backend/src/utils/templateRenderer.ts:4-6 | with a one-character separator that no element contains, the joined text splits back into the array |
| `TemplateCatalogue.IdsOf` | ai-portfolio-generator/backend/src/controllers/template.controller.ts:3-44 | the ids of a list of templates, position by position |
| `TemplateCatalogue.CatalogueIds` | ai-portfolio-generator/backend/src/controllers/template.controller.ts:3-44 | the catalogue's ids are the renderer registry's keys, in the same order |
| `TemplateCatalogue.CatalogueShape` | ai-portfolio-generator/backend/src/controllers/template.controller.ts:3-44 | five entries with pairwise distinct ids |
| `TemplateCatalogue.CatalogueFileNames` | ai-portfolio-generator/backend/src/controllers/template.controller.ts:3-44 | every entry names its `.hbs` file after its id |
| `TemplateCatalogue.CatalogueMatchesRegistry` | ai-portfolio-generator/backend/src/controllers/template.controller.ts:3-44 | an id is in the catalogue exactly when the renderer registers it |
| `TemplateCatalogue.GetTemplates` | ai-portfolio-generator/backend/src/controllers/template.controller.ts:46-58 | the whole catalogue, entry by entry, in declared order |
| `TemplateCatalogue.FindIndex` | ai-portfolio-generator/backend/src/controllers/template.controller.ts:63 | the first entry with the id, or none exactly when no entry has it |
| `TemplateCatalogue.GetTemplateById` | ai-portfolio-generator/backend/src/controllers/template.controller.ts:60-82 | the entry with that id, or 404 "Template not found", and found exactly when the id is registered |
| `Carousel.SlidesMatchCatalogue` | ai-portfolio-generator/frontend/src/components/TemplateCarousel.tsx:17-53 | the carousel's five slides carry the catalogue's entries, in the same order |
| `Carousel.Previous` | ai-portfolio-generator/frontend/src/components/TemplateCarousel.tsx:60-62 | one slide back, wrapping from the first to the last, staying on the slides |
| `Carousel.Next` | ai-portfolio-generator/frontend/src/components/TemplateCarousel.tsx:64-66 | one slide forward, wrapping from the last to the first, staying on the slides |
| `Carousel.PreviousNextInverse` | ai-portfolio-generator/frontend/src/components/TemplateCarousel.tsx:60-66 | previous and next undo each other |
| `Carousel.NextsRotate` | ai-portfolio-generator/frontend/src/components/TemplateCarousel.tsx:64-66 | n clicks on next move n slides forward modulo the slide count |
| `Carousel.FiveNextsReturn` | ai-portfolio-generator/frontend/src/components/TemplateCarousel.tsx:64-66 | five clicks on next come back to the starting slide |
| `Carousel.Navigate` | ai-portfolio-generator/frontend/src/components/TemplateCarousel.tsx:135-138 | a dot click jumps to its slide; no click changes the selection; the index stays on the slides |
| `Carousel.IndexStaysOnSlides` | ai-portfolio-generator/frontend/src/components/TemplateCarousel.tsx:60-66 | any sequence of arrow and dot clicks keeps the index on the slides |
| `Carousel.Select` | ai-portfolio-generator/frontend/src/components/TemplateCarousel.tsx:68-71 | selecting marks the id in the carousel and in the store, and changes no other store field |
| `ChatTurn.Converse` | ai-portfolio-generator/backend/src/controllers/chat.controller.ts:36-39 | each prior message keeps its content; role `user` stays the user, every other role becomes the assistant |
| `ChatTurn.History` | ai-portfolio-generator/backend/src/controllers/chat.controller.ts:34-41 | the system prompt, then the prior messages, then the new message |
| `ChatTurn.ReplyText` | ai-portfolio-generator/backend/src/controllers/chat.controller.ts:51 | the reply is never empty: the completion's content, or the apology when it is null or empty |
| `ChatTurn.Lines` | ai-portfolio-generator/backend/src/controllers/chat.controller.ts:57 | one "role: content" line per prior message |
| `ChatTurn.Transcript` | ai-portfolio-generator/backend/src/controllers/chat.controller.ts:57-58 | the new message is the last line: after a bare newline when there is no prior message, else after the prior lines, all joined by newlines |
| `ChatTurn.Extracted` | ai-portfolio-generator/backend/src/controllers/chat.controller.ts:68-74 | the parsed extraction, or `{}` when the content is empty or does not parse |
| `ChatTurn.SaveTurn` | ai-portfolio-generator/backend/src/controllers/chat.controller.ts:77-87 | with a session id, appends the user message and the reply and replaces the extracted data; no other session changes |
| `ChatTurn.Respond` | ai-portfolio-generator/backend/src/controllers/chat.controller.ts:25-102 | 400 exactly when the message is falsy, with no model call; 500 when either model call throws; two completed calls always give a reply, which carries the reply text, the extracted data and the saved session |
| `ChatTurn.UnparseableExtractionTolerated` | ai-portfolio-generator/backend/src/controllers/chat.controller.ts:68-74 | an extraction reply that does not parse still gives a successful turn with `{}` |
| `ChatTurn.TranscriptLines` | ai-portfolio-generator/backend/src/controllers/chat.controller.ts:56-58 | the transcript splits back into one line per prior message followed by the new message |
| `ChatTurn.CreateChatSession` | ai-portfolio-generator/backend/src/controllers/chat.controller.ts:104-122 | adds one empty session of the requesting user under the new id, and touches no other session |
| `ChatTurn.FirstTurnOnNewSession` | ai-portfolio-generator/backend/src/controllers/chat.controller.ts:77-87 | a turn on a fresh session stores exactly that exchange |
| `StepChat.FallbackTable` | ai-portfolio-generator/backend/src/controllers/chatController.js:70-76 | the table has an entry exactly for steps 1 to 5 |
| `StepChat.FallbackReply` | ai-portfolio-generator/backend/src/controllers/chatController.js:77 | the table's entry for steps 1 to 5, and the default reply for any other or missing step |
| `StepChat.FallbackNonEmpty` | ai-portfolio-generator/backend/src/controllers/chatController.js:70-77 | no fallback reply is empty |
| `StepChat.FallbackQuotesMessage` | ai-portfolio-generator/backend/src/controllers/chatController.js:71-72 | the step 1 and step 2 fallbacks contain the user's message verbatim |
| `StepChat.FallbackIgnoresMessageElsewhere` | ai-portfolio-generator/backend/src/controllers/chatController.js:73-77 | every other fallback (steps 3 to 5 and the default) does not depend on the message |
| `StepChat.GenerateReply` | ai-portfolio-generator/backend/src/controllers/chatController.js:55-78 | the completion's content, or the fallback when the model call throws |
| `StepChat.Respond` | ai-portfolio-generator/backend/src/controllers/chatController.js:8-41 | 400 exactly when message or userId is falsy, and every other failure is 500 "Failed to process message"; on success the next step, `completed` exactly when step ≥ 5, a non-empty reply, and the saved `Chat` record |
| `StepChat.FallbackTurnSucceeds` | ai-portfolio-generator/backend/src/controllers/chatController.js:67-78 | when the model call throws, a turn with a step always succeeds |
| `StepChat.History` | ai-portfolio-generator/backend/src/controllers/chatController.js:84 | a record is in the history exactly when it is stored and belongs to the user |
| `StepChat.ClearHistory` | ai-portfolio-generator/backend/src/controllers/chatController.js:95 | exactly the other users' records remain, and the removed count is the user's history length |
| `StepChat.ClearThenHistory` | ai-portfolio-generator/backend/src/controllers/chatController.js:81-101 | after clearing, the user's history is empty and every other user's history is unchanged |
| `StepChat.GetChatHistory` | ai-portfolio-generator/backend/src/controllers/chatController.js:81-90 | the user's records, or 500 exactly when the database call fails |
| `StepChat.ClearChatHistory` | ai-portfolio-generator/backend/src/controllers/chatController.js:92-101 | "Chat history cleared" with only the user's records removed, or 500 with nothing removed |
| `ChatUi.HandleSend` | ai-portfolio-generator/src/components/chat/ChatInput.tsx:26-30 | something is sent exactly when the input is not blank and not disabled, and it is the trimmed, non-empty input |
| `ChatUi.HandleKeyPress` | ai-portfolio-generator/src/components/chat/ChatInput.tsx:19-24 | Enter without Shift sends as the button would; any other key sends nothing |
| `ChatUi.SendButtonDisabled` | ai-portfolio-generator/src/components/chat/ChatInput.tsx:45 | the button is disabled exactly when the input is blank (all whitespace) or the input is disabled |
| `ChatUi.SendButtonMatchesSend` | ai-portfolio-generator/src/components/chat/ChatInput.tsx:26-45 | the Send button is enabled exactly when pressing it sends something |
| `ChatUi.ScriptedReply` | ai-portfolio-generator/src/components/chat/ChatWindow.tsx:50-60 | the window's reply table is the back end's fallback table, step by step, and no reply is empty |
| `ChatUi.HandleSendMessage` | ai-portfolio-generator/src/components/chat/ChatWindow.tsx:25-48 | a blank message dispatches nothing; otherwise the user message, typing on, the scripted reply, typing off |
| `ChatUi.SendMessageEffect` | ai-portfolio-generator/src/components/chat/ChatWindow.tsx:25-48 | sending appends the user's message and then the reply, leaves typing off, and keeps step and profile |
| `ChatUi.BlankMessageIgnored` | ai-portfolio-generator/src/components/chat/ChatWindow.tsx:26 | a blank message leaves the store unchanged |
| `ChatUi.StepNeverAdvances` | ai-portfolio-generator/src/components/chat/ChatWindow.tsx:25-60 | the window never dispatches a step change, so a conversation of any length stays on its step |
| `PortfolioApi.RenderPortfolio` | ai-portfolio-generator/backend/src/controllers/portfolio.controller.ts:6-32 | 400 "Portfolio data is required" exactly when the data is missing; 500 "Failed to render portfolio" exactly when a truthy template id names an `Object.prototype` member; otherwise the `modern-minimal` expansion of the data |
| `PortfolioApi.RenderWithoutTemplate` | ai-portfolio-generator/backend/src/controllers/portfolio.controller.ts:17-23 | with no template id, or a registered one, the page is the expansion of the data |
| `PortfolioApi.EffectiveTemplateId` | ai-portfolio-generator/backend/src/controllers/portfolio.controller.ts:18 | the id passed on is never empty and is the request's id when that is truthy; substituting `modern-minimal` changes neither the lookup as written nor the corrected lookup |
| `PortfolioApi.SavePortfolioAsWritten` | ai-portfolio-generator/backend/src/controllers/portfolio.controller.ts:34-62 | the save as written: 401 exactly without a user; otherwise one new document under the fresh id, holding the body's profile, owned by the body's `userId` when it has one and by the caller otherwise; every existing document unchanged |
| `PortfolioApi.SaveAsWrittenMisfiles` | ai-portfolio-generator/backend/src/controllers/portfolio.controller.ts:46-49 | a body naming another user files the new portfolio under that user |
| `PortfolioApi.SavePortfolio` | ai-portfolio-generator/backend/src/controllers/portfolio.controller.ts:34-62 | 401 without a user; otherwise one new document owned by the caller, with the schema's defaults, and no other document changes |
| `PortfolioApi.SaveAsWrittenAgrees` | ai-portfolio-generator/backend/src/controllers/portfolio.controller.ts:46-49 | without an owner in the body, the save as written and the corrected save agree |
| `PortfolioApi.PublishedUrl` | ai-portfolio-generator/backend/src/controllers/portfolio.controller.ts:86-87 | the fixed host followed by the custom domain when it is truthy, else by the portfolio id |
| `PortfolioApi.FirstOwned` | ai-portfolio-generator/backend/src/controllers/portfolio.controller.ts:76 | the first id in the collection's natural order that names a document of the caller; none exactly when no id in that order does |
| `PortfolioApi.FindForPublish` | ai-portfolio-generator/backend/src/controllers/portfolio.controller.ts:66-76 | with a `portfolioId`, that document exactly when the caller owns it; without one, the condition on `_id` is dropped and the caller's first document is found, none exactly when the caller owns none |
| `PortfolioApi.MarkPublished` | ai-portfolio-generator/backend/src/controllers/portfolio.controller.ts:91-92 | the published URL is recorded on that document; every other document and the set of ids are unchanged |
| `PortfolioApi.PublishPortfolioAsWritten` | ai-portfolio-generator/backend/src/controllers/portfolio.controller.ts:64-105 | 401 without a user; 404 exactly when the named document is not the caller's or, with no id named, when the caller owns nothing; otherwise the found document, always the caller's, is published at the URL built from its id |
| `PortfolioApi.PublishPortfolio` | ai-portfolio-generator/backend/src/controllers/portfolio.controller.ts:64-105 | 401 without a user; 404 when no id is named or the named document is absent or someone else's; success whenever the caller owns the named document, which is the one published, with the URL recorded on it only |
| `PortfolioApi.PublishAsWrittenAgrees` | ai-portfolio-generator/backend/src/controllers/portfolio.controller.ts:64-105 | with a `portfolioId` in the request the publish as written and the corrected one give the same answer and the same store |
| `PortfolioApi.PublishWithoutIdPublishesAnyOwned` | ai-portfolio-generator/backend/src/controllers/portfolio.controller.ts:66-76 | a request without a `portfolioId` from a caller who owns a document publishes one of theirs as written, where the corrected publish answers 404 |
| `PortfolioApi.GetPortfolios` | ai-portfolio-generator/backend/src/controllers/portfolio.controller.ts:107-131 | 401 without a user; otherwise exactly the ids of the caller's documents |
| `PortfolioApi.GetPortfolioById` | ai-portfolio-generator/backend/src/controllers/portfolio.controller.ts:133-161 | 404 exactly when the id is absent; otherwise one more view, the read time recorded, nothing else changed |
| `PortfolioApi.ReadsCountViews` | ai-portfolio-generator/backend/src/controllers/portfolio.controller.ts:145-148 | n reads of an existing document raise its view count by exactly n |
| `PortfolioApi.PublishThenRead` | ai-portfolio-generator/backend/src/controllers/portfolio.controller.ts:64-161 | a portfolio read after publishing shows the published URL and the same owner |
| `PortfolioApi.SaveThenList` | ai-portfolio-generator/backend/src/controllers/portfolio.controller.ts:34-131 | after a save, the caller's list holds the new id and every other user's list is unchanged |
| `PortfolioStore.MergeSeo` | ai-portfolio-generator/frontend/src/store/portfolioSlice.ts:74-76 | each SEO key the patch carries replaces the current value; the others stay |
| `PortfolioStore.Reduce` | ai-portfolio-generator/frontend/src/store/portfolioSlice.ts:61-77 | each action writes its own field, as the payload says, and leaves every other field alone |
| `PortfolioStore.InitialStateIsEmpty` | ai-portfolio-generator/frontend/src/store/portfolioSlice.ts:46-56 | empty profile, no template, empty preview, no URL, empty SEO settings |
| `PortfolioStore.MergeSeoLaws` | ai-portfolio-generator/frontend/src/store/portfolioSlice.ts:74-76 | the empty patch changes nothing, and applying a patch twice is applying it once |
| `PortfolioStore.UpdatePortfolioDataLaws` | ai-portfolio-generator/frontend/src/store/portfolioSlice.ts:62-64 | an empty profile update leaves the state alone, and repeating an update changes nothing more |
| `PortfolioStore.DistinctFieldsCommute` | ai-portfolio-generator/frontend/src/store/portfolioSlice.ts:61-77 | actions on different fields commute |
| `SeoSettingsPage.TrimAll` | ai-portfolio-generator/frontend/src/app/settings/page.tsx:27 | element by element, the trimmed strings |
| `SeoSettingsPage.FormatKeywords` | ai-portfolio-generator/frontend/src/app/settings/page.tsx:20 | no keywords show as "", one as itself, and each further keyword is appended after ", " |
| `SeoSettingsPage.ParseKeywords` | ai-portfolio-generator/frontend/src/app/settings/page.tsx:27 | one keyword per comma-separated piece (commas + 1), each trimmed |
| `SeoSettingsPage.FormOf` | ai-portfolio-generator/frontend/src/app/settings/page.tsx:17-21 | the form starts from the stored title and description, and the keywords as `FormatKeywords` shows them ("" for none) |
| `SeoSettingsPage.HandleSave` | ai-portfolio-generator/frontend/src/app/settings/page.tsx:23-30 | saving writes title, description and parsed keywords, and no other store field |
| `SeoSettingsPage.JoinSpaced` | ai-portfolio-generator/frontend/src/app/settings/page.tsx:20-27 | splitting the ", "-joined list on "," gives the keywords, each after the first with one leading space |
| `SeoSettingsPage.KeywordsRoundTrip` | ai-portfolio-generator/frontend/src/app/settings/page.tsx:20-27 | a non-empty list of trimmed, comma-free keywords survives being shown and read back |
| `SeoSettingsPage.SaveUntouchedForm` | ai-portfolio-generator/frontend/src/app/settings/page.tsx:17-30 | saving the untouched form leaves the store as it was when the stored keywords are plain and non-empty |
| `SeoSettingsPage.SaveUntouchedEmptyKeywords` | ai-portfolio-generator/frontend/src/app/settings/page.tsx:20-27 | with no stored keywords, saving the untouched form stores one empty keyword |
| `SeoSettingsPage.PublishBody` | ai-portfolio-generator/frontend/src/app/settings/page.tsx:40 | the request body holds only the key `customDomain`, whose value is the typed domain |
| `SeoSettingsPage.PublishEnabled` | ai-portfolio-generator/frontend/src/app/settings/page.tsx:182 | the publish button is enabled exactly when no request is running and a custom domain is typed |
| `SeoSettingsPage.HandlePublish` | ai-portfolio-generator/frontend/src/app/settings/page.tsx:32-51 | a reply that parses sets the published URL to its `url` and announces success; a failed fetch announces the error and changes nothing |
| `SeoSettingsPage.ReplyWithoutUrlClearsUrl` | ai-portfolio-generator/frontend/src/app/settings/page.tsx:42-44 | a reply without a URL still announces success and clears a URL already published |
| `SectionStore.InsertLastSorted` | ai-portfolio-generator/src/store/slices/portfolioSlice.ts:58 | inserting into a sorted list keeps it sorted |
| `SectionStore.SortByOrderSorted` | ai-portfolio-generator/src/store/slices/portfolioSlice.ts:58 | the sort returns a sorted permutation of its input |
| `SectionStore.SortByOrderStable` | ai-portfolio-generator/src/store/slices/portfolioSlice.ts:58 | the sort is stable: sections of equal order keep their relative order |
| `SectionStore.SortByOrderOfSorted` | ai-portfolio-generator/src/store/slices/portfolioSlice.ts:58 | a list already in order comes back unchanged |
| `SectionStore.AddSection` | ai-portfolio-generator/src/store/slices/portfolioSlice.ts:56-59 | one more section, and as a multiset the earlier sections plus the new one |
| `SectionStore.AddSectionProperties` | ai-portfolio-generator/src/store/slices/portfolioSlice.ts:56-59 | after `addSection` the list is sorted and holds every earlier section and the new one |
| `SectionStore.AddSectionToSorted` | ai-portfolio-generator/src/store/slices/portfolioSlice.ts:56-59 | on a sorted list the new section lands after every section of the same order |
| `SectionStore.Patch` | ai-portfolio-generator/src/store/slices/portfolioSlice.ts:63 | each key the update carries replaces the section's value; the others stay |
| `SectionStore.FindSection` | ai-portfolio-generator/src/store/slices/portfolioSlice.ts:61 | the index of the first section with the id, or none exactly when no section has it |
| `SectionStore.UpdateSection` | ai-portfolio-generator/src/store/slices/portfolioSlice.ts:60-65 | patches the first section with the id and only it; an absent id changes nothing |
| `SectionStore.RemoveSection` | ai-portfolio-generator/src/store/slices/portfolioSlice.ts:66-68 | no section with the id remains |
| `SectionStore.RemoveSectionKeeps` | ai-portfolio-generator/src/store/slices/portfolioSlice.ts:67 | every section with another id survives removal as often as it occurred |
| `SectionStore.RemoveSectionSplits` | ai-portfolio-generator/src/store/slices/portfolioSlice.ts:67 | removal works piecewise, so the kept sections stay in their order |
| `SectionStore.RemoveAbsentSection` | ai-portfolio-generator/src/store/slices/portfolioSlice.ts:67 | removing an id no section has changes nothing |
| `SectionStore.RemoveSectionSorted` | ai-portfolio-generator/src/store/slices/portfolioSlice.ts:66-68 | removal keeps a sorted list sorted |
| `SectionStore.Reduce` | ai-portfolio-generator/src/store/slices/portfolioSlice.ts:52-87 | each action writes its own field as the payload says; reset restores the initial state |
| `SectionStore.ReduceKeepsSorted` | ai-portfolio-generator/src/store/slices/portfolioSlice.ts:52-87 | every action except an update that sets `order` keeps the sections sorted |
| `SectionStore.UpdateOrderCanUnsort` | ai-portfolio-generator/src/store/slices/portfolioSlice.ts:60-65 | an update that lowers a section's order below its predecessor's leaves the list unsorted |
| `AssistantChatStore.MergeProfile` | ai-portfolio-generator/src/store/slices/chatSlice.ts:58-60 | each profile key the patch carries replaces the current value; the others stay |
| `AssistantChatStore.Reduce` | ai-portfolio-generator/src/store/slices/chatSlice.ts:43-66 | each action writes only its own fields, as the payload says |
| `AssistantChatStore.InitialStateShape` | ai-portfolio-generator/src/store/slices/chatSlice.ts:25-38 | one welcome message from the assistant, step 1 of 5, an empty profile, not typing |
| `AssistantChatStore.ClearChatRestores` | ai-portfolio-generator/src/store/slices/chatSlice.ts:61-65 | clearing restores the initial state except for the typing flag and the step count |
| `AssistantChatStore.MergeProfileLaws` | ai-portfolio-generator/src/store/slices/chatSlice.ts:58-60 | the empty patch changes nothing, and applying a patch twice is applying it once |
| `AssistantChatStore.MessagesOnlyGrowByAdding` | ai-portfolio-generator/src/store/slices/chatSlice.ts:43-66 | actions that neither add messages nor clear the chat leave the messages alone |
| `MessageStore.Reduce` | ai-portfolio-generator/frontend/src/store/chatSlice.ts:24-42 | each action writes only its own fields; the step count never changes |
| `MessageStore.AddedInOrder` | ai-portfolio-generator/frontend/src/store/chatSlice.ts:28-30 | without a clear, the messages are the earlier ones followed by the added ones, in order |
| `MessageStore.ClearMessagesRestores` | ai-portfolio-generator/frontend/src/store/chatSlice.ts:37-40 | clearing a state that is not loading gives the initial state |
| `UserStore.Reduce` | ai-portfolio-generator/frontend/src/store/userSlice.ts:19-36 | setting a user authenticates; setting a token leaves authentication alone; logout clears everything |
| `UserStore.LogoutRestores` | ai-portfolio-generator/frontend/src/store/userSlice.ts:30-34 | logging out from any state gives the initial state |
| `UserStore.NullUserAuthenticates` | ai-portfolio-generator/frontend/src/store/userSlice.ts:23-26 | setting a null user still marks the session authenticated |
| `UserStore.TokenDoesNotAuthenticate` | ai-portfolio-generator/frontend/src/store/userSlice.ts:27-29 | setting a token on a signed-out state does not authenticate |
| `UiStore.Reduce` | ai-portfolio-generator/src/store/slices/uiSlice.ts:21-44 | each action writes only its own field: toggles negate, setters store the payload |
| `UiStore.ToggleTwiceIsIdentity` | ai-portfolio-generator/src/store/slices/uiSlice.ts:25-39 | every toggle undoes itself |
| `UiStore.SettersIdempotent` | ai-portfolio-generator/src/store/slices/uiSlice.ts:28-42 | setting the same value twice is setting it once |
| `UiStore.InitialStateShape` | ai-portfolio-generator/src/store/slices/uiSlice.ts:12-19 | landing page, desktop preview, every flag off |
| `ArticleService.CacheKey` | backend/app.py:24-25 | the hash of the whole text when it has at most 200 characters, else of its first 200 |
| `ArticleService.CacheKeySeesOnlyPrefix` | backend/app.py:24-25 | texts that agree on their first 200 characters share a cache key |
| `ArticleService.FallbackSummarize` | backend/app.py:57-66 | the fallback summary is at most 403 characters and ends in "..." when it was cut |
| `ArticleService.FallbackShortText` | backend/app.py:63-66 | with fewer than three ". "-separated sentences the summary is the text itself, cut to 400 characters plus "..." |
| `ArticleService.FallbackLongText` | backend/app.py:61-62 | with three or more sentences the summary is the first, the second and the last, joined by ". " |
| `ArticleService.Summarize` | backend/app.py:27-55 | the model's answer on the first 3000 characters, stripped; when the call fails, the fallback summary, at most 403 characters |
| `ArticleService.SummaryOnlySeesExcerpt` | backend/app.py:37 | when the model answers, nothing past the first 3000 characters matters |
| `ArticleService.ProviderNamed` | backend/app.py:200-206 | a provider name is known exactly when it is one of the five table keys |
| `ArticleService.NamesRoundTrip` | backend/app.py:200-206 | each provider's name leads back to it |
| `ArticleService.RunProvider` | backend/app.py:170-191 | the browser provider always yields "tts:" and the text; a remote one yields a non-empty file name exactly when its service works |
| `ArticleService.FirstFallback` | backend/app.py:217-224 | the result comes from a fallback provider other than the primary that succeeded; with the browser among them, some provider succeeds |
| `ArticleService.PrimaryFirst` | backend/app.py:209-214 | a known primary provider that succeeds is the one used |
| `ArticleService.FallbackChosen` | backend/app.py:216-226 | otherwise OpenAI, ElevenLabs and the browser are tried in that order, skipping the primary |
| `ArticleService.GenerateSpeech` | backend/app.py:197-226 | the speech comes from the provider it names, which produced that file; a provider other than the configured one is used only when that one is unknown or fails |
| `ArticleService.SpeechAlwaysProduced` | backend/app.py:197-226 | speech generation never fails, because the browser fallback always succeeds |
| `ArticleService.AudioUrl` | backend/app.py:305 | a "tts:" result is passed as it is; a file name is served under "/audio/" |
| `ArticleService.Member` | backend/app.py:262-265 | a key has a value exactly when some member of the body carries it, and the value is that of the last such member |
| `ArticleService.MemberAppend` | backend/app.py:262-265 | a member appended to the body wins for its own key and leaves every other key's value alone |
| `ArticleService.Article` | backend/app.py:265-271 | the stripped text, cut to `MAX_TEXT_LENGTH` (10000) characters |
| `ArticleService.Validate` | backend/app.py:262-271 | "No text provided" for a missing or empty body or no `text`; "Internal server error" for a non-string text; "Article too short" under 100 characters after stripping; otherwise the article |
| `ArticleService.Answer` | backend/app.py:273-313 | a cached key answers from the cache; otherwise the summary, the speech `generate_speech` gives for it, stored under the key, answered uncached |
| `ArticleService.ProcessArticle` | backend/app.py:257-317 | a validation error is the reply with the cache unchanged; otherwise the answer for the article |
| `ArticleService.LongArticleTruncated` | backend/app.py:270-271 | an article longer than the limit is summarised from its first 10000 characters |
| `ArticleService.TextBodyValidates` | backend/app.py:262-271 | a text-only body passes exactly when its stripped text has at least 100 characters |
| `ArticleService.AnswerTwice` | backend/app.py:274-285 | answering an article again answers from the cache with the first answer's summary and audio |
| `ArticleService.RepeatIsCached` | backend/app.py:257-313 | processing the same text twice answers the second time from the cache, with the same summary and audio |
| `ArticleService.SharedPrefixSharesAnswer` | backend/app.py:274-285 | two articles whose stripped texts agree on their first 200 characters get the same cached answer |
| `ContentScript.TextOf` | extension/content.js:18 | the `innerText` when it is non-empty, else the `textContent` |
| `ContentScript.DropRun` | extension/content.js:44-46 | the leading run of matching characters is removed, and nothing more |
| `ContentScript.ReplaceRuns` | extension/content.js:44-46 | every run of matching characters becomes one space: no two matching characters in a row remain |
| `ContentScript.ReplaceRunsNoMatch` | extension/content.js:45-46 | a string without a matching character is left alone |
| `ContentScript.ReplaceRunsSplit` | extension/content.js:44-46 | a maximal run of matching characters becomes exactly one space, and the text on either side of it is replaced independently |
| `ContentScript.CollapseKeepsVisible` | extension/content.js:44 | collapsing whitespace keeps every other character, in order |
| `ContentScript.Collapse` | extension/content.js:44-46 | the three replacements together collapse every whitespace run to one space |
| `ContentScript.CleanTo` | extension/content.js:41-49 | the collapsed, trimmed text cut to the limit: a prefix of it, all of it when short, with single spaces only and no leading space |
| `ContentScript.CleanKeepsVisible` | extension/content.js:41-49 | when nothing is cut, cleaning keeps every non-whitespace character, in order |
| `ContentScript.CleanText` | extension/content.js:41-49 | the cleaned text is at most 5000 characters: the collapsed, trimmed text cut to 5000 |
| `ContentScript.Select` | extension/content.js:4-16 | one `querySelector` result per article selector, in the listed order |
| `ContentScript.ArticleElementFirst` | extension/content.js:15-21 | an `article` element with more than 500 characters wins over every other selector |
| `ContentScript.ExtractArticleText` | extension/content.js:2-39 | the cleaned text of the first selector whose element has more than 500 characters; failing that, of the largest `p`/`div` over 300 characters, the earliest among equals; none when neither exists |
| `ContentScript.HandleExtract` | extension/content.js:52-65 | the reply carries the page title and URL, and `success` exactly when the text is non-empty; its text is the first qualifying selector's, else the longest `p`/`div` text over 300 characters, else absent exactly when no block exceeds 300 |
| `ContentScript.BlankArticleIsFound` | extension/content.js:15-21 | a selected element of only whitespace is chosen, but cleans to the empty text |
| `Popup.HideAllSections` | extension/popup.js:114-119 | the four sections are hidden; main-content and everything else are untouched |
| `Popup.ShowLoading` | extension/popup.js:75-79 | only the loading section of the four is shown, with the message |
| `Popup.Preview` | extension/popup.js:85 | the first 200 characters, with "..." exactly when the text is longer |
| `Popup.ShowArticlePreview` | extension/popup.js:81-87 | only the preview section of the four is shown, with the preview of the text |
| `Popup.ShowResult` | extension/popup.js:89-100 | only the result section of the four is shown, with the summary and the audio source |
| `Popup.ShowError` | extension/popup.js:102-106 | only the error section of the four is shown, with the message |
| `Popup.ResetApp` | extension/popup.js:108-112 | the article is forgotten, the four sections are hidden and main-content is shown |
| `Popup.ExtractArticle` | extension/popup.js:17-37 | a usable response is kept and previewed; otherwise an error, with one message for a failed exchange and another for an unusable response |
| `Popup.GenerateSummaryAndAudio` | extension/popup.js:39-73 | no request without article text; a successful reply shows the result; a failed one its error, or a default; a network or HTTP failure the connection message |
| `Popup.ShortArticleReported` | extension/popup.js:64-67 | the service's "Article too short" reply reaches the error section |
| `Popup.MainContentOnlyShownByReset` | extension/popup.js:17-73 | extracting and summarising never change whether main-content is shown |

## Left out

- TemplateRegistry.Resolve: the repository has a single Handlebars source, so every lookup returns it; which registry key the lookup settles on is stated on `TemplateRegistry.ResolveId`.
- I/O: HTTP transport, MongoDB, the file system and the DOM are left out. Each is replaced by the data it yields, or by a flag saying that it failed.
- The language-model calls, the text-to-speech services, `hashlib.md5`, `Date.now()` and `new Date()` are inputs of the model. Their wording and parameters (prompts, voices, `max_tokens`) are not modelled.
- The HTML text is not modelled: `Renderer.Document` is the page's structure with raw strings. Handlebars' HTML escaping and the CSS are left out.
- Non-object JSON bodies are left out. So are Express's `req.body` parsing, the authentication middleware that sets `req.userId`, and an invalid Mongo ObjectId. The collection's natural order, which decides the document a publish without a `portfolioId` finds, is a parameter (`scan`).
- PortfolioApi.SavePortfolioAsWritten: the body keys `_id`, `publishedUrl`, `htmlContent`, `seoSettings`, `analytics.views` and `analytics.lastViewed` are not modelled. A new document gets the schema's defaults for them, and the fresh `_id` Mongo generates is the `newId` input, which no stored document has.
- `PortfolioApi.GetPortfolios`: returns the set of ids. The `updatedAt` sort is not modelled, because timestamps are not modelled.
- ChatTurn.SaveTurn: stores the extracted data as parsed. `findByIdAndUpdate` casts it against the session schema (ai-portfolio-generator/backend/src/models/ChatSession.model.ts:51-60): keys other than the eight declared ones are dropped, numbers in `name`, `role` and `bio` become strings, and a value that cannot be cast (an object for `name`, say) rejects the update, which the controller answers with 500 "Failed to process message". The cast is not modelled, so `ChatTurn.Respond`'s reply after two completed model calls holds only for extractions the schema accepts.
- ChatTurn.Respond: a `messages` key that is present but `null` is not modelled. The default `[]` covers only an absent key, so such a request throws at `messages.map` and answers 500 before any model call.
- `StepChat.History`: keeps stored order. The sort by `timestamp`, newest first, is not modelled, because timestamps are not modelled.
- The 500 replies of the Express controllers after a database error are modelled only where the error changes what is stored: `StepChat` history, and the `Chat` schema's required fields. The "Failed to save/publish/fetch portfolio" replies are left out.
- `ArticleService.RunProvider`: the AWS Polly and Azure SDK calls, and ElevenLabs' HTTP status, are one "works" flag per provider. An empty file name cannot come back from a remote provider.
- The `/health`, `/voices` and `/audio/<filename>` endpoints are left out because they only read the configuration or the disk. So is the cache entry's `timestamp`, which nothing reads.
- `ChatUi.HandleSendMessage`: the 1.5 s timer is left out. The reply is dispatched right after the user's message, so an interleaving with other actions during the delay is not modelled.
- Lengths are counted in Dafny characters. JavaScript's `length`, `substring` and the extension's limits (500, 300, 5000, and the popup's 200) count UTF-16 code units, so text outside the Basic Multilingual Plane is measured differently.
- JavaScript numbers (the chat `step`, a section's `order`) are unbounded integers. Fractions, `NaN` and precision loss are not modelled. The request's `step` is taken to be a JSON number or absent.
- `Text.IsSpace`: JavaScript's `\s`/`trim` and Python's `strip` use the Unicode whitespace class. The model uses space, tab, line feed, carriage return, vertical tab, form feed and no-break space.
- Popup wiring (`initializeEventListeners`, `DOMContentLoaded`), the `alert` calls on the settings page, scrolling and styling are left out.
- `SectionStore.Reduce`: `setTemplate` stores an opaque template value. The template's own fields are not modelled.

## Findings

| source | as written | input that shows it | evidently intended | confidence | as-written member | corrected member |
|---|---|---|---|---|---|---|
| ai-portfolio-generator/backend/src/utils/templateRenderer.ts:222 | `templates[templateId] \|\| templates['modern-minimal']` looks the id up on a plain object literal, so ids naming `Object.prototype` members find an inherited function; it is truthy, and `Handlebars.compile` throws on it | `templateId = "constructor"` (or `"toString"`) | an unknown id falls back to `modern-minimal` | not executed | `TemplateRegistry.ResolveAsWritten`, `TemplateRegistry.PrototypeIdDefeatsFallback`, `PortfolioApi.RenderPortfolio` | `TemplateRegistry.ResolveId`, `TemplateRegistry.Resolve` |
| ai-portfolio-generator/backend/src/controllers/portfolio.controller.ts:46-49 | `Portfolio.create({ userId, ...portfolioData })` spreads the body after the authenticated id, so a `userId` key in `portfolioData` replaces it | caller `alice` posts `portfolioData = { userId: "mallory", … }` | the new portfolio belongs to the authenticated caller | not executed | `PortfolioApi.SavePortfolioAsWritten`, `PortfolioApi.SaveAsWrittenMisfiles` | `PortfolioApi.SavePortfolio` |
| ai-portfolio-generator/backend/src/controllers/portfolio.controller.ts:76 | `Portfolio.findOne({ _id: portfolioId, userId })` with `portfolioId` taken from the body; Mongoose drops a condition whose value is `undefined`, so without a `portfolioId` the query is `{ userId }` and matches any of the caller's portfolios, which is then published | caller `alice`, owning portfolios `p1` and `p2`, posts `{ customDomain: "me.dev" }` with no `portfolioId`, the body the settings page sends (settings/page.tsx:40) | a publish names the portfolio it publishes; a request naming none is answered 404 | not executed | `PortfolioApi.PublishPortfolioAsWritten`, `PortfolioApi.PublishWithoutIdPublishesAnyOwned` | `PortfolioApi.PublishPortfolio`, `PortfolioApi.PublishAsWrittenAgrees` |
