/** The `ui` slice: sidebar, preview mode, current page and three flags. */
module UiStore {

  datatype PreviewMode = Desktop | Tablet | Mobile

  datatype Page = Landing | ChatPage | Templates | Builder | Settings | Dashboard

  datatype State = State(sidebarOpen: bool, previewMode: PreviewMode, currentPage: Page, showSettings: bool, showAnalytics: bool, loading: bool)

  const InitialState: State := State(false, Desktop, Landing, false, false, false)

  datatype Action =
    | ToggleSidebar
    | SetPreviewMode(mode: PreviewMode)
    | SetCurrentPage(page: Page)
    | ToggleSettings
    | ToggleAnalytics
    | SetLoading(loading: bool)

  datatype Field = SidebarField | PreviewField | PageField | SettingsField | AnalyticsField | LoadingField

  predicate ChangesOnly(s: State, r: State, f: Field) {
    && (f != SidebarField ==> r.sidebarOpen == s.sidebarOpen)
    && (f != PreviewField ==> r.previewMode == s.previewMode)
    && (f != PageField ==> r.currentPage == s.currentPage)
    && (f != SettingsField ==> r.showSettings == s.showSettings)
    && (f != AnalyticsField ==> r.showAnalytics == s.showAnalytics)
    && (f != LoadingField ==> r.loading == s.loading)
  }

  function Target(a: Action): Field {
    match a
    case ToggleSidebar => SidebarField
    case SetPreviewMode(_) => PreviewField
    case SetCurrentPage(_) => PageField
    case ToggleSettings => SettingsField
    case ToggleAnalytics => AnalyticsField
    case SetLoading(_) => LoadingField
  }

  predicate IsToggle(a: Action) {
    a.ToggleSidebar? || a.ToggleSettings? || a.ToggleAnalytics?
  }

  function Reduce(s: State, a: Action): (r: State)
    ensures ChangesOnly(s, r, Target(a))
    ensures a.ToggleSidebar? ==> r.sidebarOpen == !s.sidebarOpen
    ensures a.ToggleSettings? ==> r.showSettings == !s.showSettings
    ensures a.ToggleAnalytics? ==> r.showAnalytics == !s.showAnalytics
    ensures a.SetPreviewMode? ==> r.previewMode == a.mode
    ensures a.SetCurrentPage? ==> r.currentPage == a.page
    ensures a.SetLoading? ==> r.loading == a.loading
  {
    match a
    case ToggleSidebar => s.(sidebarOpen := !s.sidebarOpen)
    case SetPreviewMode(m) => s.(previewMode := m)
    case SetCurrentPage(p) => s.(currentPage := p)
    case ToggleSettings => s.(showSettings := !s.showSettings)
    case ToggleAnalytics => s.(showAnalytics := !s.showAnalytics)
    case SetLoading(b) => s.(loading := b)
  }

  /** Every toggle undoes itself. */
  lemma ToggleTwiceIsIdentity(s: State, a: Action)
    requires IsToggle(a)
    ensures Reduce(Reduce(s, a), a) == s
  {
  }

  /** Setting the same value twice is setting it once. */
  lemma SettersIdempotent(s: State, a: Action)
    requires !IsToggle(a)
    ensures Reduce(Reduce(s, a), a) == Reduce(s, a)
  {
  }

  /** The interface starts on the landing page in desktop preview, with the
      sidebar closed and every flag off. */
  lemma InitialStateShape()
    ensures InitialState.currentPage == Landing && InitialState.previewMode == Desktop
    ensures !InitialState.sidebarOpen && !InitialState.showSettings && !InitialState.showAnalytics && !InitialState.loading
  {
  }
}
