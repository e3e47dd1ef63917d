/** The `portfolio` slice of the Vite front end: the chosen template, the
    ordered list of page sections, generated HTML and CSS, and SEO data.

    `addSection` pushes the new section and sorts the list by `order` with
    `Array.prototype.sort`, which is stable (ECMAScript 2019 onwards). The
    sort is modelled as a stable insertion sort on sequences. */
module SectionStore {
  import opened Common
  import PortfolioStore

  datatype SectionKind = Hero | About | Skills | Projects | Experience | ContactKind | Custom

  datatype Section = Section(id: string, kind: SectionKind, title: string, content: Json, order: int)

  /** `Partial<PortfolioSection>`. */
  datatype SectionPatch = SectionPatch(
    id: Option<string>,
    kind: Option<SectionKind>,
    title: Option<string>,
    content: Option<Json>,
    order: Option<int>)

  datatype PortfolioTemplate = PortfolioTemplate(id: string, name: string, description: string, thumbnail: string, category: string, html: string, css: string)

  datatype State = State(
    currentTemplate: Option<PortfolioTemplate>,
    sections: seq<Section>,
    htmlContent: string,
    cssContent: string,
    isGenerating: bool,
    publishedUrl: Option<string>,
    seoData: PortfolioStore.SeoSettings)

  const InitialState: State := State(None, [], "", "", false, None, PortfolioStore.SeoSettings("", "", []))

  // ---------------------------------------------------------------------
  // The stable sort by `order`
  // ---------------------------------------------------------------------

  predicate Sorted(xs: seq<Section>) {
    forall i, j :: 0 <= i < j < |xs| ==> xs[i].order <= xs[j].order
  }

  /** The sections with order `k`, in list order. */
  function WithOrder(xs: seq<Section>, k: int): seq<Section> {
    if |xs| == 0 then []
    else WithOrder(xs[..|xs| - 1], k) + (if xs[|xs| - 1].order == k then [xs[|xs| - 1]] else [])
  }

  /** Places `x` after every section of `ys` whose order is at most its own. */
  function InsertLast(ys: seq<Section>, x: Section): (r: seq<Section>)
    ensures |r| == |ys| + 1
    ensures multiset(r) == multiset(ys) + multiset{x}
    decreases |ys|
  {
    if |ys| == 0 || ys[|ys| - 1].order <= x.order then ys + [x]
    else
      var init := ys[..|ys| - 1];
      assert ys == init + [ys[|ys| - 1]];
      InsertLast(init, x) + [ys[|ys| - 1]]
  }

  /** `sort((a, b) => a.order - b.order)`. */
  function SortByOrder(xs: seq<Section>): (r: seq<Section>)
    ensures |r| == |xs|
    ensures multiset(r) == multiset(xs)
    decreases |xs|
  {
    if |xs| == 0 then []
    else
      var init := xs[..|xs| - 1];
      assert xs == init + [xs[|xs| - 1]];
      InsertLast(SortByOrder(init), xs[|xs| - 1])
  }

  lemma ConcatSorted(a: seq<Section>, y: Section)
    requires Sorted(a)
    requires forall i :: 0 <= i < |a| ==> a[i].order <= y.order
    ensures Sorted(a + [y])
  {
  }

  /** Inserting into a sorted list keeps it sorted. */
  lemma {:induction false} InsertLastSorted(ys: seq<Section>, x: Section)
    requires Sorted(ys)
    ensures Sorted(InsertLast(ys, x))
    decreases |ys|
  {
    if |ys| > 0 && ys[|ys| - 1].order > x.order {
      var init := ys[..|ys| - 1];
      var y := ys[|ys| - 1];
      InsertLastSorted(init, x);
      var r := InsertLast(init, x);
      forall i | 0 <= i < |r| ensures r[i].order <= y.order {
        assert r[i] in multiset(init) + multiset{x};
        if r[i] != x {
          assert r[i] in init;
        }
      }
      ConcatSorted(r, y);
    } else if |ys| > 0 {
      ConcatSorted(ys, x);
    }
  }

  /** Inserting `x` appends it to the sections of its own order and leaves
      the other orders' sections as they were. */
  lemma {:induction false} InsertLastStable(ys: seq<Section>, x: Section, k: int)
    ensures WithOrder(InsertLast(ys, x), k) == WithOrder(ys, k) + (if x.order == k then [x] else [])
    decreases |ys|
  {
    if |ys| == 0 || ys[|ys| - 1].order <= x.order {
      assert (ys + [x])[..|ys|] == ys;
      assert InsertLast(ys, x) == ys + [x];
    } else {
      var init := ys[..|ys| - 1];
      var y := ys[|ys| - 1];
      var r := InsertLast(init, x);
      assert InsertLast(ys, x) == r + [y];
      InsertLastStable(init, x, k);
      assert (r + [y])[..|r|] == r;
      var w := WithOrder(init, k);
      assert WithOrder(ys, k) == w + (if y.order == k then [y] else []);
      if y.order == k {
        assert x.order != k;
        assert WithOrder(r + [y], k) == WithOrder(r, k) + [y];
        assert WithOrder(r, k) == w;
      } else {
        assert WithOrder(r + [y], k) == WithOrder(r, k);
      }
    }
  }

  /** The sort returns a sorted permutation. */
  lemma {:induction false} SortByOrderSorted(xs: seq<Section>)
    ensures Sorted(SortByOrder(xs))
    decreases |xs|
  {
    if |xs| > 0 {
      SortByOrderSorted(xs[..|xs| - 1]);
      InsertLastSorted(SortByOrder(xs[..|xs| - 1]), xs[|xs| - 1]);
    }
  }

  /** The sort is stable: sections of equal order keep their relative order. */
  lemma {:induction false} SortByOrderStable(xs: seq<Section>, k: int)
    ensures WithOrder(SortByOrder(xs), k) == WithOrder(xs, k)
    decreases |xs|
  {
    if |xs| > 0 {
      var init := xs[..|xs| - 1];
      SortByOrderStable(init, k);
      InsertLastStable(SortByOrder(init), xs[|xs| - 1], k);
    }
  }

  /** A list already in order comes back unchanged. */
  lemma {:induction false} SortByOrderOfSorted(xs: seq<Section>)
    requires Sorted(xs)
    ensures SortByOrder(xs) == xs
    decreases |xs|
  {
    if |xs| > 0 {
      var init := xs[..|xs| - 1];
      SortByOrderOfSorted(init);
      assert init + [xs[|xs| - 1]] == xs;
    }
  }

  // ---------------------------------------------------------------------
  // The reducers on sections
  // ---------------------------------------------------------------------

  /** `addSection`: push, then sort. */
  function AddSection(sections: seq<Section>, s: Section): (r: seq<Section>)
    ensures |r| == |sections| + 1
    ensures multiset(r) == multiset(sections) + multiset{s}
  {
    SortByOrder(sections + [s])
  }

  /** The list after `addSection` is sorted, holds every earlier section and
      the new one, and keeps sections of equal order in insertion order, the
      new one last among them. */
  lemma AddSectionProperties(sections: seq<Section>, s: Section, k: int)
    ensures Sorted(AddSection(sections, s))
    ensures forall x :: x in sections ==> x in AddSection(sections, s)
    ensures s in AddSection(sections, s)
    ensures WithOrder(AddSection(sections, s), k) == WithOrder(sections + [s], k)
    ensures s.order == k ==> WithOrder(AddSection(sections, s), k) == WithOrder(sections, k) + [s]
  {
    var xs := sections + [s];
    SortByOrderSorted(xs);
    SortByOrderStable(xs, k);
    assert xs[..|xs| - 1] == sections;
    forall x | x in sections ensures x in AddSection(sections, s) {
      assert x in multiset(AddSection(sections, s));
    }
    assert s in multiset(AddSection(sections, s));
  }

  /** On a list already in order, `addSection` inserts the new section after
      every section whose order is at most its own. */
  lemma AddSectionToSorted(sections: seq<Section>, s: Section)
    requires Sorted(sections)
    ensures AddSection(sections, s) == InsertLast(sections, s)
  {
    var xs := sections + [s];
    assert xs[..|xs| - 1] == sections;
    SortByOrderOfSorted(sections);
  }

  /** `{ ...section, ...updates }`. */
  function Patch(x: Section, u: SectionPatch): (r: Section)
    ensures r.id == u.id.GetOr(x.id) && r.kind == u.kind.GetOr(x.kind) && r.title == u.title.GetOr(x.title)
    ensures r.content == u.content.GetOr(x.content) && r.order == u.order.GetOr(x.order)
  {
    Section(u.id.GetOr(x.id), u.kind.GetOr(x.kind), u.title.GetOr(x.title), u.content.GetOr(x.content), u.order.GetOr(x.order))
  }

  /** `findIndex(section => section.id === id)`. */
  function FindSection(xs: seq<Section>, id: string): (r: Option<nat>)
    ensures r.Some? ==> r.value < |xs| && xs[r.value].id == id
    ensures r.Some? ==> forall j :: 0 <= j < r.value ==> xs[j].id != id
    ensures r.None? ==> forall j :: 0 <= j < |xs| ==> xs[j].id != id
  {
    if |xs| == 0 then None
    else if xs[0].id == id then Some(0)
    else match FindSection(xs[1..], id)
      case Some(k) => Some(k + 1)
      case None => None
  }

  /** `updateSection`: patches the first section with that id, and only it. */
  function UpdateSection(xs: seq<Section>, id: string, u: SectionPatch): (r: seq<Section>)
    ensures |r| == |xs|
    ensures (forall j :: 0 <= j < |xs| ==> xs[j].id != id) ==> r == xs
    ensures forall j :: 0 <= j < |xs| && xs[j].id == id && (forall i :: 0 <= i < j ==> xs[i].id != id) ==>
      r[j] == Patch(xs[j], u) && forall i :: 0 <= i < |xs| && i != j ==> r[i] == xs[i]
  {
    match FindSection(xs, id)
    case None => xs
    case Some(k) => xs[k := Patch(xs[k], u)]
  }

  /** `removeSection`: keeps the sections with another id, in order. */
  function RemoveSection(xs: seq<Section>, id: string): (r: seq<Section>)
    ensures |r| <= |xs|
    ensures forall i :: 0 <= i < |r| ==> r[i].id != id
  {
    if |xs| == 0 then []
    else (if xs[0].id != id then [xs[0]] else []) + RemoveSection(xs[1..], id)
  }

  /** Every section with another id survives removal as often as it occurs. */
  lemma {:induction false} RemoveSectionKeeps(xs: seq<Section>, id: string, x: Section)
    requires x.id != id
    ensures multiset(RemoveSection(xs, id))[x] == multiset(xs)[x]
    decreases |xs|
  {
    if |xs| > 0 {
      RemoveSectionKeeps(xs[1..], id, x);
      assert xs == [xs[0]] + xs[1..];
    }
  }

  /** Removal works piecewise, so the kept sections stay in their order. */
  lemma {:induction false} RemoveSectionSplits(xs: seq<Section>, ys: seq<Section>, id: string)
    ensures RemoveSection(xs + ys, id) == RemoveSection(xs, id) + RemoveSection(ys, id)
    decreases |xs|
  {
    if |xs| == 0 {
      assert xs + ys == ys;
    } else {
      var head := if xs[0].id != id then [xs[0]] else [];
      assert (xs + ys)[0] == xs[0];
      assert (xs + ys)[1..] == xs[1..] + ys;
      assert RemoveSection(xs + ys, id) == head + RemoveSection(xs[1..] + ys, id);
      RemoveSectionSplits(xs[1..], ys, id);
      var a, b := RemoveSection(xs[1..], id), RemoveSection(ys, id);
      assert RemoveSection(xs[1..] + ys, id) == a + b;
      assert RemoveSection(xs, id) == head + a;
      assert head + (a + b) == (head + a) + b;
    }
  }

  /** With no section of that id the list is unchanged. */
  lemma {:induction false} RemoveAbsentSection(xs: seq<Section>, id: string)
    requires forall i :: 0 <= i < |xs| ==> xs[i].id != id
    ensures RemoveSection(xs, id) == xs
    decreases |xs|
  {
    if |xs| > 0 {
      RemoveAbsentSection(xs[1..], id);
      assert [xs[0]] + xs[1..] == xs;
    }
  }

  /** A section no later in order than the head of a sorted list can go in front of it. */
  lemma ConsSorted(x: Section, rest: seq<Section>)
    requires Sorted(rest)
    requires |rest| > 0 ==> x.order <= rest[0].order
    ensures Sorted([x] + rest)
  {
    var r := [x] + rest;
    forall i, j | 0 <= i < j < |r| ensures r[i].order <= r[j].order {
      assert r[j] == rest[j - 1];
      if i > 0 {
        assert r[i] == rest[i - 1];
      } else {
        assert rest[0].order <= rest[j - 1].order;
      }
    }
  }

  /** Removal keeps a sorted list sorted, and never brings a smaller order
      to the front. */
  lemma {:induction false} RemoveSectionSorted(xs: seq<Section>, id: string)
    requires Sorted(xs)
    ensures Sorted(RemoveSection(xs, id))
    ensures |xs| > 0 && |RemoveSection(xs, id)| > 0 ==> RemoveSection(xs, id)[0].order >= xs[0].order
    decreases |xs|
  {
    if |xs| > 0 {
      var tail := xs[1..];
      assert Sorted(tail);
      var rest := RemoveSection(tail, id);
      RemoveSectionSorted(tail, id);
      var r := RemoveSection(xs, id);
      if xs[0].id != id {
        assert r == [xs[0]] + rest;
        ConsSorted(xs[0], rest);
      } else {
        assert r == rest;
        assert |rest| > 0 ==> xs[0].order <= tail[0].order;
      }
    }
  }

  datatype Action =
    | SetTemplate(template: PortfolioTemplate)
    | AddSectionAction(section: Section)
    | UpdateSectionAction(id: string, updates: SectionPatch)
    | RemoveSectionAction(sectionId: string)
    | SetHtmlContent(html: string)
    | SetCssContent(css: string)
    | SetGenerating(generating: bool)
    | SetPublishedUrl(url: string)
    | UpdateSeoData(patch: PortfolioStore.SeoPatch)
    | ResetPortfolio

  function Reduce(s: State, a: Action): (r: State)
    ensures a.ResetPortfolio? ==> r == InitialState
    ensures a.AddSectionAction? ==> r == s.(sections := AddSection(s.sections, a.section))
    ensures a.UpdateSectionAction? ==> r == s.(sections := UpdateSection(s.sections, a.id, a.updates))
    ensures a.RemoveSectionAction? ==> r == s.(sections := RemoveSection(s.sections, a.sectionId))
    ensures a.UpdateSeoData? ==> r == s.(seoData := PortfolioStore.MergeSeo(s.seoData, a.patch))
    ensures a.SetTemplate? ==> r == s.(currentTemplate := Some(a.template))
    ensures a.SetHtmlContent? ==> r == s.(htmlContent := a.html)
    ensures a.SetCssContent? ==> r == s.(cssContent := a.css)
    ensures a.SetGenerating? ==> r == s.(isGenerating := a.generating)
    ensures a.SetPublishedUrl? ==> r == s.(publishedUrl := Some(a.url))
  {
    match a
    case SetTemplate(t) => s.(currentTemplate := Some(t))
    case AddSectionAction(x) => s.(sections := AddSection(s.sections, x))
    case UpdateSectionAction(id, u) => s.(sections := UpdateSection(s.sections, id, u))
    case RemoveSectionAction(id) => s.(sections := RemoveSection(s.sections, id))
    case SetHtmlContent(h) => s.(htmlContent := h)
    case SetCssContent(c) => s.(cssContent := c)
    case SetGenerating(g) => s.(isGenerating := g)
    case SetPublishedUrl(u) => s.(publishedUrl := Some(u))
    case UpdateSeoData(p) => s.(seoData := PortfolioStore.MergeSeo(s.seoData, p))
    case ResetPortfolio => InitialState
  }

  /** Every action but an update that sets `order` keeps the sections sorted. */
  lemma ReduceKeepsSorted(s: State, a: Action)
    requires Sorted(s.sections)
    requires !(a.UpdateSectionAction? && a.updates.order.Some?)
    ensures Sorted(Reduce(s, a).sections)
  {
    match a {
      case AddSectionAction(x) => AddSectionProperties(s.sections, x, x.order);
      case RemoveSectionAction(id) => RemoveSectionSorted(s.sections, id);
      case UpdateSectionAction(id, u) =>
        var r := Reduce(s, a).sections;
        assert forall i :: 0 <= i < |r| ==> r[i].order == s.sections[i].order;
      case _ =>
    }
  }

  /** `updateSection` does not re-sort: moving a section's order below its
      predecessor's leaves the list out of order. */
  lemma UpdateOrderCanUnsort()
    ensures var s := InitialState.(sections := [
        Section("a", Hero, "", JNull, 1),
        Section("b", About, "", JNull, 2)]);
      Sorted(s.sections)
      && !Sorted(Reduce(s, UpdateSectionAction("b", SectionPatch(None, None, None, None, Some(0)))).sections)
  {
    var s := InitialState.(sections := [Section("a", Hero, "", JNull, 1), Section("b", About, "", JNull, 2)]);
    var r := Reduce(s, UpdateSectionAction("b", SectionPatch(None, None, None, None, Some(0)))).sections;
    assert r[1].order == 0 && r[0].order == 1;
  }
}
