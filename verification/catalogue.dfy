/** The template catalogue the API serves (`getTemplates`, `getTemplateById`):
    five fixed entries whose ids are the renderer registry's keys. */
module TemplateCatalogue {
  import opened Common
  import TemplateRegistry

  datatype Template = Template(
    id: string,
    name: string,
    description: string,
    thumbnail: string,
    bestFor: seq<string>,
    htmlTemplate: string)

  const ModernMinimal: Template := Template("modern-minimal", "Modern Minimal",
    "Clean and minimalistic design perfect for developers",
    "/templates/modern-minimal.jpg",
    ["Developers", "Engineers", "Tech Professionals"], "modern-minimal.hbs")

  const CreativeBold: Template := Template("creative-bold", "Creative Bold",
    "Vibrant and eye-catching for creative professionals",
    "/templates/creative-bold.jpg",
    ["Designers", "Artists", "Creatives"], "creative-bold.hbs")

  const ProfessionalClassic: Template := Template("professional-classic", "Professional Classic",
    "Traditional and elegant for business professionals",
    "/templates/professional-classic.jpg",
    ["Business", "Consultants", "Executives"], "professional-classic.hbs")

  const TechFuturistic: Template := Template("tech-futuristic", "Tech Futuristic",
    "Modern tech-inspired design with animations",
    "/templates/tech-futuristic.jpg",
    ["Data Scientists", "AI Engineers", "Tech Leaders"], "tech-futuristic.hbs")

  const PortfolioShowcase: Template := Template("portfolio-showcase", "Portfolio Showcase",
    "Image-heavy layout for visual portfolios",
    "/templates/portfolio-showcase.jpg",
    ["Photographers", "Graphic Designers", "Illustrators"], "portfolio-showcase.hbs")

  /** The catalogue, in declaration order. */
  const Templates: seq<Template> := [ModernMinimal, CreativeBold, ProfessionalClassic, TechFuturistic, PortfolioShowcase]

  /** The ids of a list of templates, in order. */
  function IdsOf(ts: seq<Template>): (ids: seq<string>)
    ensures |ids| == |ts| && forall i :: 0 <= i < |ts| ==> ids[i] == ts[i].id
  {
    if |ts| == 0 then [] else [ts[0].id] + IdsOf(ts[1..])
  }

  /** The catalogue's ids are the registry's keys, in the registry's order. */
  lemma CatalogueIds()
    ensures IdsOf(Templates) == TemplateRegistry.Ids
  {
    var ids := IdsOf(Templates);
    assert ids[0] == TemplateRegistry.Ids[0];
    assert ids[1] == TemplateRegistry.Ids[1];
    assert ids[2] == TemplateRegistry.Ids[2];
    assert ids[3] == TemplateRegistry.Ids[3];
    assert ids[4] == TemplateRegistry.Ids[4];
  }

  /** Five entries whose pairwise-distinct ids are exactly the registry's
      keys, in the registry's order. */
  lemma CatalogueShape()
    ensures |Templates| == 5
    ensures IdsOf(Templates) == TemplateRegistry.Ids
    ensures forall i, j :: 0 <= i < j < |Templates| ==> Templates[i].id != Templates[j].id
  {
    TemplateRegistry.RegistryKeys();
    CatalogueIds();
    var ids := IdsOf(Templates);
    forall i, j | 0 <= i < j < |Templates| ensures Templates[i].id != Templates[j].id {
      assert Templates[i].id == ids[i] && Templates[j].id == ids[j];
    }
  }

  /** The entry's Handlebars file is named after its id. */
  predicate NamedAfterId(t: Template) {
    t.htmlTemplate == t.id + ".hbs"
  }

  lemma ModernMinimalNamed() ensures NamedAfterId(ModernMinimal) {}
  lemma CreativeBoldNamed() ensures NamedAfterId(CreativeBold) {}
  lemma ProfessionalClassicNamed() ensures NamedAfterId(ProfessionalClassic) {}
  lemma TechFuturisticNamed() ensures NamedAfterId(TechFuturistic) {}
  lemma PortfolioShowcaseNamed() ensures NamedAfterId(PortfolioShowcase) {}

  /** Every entry names its Handlebars file after its id. */
  lemma CatalogueFileNames(i: nat)
    requires i < |Templates|
    ensures NamedAfterId(Templates[i])
  {
    if i == 0 {
      ModernMinimalNamed();
    } else if i == 1 {
      CreativeBoldNamed();
    } else if i == 2 {
      ProfessionalClassicNamed();
    } else if i == 3 {
      TechFuturisticNamed();
    } else {
      PortfolioShowcaseNamed();
    }
  }

  /** The catalogue's id set is the registry's key set. */
  lemma CatalogueMatchesRegistry(id: string)
    ensures (exists i :: 0 <= i < |Templates| && Templates[i].id == id) <==> id in TemplateRegistry.Registry
  {
    CatalogueShape();
    TemplateRegistry.RegistryKeys();
    if id in TemplateRegistry.Registry {
      var k :| 0 <= k < |TemplateRegistry.Ids| && TemplateRegistry.Ids[k] == id;
      assert Templates[k].id == IdsOf(Templates)[k];
    }
  }

  /** `getTemplates`: the whole catalogue, every entry in declared order. */
  function GetTemplates(): (r: seq<Template>)
    ensures |r| == |Templates|
    ensures forall i :: 0 <= i < |r| ==> r[i] == Templates[i]
  {
    Templates
  }

  /** `ts.find(t => t.id === id)`, as the index of the first match. */
  function FindIndex(ts: seq<Template>, id: string): (r: Option<nat>)
    ensures r.Some? ==> r.value < |ts| && ts[r.value].id == id
    ensures r.Some? ==> forall j :: 0 <= j < r.value ==> ts[j].id != id
    ensures r.None? <==> forall j :: 0 <= j < |ts| ==> ts[j].id != id
  {
    if |ts| == 0 then None
    else if ts[0].id == id then Some(0)
    else match FindIndex(ts[1..], id)
      case Some(k) => Some(k + 1)
      case None => None
  }

  /** `getTemplateById`: the entry with that id, or 404 with no fallback. */
  function GetTemplateById(id: string): (r: Result<Template, HttpError>)
    ensures r.Ok? ==> r.value.id == id && r.value in Templates
    ensures r.Err? ==> r.error == HttpError(404, "Template not found")
    ensures r.Ok? <==> id in TemplateRegistry.Registry
  {
    CatalogueMatchesRegistry(id);
    match FindIndex(Templates, id)
    case Some(k) => Ok(Templates[k])
    case None => Err(HttpError(404, "Template not found"))
  }
}

/** The front end's template carousel: its own copy of the catalogue, a
    cyclic index moved by the arrows and the dots, and the select button. */
module Carousel {
  import opened Common
  import TemplateCatalogue
  import PortfolioStore

  /** One slide: a catalogue entry without its file name. */
  datatype Slide = Slide(id: string, name: string, description: string, thumbnail: string, bestFor: seq<string>)

  const Slides: seq<Slide> := [
    Slide("modern-minimal", "Modern Minimal",
      "Clean and minimalistic design perfect for developers",
      "/templates/modern-minimal.jpg",
      ["Developers", "Engineers", "Tech Professionals"]),
    Slide("creative-bold", "Creative Bold",
      "Vibrant and eye-catching for creative professionals",
      "/templates/creative-bold.jpg",
      ["Designers", "Artists", "Creatives"]),
    Slide("professional-classic", "Professional Classic",
      "Traditional and elegant for business professionals",
      "/templates/professional-classic.jpg",
      ["Business", "Consultants", "Executives"]),
    Slide("tech-futuristic", "Tech Futuristic",
      "Modern tech-inspired design with animations",
      "/templates/tech-futuristic.jpg",
      ["Data Scientists", "AI Engineers", "Tech Leaders"]),
    Slide("portfolio-showcase", "Portfolio Showcase",
      "Image-heavy layout for visual portfolios",
      "/templates/portfolio-showcase.jpg",
      ["Photographers", "Graphic Designers", "Illustrators"])]

  /** `templates.length`: the five slides below. */
  const Count: nat := 5

  /** The carousel shows the catalogue: same length, and each slide carries
      its catalogue entry's id, name, description, thumbnail and tags. */
  lemma SlidesMatchCatalogue()
    ensures |Slides| == Count && |TemplateCatalogue.Templates| == Count
    ensures forall i :: 0 <= i < Count ==>
      var t := TemplateCatalogue.Templates[i];
      Slides[i] == Slide(t.id, t.name, t.description, t.thumbnail, t.bestFor)
    ensures forall i, j :: 0 <= i < j < Count ==> Slides[i].id != Slides[j].id
  {
  }

  /** `handlePrevious`: one back, wrapping from the first slide to the last. */
  function Previous(i: int): (r: int)
    ensures 0 <= i < Count ==> 0 <= r < Count
    ensures i == 0 ==> r == Count - 1
    ensures i > 0 ==> r == i - 1
  {
    if i > 0 then i - 1 else Count - 1
  }

  /** `handleNext`: one forward, wrapping from the last slide to the first. */
  function Next(i: int): (r: int)
    ensures 0 <= i < Count ==> 0 <= r < Count
    ensures i == Count - 1 ==> r == 0
    ensures i < Count - 1 ==> r == i + 1
  {
    if i < Count - 1 then i + 1 else 0
  }

  /** On the slides, previous and next undo each other. */
  lemma PreviousNextInverse(i: int)
    requires 0 <= i < Count
    ensures Next(Previous(i)) == i && Previous(Next(i)) == i
  {
  }

  /** `n` clicks on next. */
  function Nexts(n: nat, i: int): int {
    if n == 0 then i else Next(Nexts(n - 1, i))
  }

  /** `n` clicks on next move `n` slides forward, cyclically. */
  lemma {:induction false} NextsRotate(n: nat, i: int)
    requires 0 <= i < Count
    ensures Nexts(n, i) == (i + n) % Count
  {
    if n > 0 {
      NextsRotate(n - 1, i);
      var q := (i + n - 1) / 5;
      var j := (i + n - 1) % 5;
      assert i + n - 1 == 5 * q + j && 0 <= j < 5;
      if j == 4 {
        assert i + n == 5 * (q + 1);
      } else {
        assert i + n == 5 * q + (j + 1);
      }
    }
  }

  /** Five clicks on next return to the starting slide. */
  lemma FiveNextsReturn(i: int)
    requires 0 <= i < Count
    ensures Nexts(5, i) == i
  {
    NextsRotate(5, i);
  }

  datatype Click = PreviousClick | NextClick | DotClick(index: int)

  datatype CarouselState = CarouselState(currentIndex: int, selectedId: Option<string>)

  const InitialCarousel: CarouselState := CarouselState(0, None)

  /** Dots are rendered only for the slides, so a dot click names one. */
  predicate Possible(c: Click) {
    c.DotClick? ==> 0 <= c.index < Count
  }

  function Navigate(s: CarouselState, c: Click): (r: CarouselState)
    ensures r.selectedId == s.selectedId
    ensures c.DotClick? ==> r.currentIndex == c.index
    ensures 0 <= s.currentIndex < Count && Possible(c) ==> 0 <= r.currentIndex < Count
  {
    match c
    case PreviousClick => s.(currentIndex := Previous(s.currentIndex))
    case NextClick => s.(currentIndex := Next(s.currentIndex))
    case DotClick(k) => s.(currentIndex := k)
  }

  function NavigateAll(s: CarouselState, cs: seq<Click>): CarouselState
    decreases |cs|
  {
    if |cs| == 0 then s else NavigateAll(Navigate(s, cs[0]), cs[1..])
  }

  /** From the first slide, any sequence of arrow and dot clicks keeps the
      index on a slide. */
  lemma {:induction false} IndexStaysOnSlides(s: CarouselState, cs: seq<Click>)
    requires 0 <= s.currentIndex < Count
    requires forall k :: 0 <= k < |cs| ==> Possible(cs[k])
    ensures 0 <= NavigateAll(s, cs).currentIndex < Count
    decreases |cs|
  {
    if |cs| > 0 {
      IndexStaysOnSlides(Navigate(s, cs[0]), cs[1..]);
    }
  }

  /** `handleSelect(id)`: marks the id selected in the carousel and dispatches
      `setSelectedTemplate` with the same id. */
  function Select(s: CarouselState, store: PortfolioStore.State, id: string): (r: (CarouselState, PortfolioStore.State))
    ensures r.0.selectedId == Some(id) && r.0.currentIndex == s.currentIndex
    ensures r.1.selectedTemplate == Some(id)
    ensures PortfolioStore.ChangesOnly(store, r.1, PortfolioStore.TemplateField)
  {
    (s.(selectedId := Some(id)), PortfolioStore.Reduce(store, PortfolioStore.SetSelectedTemplate(id)))
  }
}
