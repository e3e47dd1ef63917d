/** `generatePortfolioHTML`: the registry lookup followed by the expansion of
    the `modern-minimal` Handlebars template over a profile.

    The expansion is modelled structurally. A `Document` is the page's head
    (title and meta description) and the sequence of blocks its body emits,
    in order: the header, the optional Skills, Projects, Experience, Education
    and Contact sections, and the footer. Blocks carry the raw profile strings
    they interpolate; HTML escaping of those strings is left to Handlebars and
    is not part of the model.

    Conditionals follow Handlebars `#if`: `undefined`, the empty string and the
    empty array are falsy; any object, even `{}`, is truthy. An absent value
    interpolates as the empty string. */
module Renderer {
  import opened Common
  import opened Profile
  import TemplateRegistry
  import S = Text

  datatype ContactLink =
    | EmailLink(address: string)
    | LinkedInLink(url: string)
    | GitHubLink(url: string)
    | WebsiteLink(url: string)

  /** One `<div class="project">`: the technologies block and the link
      paragraph are present only when their `#if` holds. */
  datatype ProjectCard = ProjectCard(title: string, description: string, technologies: Option<seq<string>>, link: Option<string>)

  datatype Block =
    | Header(name: string, role: string, bio: Option<string>)
    | SkillsSection(tags: seq<string>)
    | ProjectsSection(cards: seq<ProjectCard>)
    | ExperienceSection(jobs: seq<Experience>)
    | EducationSection(degrees: seq<Education>)
    | ContactSection(links: seq<ContactLink>)
    | Footer(name: string)

  /** The expanded page: its head, its header, one slot per optional section
      (`None` when the section's `#if` fails) and its footer. */
  datatype Document = Document(
    title: string,
    description: string,
    header: Block,
    skills: Option<seq<string>>,
    projects: Option<seq<ProjectCard>>,
    experience: Option<seq<Experience>>,
    education: Option<seq<Education>>,
    contact: Option<seq<ContactLink>>,
    footer: Block)

  /** `{{#if s}}` on a string that may be absent. */
  predicate TruthyText(s: Option<string>) {
    s.Some? && s.value != ""
  }

  /** `{{#if xs}}` on an array that may be absent. */
  predicate TruthyList<T>(xs: Option<seq<T>>) {
    xs.Some? && |xs.value| > 0
  }

  /** `{{s}}`: an absent value interpolates as the empty string. */
  function Text(s: Option<string>): string {
    s.GetOr("")
  }

  /** The position a block kind takes in the page. */
  function Rank(b: Block): nat {
    match b
    case Header(_, _, _) => 0
    case SkillsSection(_) => 1
    case ProjectsSection(_) => 2
    case ExperienceSection(_) => 3
    case EducationSection(_) => 4
    case ContactSection(_) => 5
    case Footer(_) => 6
  }

  function Card(p: Project): (c: ProjectCard)
    ensures c.title == p.title && c.description == p.description
    ensures c.technologies.Some? <==> |p.technologies| > 0
    ensures c.technologies.Some? ==> c.technologies.value == p.technologies
    ensures c.link.Some? <==> TruthyText(p.link)
    ensures c.link.Some? ==> c.link == p.link
  {
    ProjectCard(
      p.title,
      p.description,
      if |p.technologies| > 0 then Some(p.technologies) else None,
      if TruthyText(p.link) then p.link else None)
  }

  /** `{{#each projects}}`: one card per project, in input order. */
  function Cards(ps: seq<Project>): (cs: seq<ProjectCard>)
    ensures |cs| == |ps|
    ensures forall i :: 0 <= i < |ps| ==> cs[i] == Card(ps[i])
  {
    if |ps| == 0 then [] else [Card(ps[0])] + Cards(ps[1..])
  }

  /** The contact links: one per non-empty email, LinkedIn, GitHub and
      website handle, in that order. The phone number is never rendered. */
  function Links(c: Contact): (ls: seq<ContactLink>)
    ensures |ls| <= 4
    ensures forall i, j :: 0 <= i < j < |ls| ==> LinkRank(ls[i]) < LinkRank(ls[j])
  {
    LinksUpToGitHub(c) + (if TruthyText(c.website) then [WebsiteLink(c.website.value)] else [])
  }

  /** A link's place in the contact section. */
  function LinkRank(l: ContactLink): nat {
    match l
    case EmailLink(_) => 0
    case LinkedInLink(_) => 1
    case GitHubLink(_) => 2
    case WebsiteLink(_) => 3
  }

  /** The email and LinkedIn links. */
  function LinksUpToLinkedIn(c: Contact): (ls: seq<ContactLink>)
    ensures |ls| <= 2
    ensures forall i :: 0 <= i < |ls| ==> LinkRank(ls[i]) <= 1
    ensures forall i, j :: 0 <= i < j < |ls| ==> LinkRank(ls[i]) < LinkRank(ls[j])
  {
    (if c.email != "" then [EmailLink(c.email)] else [])
    + (if TruthyText(c.linkedin) then [LinkedInLink(c.linkedin.value)] else [])
  }

  /** The email, LinkedIn and GitHub links. */
  function LinksUpToGitHub(c: Contact): (ls: seq<ContactLink>)
    ensures |ls| <= 3
    ensures forall i :: 0 <= i < |ls| ==> LinkRank(ls[i]) <= 2
    ensures forall i, j :: 0 <= i < j < |ls| ==> LinkRank(ls[i]) < LinkRank(ls[j])
  {
    LinksUpToLinkedIn(c) + (if TruthyText(c.github) then [GitHubLink(c.github.value)] else [])
  }

  /** The optional sections of a page in page order, `None` where a section
      is not emitted. */
  function Slots(d: Document): seq<Option<Block>> {
    [ if d.skills.Some? then Some(SkillsSection(d.skills.value)) else None,
      if d.projects.Some? then Some(ProjectsSection(d.projects.value)) else None,
      if d.experience.Some? then Some(ExperienceSection(d.experience.value)) else None,
      if d.education.Some? then Some(EducationSection(d.education.value)) else None,
      if d.contact.Some? then Some(ContactSection(d.contact.value)) else None ]
  }

  /** The blocks that are present, in order. */
  function Present(slots: seq<Option<Block>>): seq<Block> {
    if |slots| == 0 then []
    else (if slots[0].Some? then [slots[0].value] else []) + Present(slots[1..])
  }

  /** Every slot that holds a block contributes it to the page. */
  lemma {:induction false} PresentHas(slots: seq<Option<Block>>, i: nat)
    requires i < |slots| && slots[i].Some?
    ensures slots[i].value in Present(slots)
    decreases |slots|
  {
    if i > 0 {
      PresentHas(slots[1..], i - 1);
    }
  }

  /** The present blocks are exactly those some slot holds. */
  lemma {:induction false} PresentOnly(slots: seq<Option<Block>>, b: Block)
    requires b in Present(slots)
    ensures exists i :: 0 <= i < |slots| && slots[i] == Some(b)
    decreases |slots|
  {
    if slots[0] != Some(b) {
      PresentOnly(slots[1..], b);
      var i :| 0 <= i < |slots[1..]| && slots[1..][i] == Some(b);
      assert slots[i + 1] == Some(b);
    }
  }

  /** The blocks of a page in the order its body emits them. */
  function Body(d: Document): seq<Block> {
    [d.header] + Present(Slots(d)) + [d.footer]
  }

  /** The expansion of the `modern-minimal` template. */
  function Expand(p: Draft): (d: Document)
    // head: <title>{{name}} - {{role}}</title> and the bio as meta description
    ensures d.title == Text(p.name) + " - " + Text(p.role)
    ensures d.description == Text(p.bio)
    // the header always carries name and role, and the bio paragraph iff bio is non-empty
    ensures d.header.Header? && d.header.name == Text(p.name) && d.header.role == Text(p.role)
    ensures d.header.bio.Some? <==> TruthyText(p.bio)
    ensures d.header.bio.Some? ==> d.header.bio == p.bio
    // the footer always carries name
    ensures d.footer == Footer(Text(p.name))
    // each list section is emitted iff its array is non-empty, with one entry
    // per element, in input order
    ensures d.skills.Some? <==> TruthyList(p.skills)
    ensures d.skills.Some? ==> d.skills.value == p.skills.value
    ensures d.projects.Some? <==> TruthyList(p.projects)
    ensures d.projects.Some? ==>
      && |d.projects.value| == |p.projects.value|
      && forall i :: 0 <= i < |p.projects.value| ==> d.projects.value[i] == Card(p.projects.value[i])
    ensures d.experience.Some? <==> TruthyList(p.experience)
    ensures d.experience.Some? ==> d.experience.value == p.experience.value
    ensures d.education.Some? <==> TruthyList(p.education)
    ensures d.education.Some? ==> d.education.value == p.education.value
    // the contact section is gated only on the contact object being present
    ensures d.contact.Some? <==> p.contact.Some?
    ensures d.contact.Some? ==> d.contact.value == Links(p.contact.value)
  {
    Document(
      Text(p.name) + " - " + Text(p.role),
      Text(p.bio),
      Header(Text(p.name), Text(p.role), if TruthyText(p.bio) then p.bio else None),
      if TruthyList(p.skills) then p.skills else None,
      if TruthyList(p.projects) then Some(Cards(p.projects.value)) else None,
      if TruthyList(p.experience) then p.experience else None,
      if TruthyList(p.education) then p.education else None,
      if p.contact.Some? then Some(Links(p.contact.value)) else None,
      Footer(Text(p.name)))
  }

  /** Block ranks strictly increase along `body`. */
  predicate InPageOrder(body: seq<Block>) {
    forall i, j :: 0 <= i < j < |body| ==> Rank(body[i]) < Rank(body[j])
  }

  /** Two runs in page order, the first wholly before the second, make one. */
  lemma ConcatInOrder(a: seq<Block>, b: seq<Block>)
    requires InPageOrder(a) && InPageOrder(b)
    requires forall x, y :: x in a && y in b ==> Rank(x) < Rank(y)
    ensures InPageOrder(a + b)
  {
    forall i, j | 0 <= i < j < |a + b| ensures Rank((a + b)[i]) < Rank((a + b)[j]) {
      if j < |a| {
      } else if i >= |a| {
        assert (a + b)[i] == b[i - |a|] && (a + b)[j] == b[j - |a|];
      } else {
        assert (a + b)[i] in a && (a + b)[j] in b;
      }
    }
  }

  /** Slots whose blocks rank `base`, `base + 1`, ... yield their present
      blocks in page order, within those ranks. */
  lemma {:induction false} PresentInOrder(slots: seq<Option<Block>>, base: nat)
    requires forall i :: 0 <= i < |slots| && slots[i].Some? ==> Rank(slots[i].value) == base + i
    ensures InPageOrder(Present(slots))
    ensures forall b :: b in Present(slots) ==> base <= Rank(b) < base + |slots|
    decreases |slots|
  {
    if |slots| > 0 {
      var head := if slots[0].Some? then [slots[0].value] else [];
      PresentInOrder(slots[1..], base + 1);
      ConcatInOrder(head, Present(slots[1..]));
    }
  }

  /** The blocks of any page body appear in the fixed page order, each kind at
      most once, header first and footer last. */
  lemma BodyOrder(d: Document)
    requires d.header.Header? && d.footer.Footer?
    ensures |Body(d)| >= 2 && Body(d)[0] == d.header && Body(d)[|Body(d)| - 1] == d.footer
    ensures InPageOrder(Body(d))
  {
    PresentInOrder(Slots(d), 1);
    ConcatInOrder([d.header], Present(Slots(d)));
    ConcatInOrder([d.header] + Present(Slots(d)), [d.footer]);
  }

  /** In the body of an expanded page the blocks appear in the fixed page
      order, each kind at most once, header first and footer last. */
  lemma ExpandOrder(p: Draft)
    ensures |Body(Expand(p))| >= 2
    ensures Body(Expand(p))[0].Header? && Body(Expand(p))[|Body(Expand(p))| - 1].Footer?
    ensures InPageOrder(Body(Expand(p)))
  {
    BodyOrder(Expand(p));
  }

  /** Compiling a registry source and applying it to the data. */
  function Instantiate(src: TemplateRegistry.TemplateSource, p: Draft): Document {
    match src
    case ModernMinimal => Expand(p)
  }

  /** `generatePortfolioHTML(data, templateId)` with the own-key lookup. */
  function GeneratePortfolioHtml(p: Draft, templateId: Option<string>): (d: Document)
    ensures d == Expand(p)
  {
    Instantiate(TemplateRegistry.Resolve(templateId), p)
  }

  /** `generatePortfolioHTML` as written, which can fail for ids naming
      `Object.prototype` members. */
  function GeneratePortfolioHtmlAsWritten(p: Draft, templateId: Option<string>): (r: Result<Document, TemplateRegistry.CompileError>)
    ensures r.Ok? ==> r.value == Expand(p)
  {
    match TemplateRegistry.ResolveAsWritten(templateId)
    case Ok(src) => Ok(Instantiate(src, p))
    case Err(e) => Err(e)
  }

  /** The template id never changes the page: unknown ids, no id and every
      registered id all render the `modern-minimal` structure. */
  lemma TemplateIdIrrelevant(p: Draft, a: Option<string>, b: Option<string>)
    ensures GeneratePortfolioHtml(p, a) == GeneratePortfolioHtml(p, b)
    ensures GeneratePortfolioHtml(p, a) == GeneratePortfolioHtml(p, Some(TemplateRegistry.DefaultId))
  {
  }

  /** A profile with only name and role renders the header and the footer and
      nothing in between. */
  lemma MinimalProfile(name: string, role: string)
    ensures Body(Expand(EmptyDraft.(name := Some(name), role := Some(role))))
      == [Header(name, role, None), Footer(name)]
  {
    var d := Expand(EmptyDraft.(name := Some(name), role := Some(role)));
    var ss := Slots(d);
    if Present(ss) != [] {
      PresentOnly(ss, Present(ss)[0]);
    }
  }

  /** An empty contact object still emits the Contact heading, with no links. */
  lemma EmptyContactStillRendered(p: Draft)
    requires p.contact == Some(Contact("", None, None, None, None))
    ensures ContactSection([]) in Body(Expand(p))
  {
    PresentHas(Slots(Expand(p)), 4);
  }

  // ---------------------------------------------------------------------
  // What a page retains of its profile: reading the profile back from an
  // expanded page gives the profile with its falsy values and the phone
  // number dropped, and nothing else is lost.
  // ---------------------------------------------------------------------

  function NormalizeProject(p: Project): Project {
    p.(link := if TruthyText(p.link) then p.link else None)
  }

  function NormalizeContact(c: Contact): Contact {
    Contact(
      c.email,
      None,
      if TruthyText(c.linkedin) then c.linkedin else None,
      if TruthyText(c.github) then c.github else None,
      if TruthyText(c.website) then c.website else None)
  }

  /** The profile as far as the page can show it. */
  function Normalize(p: Draft): Draft {
    Draft(
      Some(Text(p.name)),
      Some(Text(p.role)),
      if TruthyText(p.bio) then p.bio else None,
      if TruthyList(p.skills) then p.skills else None,
      if TruthyList(p.projects)
      then Some(seq(|p.projects.value|, i requires 0 <= i < |p.projects.value| => NormalizeProject(p.projects.value[i])))
      else None,
      if TruthyList(p.experience) then p.experience else None,
      if TruthyList(p.education) then p.education else None,
      if p.contact.Some? then Some(NormalizeContact(p.contact.value)) else None)
  }

  function Uncard(c: ProjectCard): Project {
    Project(c.title, c.description, c.technologies.GetOr([]), c.link)
  }

  /** Records one contact link in a contact object. */
  function Absorb(c: Contact, l: ContactLink): Contact {
    match l
    case EmailLink(a) => c.(email := a)
    case LinkedInLink(u) => c.(linkedin := Some(u))
    case GitHubLink(u) => c.(github := Some(u))
    case WebsiteLink(u) => c.(website := Some(u))
  }

  /** The contact object a list of links shows. */
  function Unlink(ls: seq<ContactLink>): Contact {
    if |ls| == 0 then Contact("", None, None, None, None)
    else Absorb(Unlink(ls[..|ls| - 1]), ls[|ls| - 1])
  }

  /** Reads a profile back from a page. */
  function Recover(d: Document): Draft
    requires d.header.Header?
  {
    Draft(
      Some(d.header.name),
      Some(d.header.role),
      d.header.bio,
      d.skills,
      if d.projects.Some?
      then Some(seq(|d.projects.value|, i requires 0 <= i < |d.projects.value| => Uncard(d.projects.value[i])))
      else None,
      d.experience,
      d.education,
      if d.contact.Some? then Some(Unlink(d.contact.value)) else None)
  }

  /** Appending one link absorbs it into the contact read so far. */
  lemma UnlinkSnoc(ls: seq<ContactLink>, l: ContactLink)
    ensures Unlink(ls + [l]) == Absorb(Unlink(ls), l)
  {
    assert (ls + [l])[..|ls|] == ls;
  }

  /** Appending a link when `cond` holds, and nothing otherwise. */
  lemma UnlinkAppend(ls: seq<ContactLink>, cond: bool, l: ContactLink)
    ensures Unlink(ls + (if cond then [l] else [])) == if cond then Absorb(Unlink(ls), l) else Unlink(ls)
  {
    if cond {
      UnlinkSnoc(ls, l);
    } else {
      assert ls + [] == ls;
    }
  }

  lemma UnlinkUpToLinkedIn(c: Contact)
    ensures Unlink(LinksUpToLinkedIn(c)) == NormalizeContact(c).(github := None, website := None)
  {
    var e := if c.email != "" then [EmailLink(c.email)] else [];
    UnlinkAppend([], c.email != "", EmailLink(c.email));
    assert [] + e == e;
    UnlinkAppend(e, TruthyText(c.linkedin), LinkedInLink(c.linkedin.GetOr("")));
  }

  lemma UnlinkUpToGitHub(c: Contact)
    ensures Unlink(LinksUpToGitHub(c)) == NormalizeContact(c).(website := None)
  {
    UnlinkUpToLinkedIn(c);
    UnlinkAppend(LinksUpToLinkedIn(c), TruthyText(c.github), GitHubLink(c.github.GetOr("")));
  }

  /** The contact links show the email and every truthy handle, and nothing else. */
  lemma UnlinkLinks(c: Contact)
    ensures Unlink(Links(c)) == NormalizeContact(c)
  {
    UnlinkUpToGitHub(c);
    UnlinkAppend(LinksUpToGitHub(c), TruthyText(c.website), WebsiteLink(c.website.GetOr("")));
  }

  /** Reading the profile back from its page gives the normalized profile:
      everything the profile holds, except falsy values and the phone number,
      is on the page. */
  lemma {:induction false} RecoverExpand(p: Draft)
    ensures Recover(Expand(p)) == Normalize(p)
  {
    var d := Expand(p);
    if p.contact.Some? {
      UnlinkLinks(p.contact.value);
    }
    if TruthyList(p.projects) {
      var ps := p.projects.value;
      var cs := d.projects.value;
      var a := Recover(d).projects.value;
      var b := Normalize(p).projects.value;
      assert |a| == |b|;
      forall i | 0 <= i < |ps| ensures a[i] == b[i] {
        assert cs[i] == Card(ps[i]);
        assert a[i] == Uncard(cs[i]);
      }
      assert a == b;
    }
  }

  /** The links depend on nothing but the normalized contact. */
  lemma LinksNormalize(c: Contact)
    ensures Links(NormalizeContact(c)) == Links(c)
  {
  }

  /** The page depends on nothing but the normalized profile. */
  lemma {:induction false} ExpandNormalize(p: Draft)
    ensures Expand(Normalize(p)) == Expand(p)
  {
    if p.contact.Some? {
      LinksNormalize(p.contact.value);
    }
    if TruthyList(p.projects) {
      var ps := p.projects.value;
      var ns := Normalize(p).projects.value;
      assert Cards(ns) == Cards(ps) by {
        forall i | 0 <= i < |ps| ensures Cards(ns)[i] == Cards(ps)[i] {
          assert ns[i] == NormalizeProject(ps[i]);
        }
      }
    }
  }

  /** The `join` helper registered for the templates: a present array joined
      with the separator, the empty string for a missing one. */
  function JoinHelper(items: Option<seq<string>>, separator: string): (r: string)
    ensures items.None? ==> r == ""
    ensures items.Some? && |items.value| == 1 ==> r == items.value[0]
  {
    if items.None? then "" else S.Join(items.value, separator)
  }

  /** With a one-character separator that no element contains, the joined
      text splits back into the items. */
  lemma JoinHelperSplits(items: seq<string>, c: char)
    requires |items| > 0
    requires forall i :: 0 <= i < |items| ==> c !in items[i]
    ensures S.Split(JoinHelper(Some(items), [c]), [c]) == items
  {
    S.SplitJoin(items, c);
  }
}
