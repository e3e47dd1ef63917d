/** The portfolio profile (`PortfolioData` of the Next.js front end) and the
    shallow merge `{ ...data, ...payload }` that the store applies to it.

    The store holds a `Partial<PortfolioData>`: every top-level key may be
    absent, which is `None` here. Inside a present value the shape is the
    declared one; `link` and the contact handles other than `email` are
    optional. */
module Profile {
  import opened Common

  datatype Project = Project(title: string, description: string, technologies: seq<string>, link: Option<string>)

  datatype Experience = Experience(company: string, position: string, duration: string, description: string)

  datatype Education = Education(institution: string, degree: string, year: string)

  datatype Contact = Contact(
    email: string,
    phone: Option<string>,
    linkedin: Option<string>,
    github: Option<string>,
    website: Option<string>)

  /** `Partial<PortfolioData>`: a key is `None` when it is absent. */
  datatype Draft = Draft(
    name: Option<string>,
    role: Option<string>,
    bio: Option<string>,
    skills: Option<seq<string>>,
    projects: Option<seq<Project>>,
    experience: Option<seq<Experience>>,
    education: Option<seq<Education>>,
    contact: Option<Contact>)

  /** The empty object `{}`. */
  const EmptyDraft: Draft := Draft(None, None, None, None, None, None, None, None)

  /** One key of an object spread: a key the payload carries wins. */
  function Override<T>(current: Option<T>, incoming: Option<T>): Option<T> {
    if incoming.Some? then incoming else current
  }

  /** `{ ...current, ...payload }`. A key present in the payload replaces the
      current value, whatever either value is (an empty string or array
      included); a key absent from the payload keeps the current value. */
  function Merge(current: Draft, payload: Draft): (r: Draft)
    ensures payload.name.Some? ==> r.name == payload.name
    ensures payload.name.None? ==> r.name == current.name
    ensures payload.role.Some? ==> r.role == payload.role
    ensures payload.role.None? ==> r.role == current.role
    ensures payload.bio.Some? ==> r.bio == payload.bio
    ensures payload.bio.None? ==> r.bio == current.bio
    ensures payload.skills.Some? ==> r.skills == payload.skills
    ensures payload.skills.None? ==> r.skills == current.skills
    ensures payload.projects.Some? ==> r.projects == payload.projects
    ensures payload.projects.None? ==> r.projects == current.projects
    ensures payload.experience.Some? ==> r.experience == payload.experience
    ensures payload.experience.None? ==> r.experience == current.experience
    ensures payload.education.Some? ==> r.education == payload.education
    ensures payload.education.None? ==> r.education == current.education
    ensures payload.contact.Some? ==> r.contact == payload.contact
    ensures payload.contact.None? ==> r.contact == current.contact
  {
    Draft(
      Override(current.name, payload.name),
      Override(current.role, payload.role),
      Override(current.bio, payload.bio),
      Override(current.skills, payload.skills),
      Override(current.projects, payload.projects),
      Override(current.experience, payload.experience),
      Override(current.education, payload.education),
      Override(current.contact, payload.contact))
  }

  /** Merging the empty payload changes nothing. */
  lemma MergeEmpty(current: Draft)
    ensures Merge(current, EmptyDraft) == current
  {
  }

  /** Merging the same payload twice is merging it once. */
  lemma MergeIdempotent(current: Draft, payload: Draft)
    ensures Merge(Merge(current, payload), payload) == Merge(current, payload)
  {
  }

  /** Two successive merges are one merge of the combined payload, so the most
      recent value of each key wins. */
  lemma MergeSequence(current: Draft, first: Draft, second: Draft)
    ensures Merge(Merge(current, first), second) == Merge(current, Merge(first, second))
  {
  }

  /** The merge overwrites rather than fills gaps: a later empty skills list
      erases skills already known. */
  lemma MergeOverwritesKnownSkills(current: Draft, payload: Draft)
    requires current.skills.Some? && |current.skills.value| > 0
    requires payload.skills == Some([])
    ensures Merge(current, payload).skills == Some([])
    ensures Merge(current, payload).skills != current.skills
  {
  }
}
