/** The renderer's template registry: five template ids, every one bound to
    the same Handlebars source, with `modern-minimal` as the fallback. */
module TemplateRegistry {
  import opened Common

  /** The Handlebars sources the registry can hold. The repository defines one. */
  datatype TemplateSource = ModernMinimal

  const DefaultId: string := "modern-minimal"

  /** The registry's keys, in declaration order. */
  const Ids: seq<string> := ["modern-minimal", "creative-bold", "professional-classic", "tech-futuristic", "portfolio-showcase"]

  const Registry: map<string, TemplateSource> := map[
    "modern-minimal" := ModernMinimal,
    "creative-bold" := ModernMinimal,
    "professional-classic" := ModernMinimal,
    "tech-futuristic" := ModernMinimal,
    "portfolio-showcase" := ModernMinimal]

  /** The registry key a render uses: the requested id when the registry has
      it as its own key; otherwise, and for a call without an id,
      `modern-minimal`. */
  function ResolveId(templateId: Option<string>): (id: string)
    ensures id in Registry
    ensures templateId.Some? && templateId.value in Registry ==> id == templateId.value
    ensures templateId.None? || templateId.value !in Registry ==> id == DefaultId
  {
    var id := templateId.GetOr(DefaultId);
    if id in Registry then id else DefaultId
  }

  /** The source for a template id: the source stored under the key that
      `ResolveId` picks. */
  function Resolve(templateId: Option<string>): (src: TemplateSource)
    ensures templateId.None? ==> src == Registry[DefaultId]
    ensures templateId.Some? && templateId.value in Registry ==> src == Registry[templateId.value]
    ensures templateId.Some? && templateId.value !in Registry ==> src == Registry[DefaultId]
  {
    Registry[ResolveId(templateId)]
  }

  /** The key set is exactly the five listed ids, which are pairwise distinct. */
  lemma RegistryKeys()
    ensures forall id :: id in Registry <==> id in Ids
    ensures |Ids| == 5 && |Registry| == 5
    ensures forall i, j :: 0 <= i < j < |Ids| ==> Ids[i] != Ids[j]
  {
    assert Registry.Keys == {Ids[0], Ids[1], Ids[2], Ids[3], Ids[4]};
  }

  /** All registered ids map to the same source, so every id, known or not,
      resolves to the `modern-minimal` source. */
  lemma AllIdsShareSource(templateId: Option<string>)
    ensures forall id :: id in Registry ==> Registry[id] == Registry[DefaultId]
    ensures Resolve(templateId) == Registry[DefaultId]
  {
  }

  // ---------------------------------------------------------------------
  // The lookup as written: `templates[templateId] || templates['modern-minimal']`
  // on a plain object literal also reaches the members that every object
  // inherits from `Object.prototype`.
  // ---------------------------------------------------------------------

  /** The member names of `Object.prototype`. */
  const ObjectPrototypeMembers: set<string> := {
    "constructor", "hasOwnProperty", "isPrototypeOf", "propertyIsEnumerable",
    "toLocaleString", "toString", "valueOf", "__proto__",
    "__defineGetter__", "__defineSetter__", "__lookupGetter__", "__lookupSetter__"}

  /** What `templates[id]` evaluates to. */
  datatype PropertyValue = OwnSource(src: TemplateSource) | InheritedMember | Undefined

  function LookupAsWritten(id: string): PropertyValue {
    if id in Registry then OwnSource(Registry[id])
    else if id in ObjectPrototypeMembers then InheritedMember
    else Undefined
  }

  /** Why `Handlebars.compile` refused its argument: it was not a string. */
  datatype CompileError = NotATemplateString

  /** The lookup followed by `Handlebars.compile`, as written: an inherited
      member is truthy, so it is not replaced by the default, and compiling a
      function or object throws. */
  function ResolveAsWritten(templateId: Option<string>): (r: Result<TemplateSource, CompileError>)
    ensures templateId.None? ==> r == Ok(Registry[DefaultId])
  {
    var id := templateId.GetOr(DefaultId);
    var v := LookupAsWritten(id);
    var chosen := if v.Undefined? then OwnSource(Registry[DefaultId]) else v;
    match chosen
    case OwnSource(src) => Ok(src)
    case _ => Err(NotATemplateString)
  }

  /** An unknown id that names an `Object.prototype` member makes rendering
      fail instead of falling back to the default. */
  lemma PrototypeIdDefeatsFallback()
    ensures "constructor" !in Registry && ResolveAsWritten(Some("constructor")).Err?
    ensures "toString" !in Registry && ResolveAsWritten(Some("toString")).Err?
    ensures ResolveId(Some("constructor")) == DefaultId && Resolve(Some("constructor")) == Registry[DefaultId]
  {
  }

  /** No registry key is the name of an `Object.prototype` member. */
  lemma PrototypeMembersUnregistered()
    ensures forall id :: id in ObjectPrototypeMembers ==> id !in Registry
  {
  }

  /** The lookup as written fails for exactly the ids that name an
      `Object.prototype` member, and every one of them is unknown to the
      registry, so the corrected lookup gives those ids the default. */
  lemma PrototypeIdsFail(id: string)
    ensures ResolveAsWritten(Some(id)).Err? <==> id in ObjectPrototypeMembers
    ensures id in ObjectPrototypeMembers ==> ResolveId(Some(id)) == DefaultId
  {
    PrototypeMembersUnregistered();
  }

  /** Outside those member names the code as written agrees with `Resolve`. */
  lemma ResolveAsWrittenAgrees(templateId: Option<string>)
    requires templateId.None? || templateId.value !in ObjectPrototypeMembers
    ensures ResolveAsWritten(templateId) == Ok(Resolve(templateId))
  {
  }
}
