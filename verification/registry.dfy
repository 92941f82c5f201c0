/**
  The per-class configuration of resource classes.

  Ruby keeps a resource's host and name as singleton methods that `set_host`
  and `set_resource_name` define on the class. Here the classes are data: a
  registry indexed by class id, each entry with its parent, its class name
  (absent for an anonymous `Class.new`), its own host and its own resource-name
  override. A class is defined after its parent, so parents have smaller ids;
  id 0 is `Wrest::Resource::Base`.
 */
module Registry {
  import opened Wrappers
  import opened Values
  import Inflection

  type ClassId = nat

  const Base: ClassId := 0

  datatype ClassInfo = ClassInfo(
    parent: Option<ClassId>,
    className: Option<string>,
    host: Option<string>,
    resourceName: Option<string>)

  datatype Classes = Classes(classes: seq<ClassInfo>) {

    predicate Has(c: ClassId) {
      c < |classes|
    }
  }

  /** Base is the only root, and every other class was defined after its parent. */
  predicate Valid(reg: Classes) {
    && |reg.classes| > 0
    && reg.classes[Base].parent.None?
    && forall c :: 0 < c < |reg.classes| ==>
         reg.classes[c].parent.Some? && reg.classes[c].parent.value < c
  }

  /** The registry before any resource class is declared. */
  function Initial(): (reg: Classes)
    ensures Valid(reg) && reg.Has(Base) && |reg.classes| == 1
    ensures reg.classes[Base].host.None?
  {
    Classes([ClassInfo(None, Some("Wrest::Resource::Base"), None, None)])
  }

  /** `class Name < Parent; end` (or `Class.new(Parent)` when `name` is absent). */
  function DefineClass(reg: Classes, parent: ClassId, name: Option<string>): (r: (Classes, ClassId))
    requires Valid(reg) && reg.Has(parent)
    ensures Valid(r.0) && r.0.Has(r.1) && !reg.Has(r.1)
    ensures |r.0.classes| == |reg.classes| + 1
    ensures r.0.classes[r.1] == ClassInfo(Some(parent), name, None, None)
    ensures forall c: ClassId :: reg.Has(c) ==> r.0.Has(c) && r.0.classes[c] == reg.classes[c]
  {
    (Classes(reg.classes + [ClassInfo(Some(parent), name, None, None)]), |reg.classes|)
  }

  /** `a` is `c` or one of its superclasses. */
  predicate IsAncestorOrSelf(reg: Classes, a: ClassId, c: ClassId)
    requires Valid(reg) && reg.Has(c)
    decreases c
  {
    a == c || (reg.classes[c].parent.Some? && IsAncestorOrSelf(reg, a, reg.classes[c].parent.value))
  }

  lemma {:induction false} AncestorIsEarlier(reg: Classes, a: ClassId, c: ClassId)
    requires Valid(reg) && reg.Has(c) && IsAncestorOrSelf(reg, a, c)
    ensures a <= c
    decreases c
  {
    if a != c {
      AncestorIsEarlier(reg, a, reg.classes[c].parent.value);
    }
  }

  /**
    The host a class answers: its own, else the one it inherits from the
    nearest superclass that has one, else none.
   */
  function HostOf(reg: Classes, c: ClassId): (h: Option<string>)
    requires Valid(reg) && reg.Has(c)
    ensures reg.classes[c].host.Some? ==> h == reg.classes[c].host
    ensures h.Some? ==> exists a: ClassId :: a <= c && reg.classes[a].host == h
    decreases c
  {
    match reg.classes[c].host
    case Some(h) => Some(h)
    case None =>
      match reg.classes[c].parent
      case None => None
      case Some(p) => HostOf(reg, p)
  }

  /** `Klass.host`: a class on which no host is visible has no `host` method. */
  function Host(reg: Classes, c: ClassId): (r: Result<string, Error>)
    requires Valid(reg) && reg.Has(c)
    ensures r.Failure? <==> HostOf(reg, c).None?
    ensures r.Failure? ==> r.error == NoMethodError("host")
  {
    match HostOf(reg, c)
    case Some(h) => Success(h)
    case None => Failure(NoMethodError("host"))
  }

  /** `set_host url` on class `c`: it answers `url` from now on, and no other entry changes. */
  function SetHost(reg: Classes, c: ClassId, url: string): (r: Classes)
    requires Valid(reg) && reg.Has(c)
    ensures Valid(r) && |r.classes| == |reg.classes|
    ensures Host(r, c) == Success(url)
    ensures forall d: ClassId :: reg.Has(d) && d != c ==> r.classes[d] == reg.classes[d]
    ensures r.classes[c] == reg.classes[c].(host := Some(url))
  {
    Classes(reg.classes[c := reg.classes[c].(host := Some(url))])
  }

  /** `set_resource_name name` on class `c`; no other entry changes. */
  function SetResourceName(reg: Classes, c: ClassId, name: string): (r: Classes)
    requires Valid(reg) && reg.Has(c)
    ensures Valid(r) && |r.classes| == |reg.classes|
    ensures forall d: ClassId :: reg.Has(d) && d != c ==> r.classes[d] == reg.classes[d]
    ensures r.classes[c] == reg.classes[c].(resourceName := Some(name))
  {
    Classes(reg.classes[c := reg.classes[c].(resourceName := Some(name))])
  }

  /** `Klass.resource_name`: the override, else the class's own name (nil for an anonymous class). */
  function ResourceName(reg: Classes, c: ClassId): (r: Option<string>)
    requires Valid(reg) && reg.Has(c)
    ensures reg.classes[c].resourceName.Some? ==> r == reg.classes[c].resourceName
    ensures reg.classes[c].resourceName.None? ==> r == reg.classes[c].className
  {
    match reg.classes[c].resourceName
    case Some(n) => Some(n)
    case None => reg.classes[c].className
  }

  /** `Klass.resource_path`: `/` and the pluralised, underscored resource name. */
  function ResourcePath(reg: Classes, c: ClassId): (r: Result<string, Error>)
    requires Valid(reg) && reg.Has(c)
    ensures r.Failure? <==> ResourceName(reg, c).None?
    ensures r.Success? ==> r.value == Inflection.PathOf(ResourceName(reg, c).value)
    ensures r.Success? ==> |r.value| >= 2 && r.value[0] == '/' && Inflection.NoUpper(r.value)
  {
    match ResourceName(reg, c)
    case Some(n) => Success(Inflection.PathOf(n))
    case None => Failure(NoMethodError("underscore"))
  }

  /** The class-level methods a resource class answers to. */
  function ClassRespondsTo(reg: Classes, c: ClassId, symbol: string): (r: bool)
    requires Valid(reg) && reg.Has(c)
    ensures symbol == "host" ==> (r <==> Host(reg, c).Success?)
    ensures symbol == "host=" ==> !r
    ensures symbol == "set_host" || symbol == "set_resource_name" ==> r
    ensures symbol == "resource_name" || symbol == "resource_path" ==> r
  {
    || symbol == "set_host"
    || symbol == "set_resource_name"
    || symbol == "resource_name"
    || symbol == "resource_path"
    || (symbol == "host" && HostOf(reg, c).Some?)
  }

  // ---------------------------------------------------------------------------
  // Properties of the registry
  // ---------------------------------------------------------------------------

  /**
    Reference reading of `HostOf`: a class has a host exactly when some class on
    its superclass chain set one, and any host it answers was set on that chain.
   */
  lemma {:induction false} HostOfFromChain(reg: Classes, c: ClassId)
    requires Valid(reg) && reg.Has(c)
    ensures HostOf(reg, c).None? <==>
      (forall a: ClassId :: a <= c && IsAncestorOrSelf(reg, a, c) ==> reg.classes[a].host.None?)
    ensures HostOf(reg, c).Some? ==>
      (exists a: ClassId :: a <= c && IsAncestorOrSelf(reg, a, c) && reg.classes[a].host == HostOf(reg, c))
    decreases c
  {
    match reg.classes[c].host
    case Some(h) =>
      assert IsAncestorOrSelf(reg, c, c);
    case None =>
      match reg.classes[c].parent
      case None =>
        forall a: ClassId | a <= c && IsAncestorOrSelf(reg, a, c)
          ensures reg.classes[a].host.None?
        {
        }
      case Some(p) =>
        HostOfFromChain(reg, p);
        forall a: ClassId | a <= c && IsAncestorOrSelf(reg, a, c)
          ensures reg.classes[a].host.None? <== HostOf(reg, p).None?
        {
          if a != c {
            AncestorIsEarlier(reg, a, p);
          }
        }
        if HostOf(reg, p).Some? {
          var a: ClassId :| a <= p && IsAncestorOrSelf(reg, a, p) && reg.classes[a].host == HostOf(reg, p);
          assert IsAncestorOrSelf(reg, a, c);
        }
  }

  /**
    Isolation: setting the host of `d` changes the host of no class outside the
    subtree rooted at `d` — not its superclasses, siblings or unrelated classes.
   */
  lemma {:induction false} SetHostIsolation(reg: Classes, d: ClassId, url: string, c: ClassId)
    requires Valid(reg) && reg.Has(d) && reg.Has(c)
    requires !IsAncestorOrSelf(reg, d, c)
    ensures HostOf(SetHost(reg, d, url), c) == HostOf(reg, c)
    decreases c
  {
    var r := SetHost(reg, d, url);
    assert r.classes[c] == reg.classes[c];
    if reg.classes[c].host.None? && reg.classes[c].parent.Some? {
      SetHostIsolation(reg, d, url, reg.classes[c].parent.value);
    }
  }

  /** In particular a subclass's `set_host` leaves every superclass's host as it was. */
  lemma SetHostKeepsSuperclassHost(reg: Classes, d: ClassId, url: string, a: ClassId)
    requires Valid(reg) && reg.Has(d) && reg.Has(a) && a != d && IsAncestorOrSelf(reg, a, d)
    ensures Host(SetHost(reg, d, url), a) == Host(reg, a)
  {
    AncestorIsEarlier(reg, a, d);
    if IsAncestorOrSelf(reg, d, a) {
      AncestorIsEarlier(reg, d, a);
    }
    SetHostIsolation(reg, d, url, a);
  }

  /** `c` sees `d`'s host: `d` is `c` or a superclass and no class between them set its own. */
  predicate InheritsHostFrom(reg: Classes, d: ClassId, c: ClassId)
    requires Valid(reg) && reg.Has(c)
    decreases c
  {
    c == d
    || (reg.classes[c].host.None? && reg.classes[c].parent.Some?
        && InheritsHostFrom(reg, d, reg.classes[c].parent.value))
  }

  /** A subclass that never set its own host follows later changes to the inherited one. */
  lemma {:induction false} SetHostSeenBySubclasses(reg: Classes, d: ClassId, url: string, c: ClassId)
    requires Valid(reg) && reg.Has(d) && reg.Has(c)
    requires InheritsHostFrom(reg, d, c)
    ensures HostOf(SetHost(reg, d, url), c) == Some(url)
    decreases c
  {
    if c != d {
      SetHostSeenBySubclasses(reg, d, url, reg.classes[c].parent.value);
    }
  }

  /** Base answers no `host` as long as nothing called `set_host` on Base itself. */
  lemma BaseHasNoHost(reg: Classes)
    requires Valid(reg) && reg.classes[Base].host.None?
    ensures Host(reg, Base).Failure?
    ensures !ClassRespondsTo(reg, Base, "host")
  {
  }

  /** `set_resource_name` overrides the name and the path follows it; other classes keep theirs. */
  lemma SetResourceNameEffect(reg: Classes, c: ClassId, name: string, d: ClassId)
    requires Valid(reg) && reg.Has(c) && reg.Has(d)
    ensures ResourceName(SetResourceName(reg, c, name), c) == Some(name)
    ensures ResourcePath(SetResourceName(reg, c, name), c) == Success(Inflection.PathOf(name))
    ensures d != c ==> ResourcePath(SetResourceName(reg, c, name), d) == ResourcePath(reg, d)
  {
  }

  /** The resource name of a named class is recoverable from its resource path. */
  lemma ResourcePathDeterminesName(reg: Classes, c: ClassId)
    requires Valid(reg) && reg.Has(c)
    requires ResourceName(reg, c).Some? && Inflection.IsCamelName(ResourceName(reg, c).value)
    ensures ResourcePath(reg, c).Success?
    ensures Inflection.NameOfPath(ResourcePath(reg, c).value) == ResourceName(reg, c).value
  {
    Inflection.NameOfPathOf(ResourceName(reg, c).value);
  }
}
