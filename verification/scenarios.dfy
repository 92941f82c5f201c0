/**
  The resource classes and instances exercised by spec/wrest/resource/base_spec.rb,
  built with the model's operations, and the answers the model gives on them.
 */
module Scenarios {
  import opened Wrappers
  import opened Values
  import opened Attributes
  import opened Registry
  import Decimal

  const GlasswareHost := "http://localhost:3000"
  const BottledUniverseHost := "http://localhost:3001"

  /**
    `Glassware < Resource::Base` with host :3000, `BottledUniverse < Glassware`
    with host :3001, and an anonymous `Class.new(Resource::Base)` whose resource
    name is set to `BottledUniverse`. Answers the registry and the three ids.
   */
  function Fixture(): (r: (Classes, ClassId, ClassId, ClassId))
    ensures Valid(r.0) && r.0.Has(r.1) && r.0.Has(r.2) && r.0.Has(r.3)
    ensures r.0.classes[r.2].parent == Some(r.1)
    ensures Host(r.0, r.1) == Success(GlasswareHost)
    ensures Host(r.0, r.2) == Success(BottledUniverseHost)
    ensures Host(r.0, Base).Failure? && !ClassRespondsTo(r.0, Base, "host")
    ensures ResourceName(r.0, r.1) == Some("Glassware")
    ensures ResourceName(r.0, r.2) == Some("BottledUniverse")
    ensures ResourceName(r.0, r.3) == Some("BottledUniverse")
  {
    var (g0, glassware) := DefineClass(Initial(), Base, Some("Glassware"));
    var g1 := SetHost(g0, glassware, GlasswareHost);
    var (b0, bottled) := DefineClass(g1, glassware, Some("BottledUniverse"));
    var b1 := SetHost(b0, bottled, BottledUniverseHost);
    SetHostKeepsSuperclassHost(b0, bottled, BottledUniverseHost, glassware);
    var (a0, anonymous) := DefineClass(b1, Base, None);
    var a1 := SetResourceName(a0, anonymous, "BottledUniverse");
    (a1, glassware, bottled, anonymous)
  }

  /** `Glassware.resource_path` is `/glasswares`; `BottledUniverse.resource_path` is `/bottled_universes`. */
  lemma FixturePaths()
    ensures ResourcePath(Fixture().0, Fixture().1) == Success("/glasswares")
    ensures ResourcePath(Fixture().0, Fixture().2) == Success("/bottled_universes")
  {
    GlasswarePath();
    BottledUniversePath();
  }

  lemma GlasswarePath()
    ensures Inflection.PathOf("Glassware") == "/glasswares"
  {
    Inflection.SplitWordsNoUpper("lassware");
  }

  lemma BottledUniversePath()
    ensures Inflection.PathOf("BottledUniverse") == "/bottled_universes"
  {
    BottledUniverseUnderscore();
    BottledUniversePlural();
  }

  lemma BottledUniversePlural()
    ensures "/" + Inflection.Pluralize("bottled_universe") == "/bottled_universes"
  {
  }

  lemma BottledUniverseUnderscore()
    ensures Inflection.Underscore("BottledUniverse") == "bottled_universe"
  {
    BottledUniverseWords();
    Inflection.UnderscoreTwoWords('B', "ottled", 'U', "niverse");
  }

  /** `BottledUniverse` and `bottled_universe` as their two words. */
  lemma BottledUniverseWords()
    ensures "BottledUniverse" == ['B'] + "ottled" + ['U'] + "niverse"
    ensures "bottled_universe" == ['b'] + "ottled" + ['_', 'u'] + "niverse"
    ensures Inflection.NoUpper("ottled") && Inflection.NoUpper("niverse")
  {
  }

  /** An anonymous class with no resource name set has no name to derive a path from. */
  lemma AnonymousClassHasNoPath(reg: Classes, parent: ClassId)
    requires Valid(reg) && reg.Has(parent)
    ensures var (r, anonymous) := DefineClass(reg, parent, None);
      ResourceName(r, anonymous).None? && ResourcePath(r, anonymous).Failure?
  {
  }

  /** The instance built from the decoded lead bottle of the construction test. */
  function Universe(): (u: Instance)
    ensures Dispatch(u, Get("name")) == Success((Str("Wooz"), u))
    ensures Dispatch(u, Get("owner_id")) == Success((Nil, u))
    ensures Dispatch(u, Get("id")) == Success((Int(1), u))
  {
    var init := map["name" := Str("Wooz"), "id" := Str("1"), "universe_id" := Nil, "owner_id" := Nil];
    assert Decimal.Show(1) == "1";
    BuildGetId(init, 1);
    Build(init)
  }

  /** The attribute-interface instance `Glassware.new(:owner => 'Kai Wren', :guardian => ...)`. */
  function Owned(guardian: Value): (u: Instance)
    ensures Dispatch(u, Get("owner")) == Success((Str("Kai Wren"), u))
    ensures Dispatch(u, Get("guardian")) == Success((guardian, u))
    ensures Dispatch(u, Ask("owner")) == Success((Bool(true), u))
    ensures Dispatch(u, Ask("guardian")) == Success((Bool(guardian != Nil && guardian != Bool(false)), u))
    ensures Dispatch(u, Get("ooga")).Failure? && Dispatch(u, Ask("ooga")).Failure?
  {
    Build(map["owner" := Str("Kai Wren"), "guardian" := guardian])
  }

  /** The same instance responds to every form of `owner` and `guardian`. */
  lemma OwnedRespondsTo(guardian: Value)
    ensures var u := Owned(guardian);
      && RespondsTo(u, "owner") && RespondsTo(u, "owner=") && RespondsTo(u, "owner?")
      && RespondsTo(u, "guardian") && RespondsTo(u, "guardian=") && RespondsTo(u, "guardian?")
  {
    var u := Owned(guardian);
    assert "owner" in u.attributes && "guardian" in u.attributes;
    RespondsToForms(u, "owner");
    RespondsToForms(u, "guardian");
    assert "owner=" == "owner" + "=" && "owner?" == "owner" + "?"
      && "guardian=" == "guardian" + "=" && "guardian?" == "guardian" + "?";
  }

  /** ... and to no form of `theronic`. */
  lemma OwnedDoesNotRespondToTheronic(guardian: Value)
    ensures var u := Owned(guardian);
      !RespondsTo(u, "theronic") && !RespondsTo(u, "theronic=") && !RespondsTo(u, "theronic?")
  {
    var u := Owned(guardian);
    assert "theronic" !in u.attributes;
    RespondsToForms(u, "theronic");
    assert "theronic=" == "theronic" + "=" && "theronic?" == "theronic" + "?";
  }

  /** `universe.fu_dog = 'Shiriki'` creates the attribute, which the getter then answers. */
  lemma FuDog()
    ensures var u := Owned(Str("Lung Shan"));
      && Dispatch(u, Set("fu_dog", Str("Shiriki"))).Success?
      && var after := Dispatch(u, Set("fu_dog", Str("Shiriki"))).value.1;
      && after.attributes["fu_dog"] == Str("Shiriki")
      && Dispatch(after, Get("fu_dog")) == Success((Str("Shiriki"), after))
  {
    GetAfterSet(Owned(Str("Lung Shan")), "fu_dog", Str("Shiriki"));
  }
}
