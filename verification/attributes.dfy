/**
  The dynamic attribute container of a resource instance.

  An instance holds a map from attribute name to value. A call on the instance
  names an attribute in one of three forms: the getter `n`, the setter `n=` or
  the query `n?`. The dispatch rule decides what such a call does; `RespondsTo`
  is the separate introspection predicate behind Ruby's `respond_to?`. Symbol
  and string keys are one key type here: `:owner` and `"owner"` are both `"owner"`.
 */
module Attributes {
  import opened Wrappers
  import opened Values
  import Decimal

  type Name = string

  datatype Instance = Instance(attributes: map<Name, Value>)

  /** The three accessor forms a method name can take. */
  datatype Form = Getter | Setter | Query

  /** A method name split into the attribute it is about and its form. */
  datatype Selector = Selector(name: Name, form: Form)

  /** A call on an instance: the setter carries the value assigned. */
  datatype Call = Get(name: Name) | Set(name: Name, value: Value) | Ask(name: Name)

  /** A name a Ruby method can be written with: it ends in neither `=` nor `?`. */
  predicate IsPlainName(n: Name) {
    |n| == 0 || (n[|n| - 1] != '=' && n[|n| - 1] != '?')
  }

  /** Splits a method name on its trailing `=` or `?`; writing the result back gives the name. */
  function ParseSelector(symbol: string): (sel: Selector)
    ensures SymbolOf(sel) == symbol
    ensures sel.form == Getter ==> IsPlainName(sel.name)
  {
    var n := |symbol|;
    if n > 0 && symbol[n - 1] == '=' then
      assert symbol == symbol[..n - 1] + "=";
      Selector(symbol[..n - 1], Setter)
    else if n > 0 && symbol[n - 1] == '?' then
      assert symbol == symbol[..n - 1] + "?";
      Selector(symbol[..n - 1], Query)
    else
      Selector(symbol, Getter)
  }

  /** The method name a selector is written as. */
  function SymbolOf(sel: Selector): string {
    match sel.form
    case Getter => sel.name
    case Setter => sel.name + "="
    case Query => sel.name + "?"
  }

  /** Parsing the writing of a selector on a plain name gives the selector back. */
  lemma ParseSymbolOf(sel: Selector)
    requires IsPlainName(sel.name)
    ensures ParseSelector(SymbolOf(sel)) == sel
  {
    match sel.form
    case Getter =>
    case Setter => assert (sel.name + "=")[..|sel.name|] == sel.name;
    case Query => assert (sel.name + "?")[..|sel.name|] == sel.name;
  }

  function SelectorOf(c: Call): Selector {
    match c
    case Get(n) => Selector(n, Getter)
    case Set(n, _) => Selector(n, Setter)
    case Ask(n) => Selector(n, Query)
  }

  /** The `id` ingestion rule: a digit string is read as the integer it denotes. */
  function IdValue(v: Value): (r: Value)
    ensures v.Str? && Decimal.IsDecimal(v.s) ==> r.Int? && r.i >= 0
    ensures v.Str? && Decimal.IsCanonical(v.s) ==> r.Int? && Decimal.Show(r.i) == v.s
    ensures !(v.Str? && Decimal.IsDecimal(v.s)) ==> r == v
  {
    if !(v.Str? && Decimal.IsDecimal(v.s)) then v
    else if Decimal.IsCanonical(v.s) then Decimal.ShowOfValue(v.s); Int(Decimal.Value(v.s))
    else Int(Decimal.Value(v.s))
  }

  /** Construction from a decoded attribute mapping. */
  function Build(init: map<Name, Value>): (inst: Instance)
    ensures inst.attributes.Keys == init.Keys
    ensures forall k :: k in init && k != "id" ==> inst.attributes[k] == init[k]
  {
    Instance(map k | k in init :: if k == "id" then IdValue(init[k]) else init[k])
  }

  /** Construction with no arguments. */
  function New(): (inst: Instance)
    ensures |inst.attributes| == 0
  {
    Build(map[])
  }

  /** Ruby truthiness, which the query form answers: everything but `nil` and `false`. */
  function Present(v: Value): bool {
    !(v.Nil? || v == Bool(false))
  }

  /**
    The dispatch rule. A call on a name already present resolves to the read,
    write or query of that attribute; a setter on an absent name is accepted and
    creates the attribute; a getter or query on an absent name raises
    `NoMethodError`. The answer is the call's value and the instance after it.
   */
  function Dispatch(inst: Instance, c: Call): (r: Result<(Value, Instance), Error>)
    ensures r.Failure? <==> !c.Set? && c.name !in inst.attributes
    ensures r.Failure? ==> r.error == NoMethodError(SymbolOf(SelectorOf(c)))
    ensures r.Success? && !c.Set? ==> r.value.1 == inst
    ensures r.Success? && c.Get? ==> r.value.0 == inst.attributes[c.name]
    ensures r.Success? && c.Ask? ==> r.value.0 == Bool(inst.attributes[c.name] != Nil && inst.attributes[c.name] != Bool(false))
    ensures r.Success? && c.Set? ==> r.value.0 == c.value && r.value.1.attributes == inst.attributes[c.name := c.value]
    ensures r.Success? ==> inst.attributes.Keys <= r.value.1.attributes.Keys
  {
    match c
    case Set(n, v) => Success((v, Instance(inst.attributes[n := v])))
    case Get(n) =>
      if n in inst.attributes then Success((inst.attributes[n], inst))
      else Failure(NoMethodError(SymbolOf(SelectorOf(c))))
    case Ask(n) =>
      if n in inst.attributes then Success((Bool(Present(inst.attributes[n])), inst))
      else Failure(NoMethodError(SymbolOf(SelectorOf(c))))
  }

  /** Dispatch on a method name as written, with the argument a setter receives. */
  function Invoke(inst: Instance, symbol: string, arg: Value): (r: Result<(Value, Instance), Error>)
    ensures r.Failure? ==> r.error == NoMethodError(symbol)
  {
    var sel := ParseSelector(symbol);
    match sel.form
    case Getter => Dispatch(inst, Get(sel.name))
    case Setter => Dispatch(inst, Set(sel.name, arg))
    case Query => Dispatch(inst, Ask(sel.name))
  }

  /** `respond_to?`: every form of a name answers yes exactly when the name is a key. */
  function RespondsTo(inst: Instance, symbol: string): (r: bool)
    ensures r <==> Dispatch(inst, Get(ParseSelector(symbol).name)).Success?
    ensures r <==> Dispatch(inst, Ask(ParseSelector(symbol).name)).Success?
  {
    ParseSelector(symbol).name in inst.attributes
  }

  // ---------------------------------------------------------------------------
  // Properties of the container
  // ---------------------------------------------------------------------------

  /** A getter on a key supplied at construction answers the stored value, nil included. */
  lemma BuildGet(init: map<Name, Value>, k: Name)
    requires k in init && k != "id"
    ensures Dispatch(Build(init), Get(k)) == Success((init[k], Build(init)))
  {
  }

  /** The `id` getter answers the integer an `id` digit string denotes. */
  lemma {:induction false} BuildGetId(init: map<Name, Value>, n: nat)
    requires "id" in init && init["id"] == Str(Decimal.Show(n))
    ensures Dispatch(Build(init), Get("id")) == Success((Int(n), Build(init)))
  {
    Decimal.ValueOfShow(n);
  }

  /** A getter or query on a name that is not a key raises rather than answering nil. */
  lemma UnknownNameFails(inst: Instance, n: Name)
    requires n !in inst.attributes
    ensures Dispatch(inst, Get(n)) == Failure(NoMethodError(n))
    ensures Dispatch(inst, Ask(n)) == Failure(NoMethodError(n + "?"))
  {
  }

  /** A setter stores its value under the name and touches no other key. */
  lemma SetStores(inst: Instance, n: Name, v: Value)
    ensures Dispatch(inst, Set(n, v)).Success?
    ensures var after := Dispatch(inst, Set(n, v)).value.1.attributes;
      && after.Keys == inst.attributes.Keys + {n}
      && after[n] == v
      && (forall k :: k in inst.attributes && k != n ==> after[k] == inst.attributes[k])
  {
  }

  /** What a setter stored, a later getter reads back. */
  lemma GetAfterSet(inst: Instance, n: Name, v: Value)
    ensures var after := Dispatch(inst, Set(n, v)).value.1;
      Dispatch(after, Get(n)) == Success((v, after))
  {
  }

  /** The getter answers the stored value of any current key, whatever built the instance. */
  lemma GetStored(inst: Instance, n: Name)
    requires n in inst.attributes
    ensures Dispatch(inst, Get(n)) == Success((inst.attributes[n], inst))
  {
  }

  /** The query answers true exactly when the getter would answer a value other than nil and false. */
  lemma QueryAgreesWithGetter(inst: Instance, n: Name)
    ensures Dispatch(inst, Ask(n)).Success? <==> Dispatch(inst, Get(n)).Success?
    ensures Dispatch(inst, Get(n)).Success? ==>
      var v := Dispatch(inst, Get(n)).value.0;
      Dispatch(inst, Ask(n)).value.0 == Bool(v != Nil && v != Bool(false))
  {
  }

  /**
    `respond_to?` and invocation agree on getters and queries; on setters
    `respond_to?` is stricter: it says no for an unknown name that invoking the
    setter would accept.
   */
  lemma RespondsToAgreesWithDispatch(inst: Instance, c: Call)
    requires IsPlainName(c.name)
    ensures !c.Set? ==> (RespondsTo(inst, SymbolOf(SelectorOf(c))) <==> Dispatch(inst, c).Success?)
    ensures c.Set? ==> Dispatch(inst, c).Success?
    ensures c.Set? ==> (RespondsTo(inst, SymbolOf(SelectorOf(c))) <==> c.name in inst.attributes)
  {
    ParseSymbolOf(SelectorOf(c));
  }

  /** `respond_to?` on each form of a plain name is membership of that name. */
  lemma RespondsToForms(inst: Instance, n: Name)
    requires IsPlainName(n)
    ensures RespondsTo(inst, n) <==> n in inst.attributes
    ensures RespondsTo(inst, n + "=") <==> n in inst.attributes
    ensures RespondsTo(inst, n + "?") <==> n in inst.attributes
  {
    ParseSymbolOf(Selector(n, Getter));
    ParseSymbolOf(Selector(n, Setter));
    ParseSymbolOf(Selector(n, Query));
  }

  /** After a setter on a name, all three forms of the name are answered. */
  lemma RespondsAfterSet(inst: Instance, n: Name, v: Value)
    requires IsPlainName(n)
    ensures var after := Dispatch(inst, Set(n, v)).value.1;
      && RespondsTo(after, n)
      && RespondsTo(after, n + "=")
      && RespondsTo(after, n + "?")
  {
    RespondsToForms(Dispatch(inst, Set(n, v)).value.1, n);
  }

  /** Dispatching by method name is dispatching the parsed call. */
  lemma InvokeSetter(inst: Instance, n: Name, v: Value)
    requires IsPlainName(n)
    ensures Invoke(inst, n + "=", v) == Dispatch(inst, Set(n, v))
  {
    ParseSymbolOf(Selector(n, Setter));
  }
}
