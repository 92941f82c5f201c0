# Wrest `Resource::Base` in Dafny

This project models the core of the Wrest REST client: the dynamic resource
base class `Wrest::Resource::Base`. The class has two halves, and the model
follows the behaviour its RSpec examples (`spec/wrest/resource/base_spec.rb`) assert.

* **Per-class configuration.** Each resource class can declare a remote host
  (`set_host`) and override its resource name (`set_resource_name`). It
  derives its collection path (`resource_path`) from that name. Here classes
  are data: a registry indexed by class id. Each entry holds its parent, its
  class name (absent for an anonymous `Class.new`), its own host and its own
  name override (`registry.dfy`).
* **Dynamic attribute container.** An instance holds a map from attribute name
  to value. Ruby's `method_missing` answers a call `n`, `n=` or `n?` on it.
  Here that is the pure function `Attributes.Dispatch`, which takes a call on
  a name and returns the answer and the instance afterwards, or a
  `NoMethodError`. `respond_to?` is the separate predicate
  `Attributes.RespondsTo` (`attributes.dfy`).

Supporting modules:

* `values.dfy`: the variant of decoded attribute values, and the error.
* `decimal.dfy`: digit strings, used for the `id` typecast.
* `inflection.dfy`: underscoring and pluralising a class name, together with
  the inverse functions the round-trip lemmas are stated against.
* `wrappers.dfy`: `Option`/`Result`.
* `scenarios.dfy`: the classes and instances the RSpec examples build, and what
  the model answers on them.

Choices where the RSpec examples do not settle the behaviour:

* Ingestion applies the `id` typecast. A non-empty all-digit `id` string
  becomes the integer it denotes. Every other value, and every other key, is
  stored unchanged.
* The query form `n?` answers the Ruby truthiness of the stored value: false
  for `nil` and `false`, true for anything else. The tests pin only a string
  and `nil`.
* `host` walks up the superclass chain. A class answers its own host, else its
  nearest superclass's host, else it has no `host` method. This is how Ruby's
  class methods are inherited. The tests pin only classes that set their own
  host.
* `resource_name` is not inherited. A class answers its own override, else its
  own class name. An anonymous class with no override has no name, so its
  `resource_path` raises, as `nil.underscore` would.

## Model

| member | source | states |
|---|---|---|
| Attributes.Build | spec/wrest/resource/base_spec.rb:41-45 | construction keeps exactly the supplied keys; every key other than `id` holds exactly the supplied value, nil included |
| Attributes.New | spec/wrest/resource/base_spec.rb:47-49 | construction with no arguments succeeds and yields an empty attribute map |
| Attributes.BuildGet | spec/wrest/resource/base_spec.rb:41-43 | the getter for a key supplied at construction answers its stored value and leaves the instance unchanged |
| Attributes.BuildGetId | spec/wrest/resource/base_spec.rb:41-44 | an `id` supplied as the decimal writing of n is answered by the `id` getter as the integer n |
| Decimal.Show | spec/wrest/resource/base_spec.rb:41-44 | the decimal writing of a number is a non-empty digit string without a leading zero |
| Decimal.ValueOfShow | spec/wrest/resource/base_spec.rb:41-44 | reading back the decimal writing of n gives n |
| Decimal.ShowOfValue | spec/wrest/resource/base_spec.rb:41-44 | writing back the number a canonical digit string denotes gives the string, so the typecast loses nothing |
| Decimal.ValuePositive | spec/wrest/resource/base_spec.rb:41-44 | a digit string not starting with `0` denotes a positive number |
| Attributes.IdValue | spec/wrest/resource/base_spec.rb:41-44 | an `id` given as a non-empty digit string is stored as a non-negative integer, which for a string without leading zeros is exactly the number whose decimal writing it is; any other value is stored unchanged |
| Attributes.Dispatch | spec/wrest/resource/base_spec.rb:89-144 | a call fails exactly when it is a getter or query on a name that is not a key, with `NoMethodError` naming the method; a getter answers the stored value, a query its truthiness (neither nil nor false), and both leave the instance unchanged; a setter answers its value and stores it under its name; no call removes a key |
| Attributes.GetStored | spec/wrest/resource/base_spec.rb:94-98 | on any instance, the getter for a current key answers exactly its stored value and changes nothing |
| Attributes.UnknownNameFails | spec/wrest/resource/base_spec.rb:89-92 | getter and query on an absent name raise `NoMethodError` for `n` and `n?` rather than answering nil |
| Attributes.SetStores | spec/wrest/resource/base_spec.rb:111-122 | a setter always succeeds; it adds or overwrites exactly its key with the value, and every other key keeps its value |
| Attributes.GetAfterSet | spec/wrest/resource/base_spec.rb:111-116 | after a setter on a name, even an unknown one, the getter answers the value set |
| Attributes.QueryAgreesWithGetter | spec/wrest/resource/base_spec.rb:140-144 | the query succeeds exactly when the getter does, and answers true exactly when the getter's value is neither nil nor false |
| Attributes.RespondsToAgreesWithDispatch | spec/wrest/resource/base_spec.rb:100-133 | `respond_to?` for a getter or query holds exactly when invoking it succeeds; the setter always succeeds, yet `respond_to?` for it holds only when the name is already a key |
| Attributes.RespondsTo | spec/wrest/resource/base_spec.rb:100-109 | `respond_to?` on a method name holds exactly when the getter, and equally the query, on its attribute name would succeed |
| Attributes.RespondsToForms | spec/wrest/resource/base_spec.rb:146-155 | `respond_to?` on `n`, `n=` and `n?` each hold exactly when `n` is a current key |
| Attributes.RespondsAfterSet | spec/wrest/resource/base_spec.rb:124-128 | once a setter has run on a name, the instance responds to all three of its forms |
| Attributes.ParseSelector | spec/wrest/resource/base_spec.rb:146-155 | splitting a method name into attribute name and form loses nothing: writing the parts back gives the method name |
| Attributes.ParseSymbolOf | spec/wrest/resource/base_spec.rb:146-155 | a selector on a plain attribute name survives being written as a method name and parsed again |
| Attributes.Invoke | spec/wrest/resource/base_spec.rb:89-92 | a call by method name that fails raises `NoMethodError` naming exactly that method |
| Attributes.InvokeSetter | spec/wrest/resource/base_spec.rb:111-113 | invoking `n=` by name is the setter call on `n` |
| Registry.Initial | spec/wrest/resource/base_spec.rb:18-20 | before any resource class is declared, the registry holds only the base class, which has no host |
| Registry.DefineClass | spec/wrest/resource/base_spec.rb:22-28 | defining a subclass adds one new class under its parent, with no host or name override of its own, and changes no existing class |
| Registry.AncestorIsEarlier | spec/wrest/resource/base_spec.rb:3-9 | a superclass is always defined before its subclasses |
| Registry.HostOf | spec/wrest/resource/base_spec.rb:3-9 | a class's own host, when it set one, is the host it answers; any host it answers was set on a class no later than it |
| Registry.Host | spec/wrest/resource/base_spec.rb:55-63 | `host` fails with `NoMethodError` exactly when no host is visible on the class |
| Registry.SetHost | spec/wrest/resource/base_spec.rb:60-70 | after `set_host url` the class answers exactly `url`; only its host field changes, so its parent, class name and resource-name override stay, and no other class's entry changes |
| Registry.SetHostIsolation | spec/wrest/resource/base_spec.rb:78-81 | `set_host` on a class leaves the host of every class outside its subtree unchanged |
| Registry.SetHostKeepsSuperclassHost | spec/wrest/resource/base_spec.rb:7-9 | a subclass's `set_host` never changes any superclass's host |
| Registry.SetHostSeenBySubclasses | spec/wrest/resource/base_spec.rb:3-9 | a subclass with no host of its own answers whatever host its superclass was most recently given |
| Registry.HostOfFromChain | spec/wrest/resource/base_spec.rb:3-9 | a class has a host exactly when some class on its superclass chain set one, and the host it answers is one set on that chain |
| Registry.BaseHasNoHost | spec/wrest/resource/base_spec.rb:18-20 | while nothing has set a host on the base class itself, the base class neither has nor responds to `host` |
| Registry.ClassRespondsTo | spec/wrest/resource/base_spec.rb:13-16 | no class responds to `host=`; every resource class responds to `set_host`, `set_resource_name`, `resource_name` and `resource_path`; a class responds to `host` exactly when `host` would answer |
| Registry.SetResourceName | spec/wrest/resource/base_spec.rb:24-27 | `set_resource_name` records the override on that class only |
| Registry.ResourceName | spec/wrest/resource/base_spec.rb:30-36 | the resource name is the override when one was set, and otherwise the class's own name unchanged |
| Registry.SetResourceNameEffect | spec/wrest/resource/base_spec.rb:34-36 | after `set_resource_name n` the class's name is `n` and its path is derived from `n`; every other class keeps its path |
| Registry.ResourcePath | spec/wrest/resource/base_spec.rb:72-74 | the path exists exactly when the class has a resource name, and is then `/` followed by the pluralised, underscored resource name; it starts with `/` and has no capitals |
| Registry.ResourcePathDeterminesName | spec/wrest/resource/base_spec.rb:83-85 | a CamelCase resource name can be recovered from the class's resource path |
| Inflection.SplitWords | spec/wrest/resource/base_spec.rb:83-85 | the interior of an underscored name holds no capitals and is no shorter than the input |
| Inflection.Underscore | spec/wrest/resource/base_spec.rb:83-85 | the underscored name holds no capitals and is empty only for an empty name |
| Inflection.SplitWordsAppend | spec/wrest/resource/base_spec.rb:83-85 | underscoring works word by word: it distributes over concatenation |
| Inflection.SplitWordsNoUpper | spec/wrest/resource/base_spec.rb:72-74 | a run without capitals is left as it is |
| Inflection.JoinSplit | spec/wrest/resource/base_spec.rb:83-85 | joining the words of a split interior gives back the interior of a name without `_` |
| Inflection.CamelizeUnderscore | spec/wrest/resource/base_spec.rb:83-85 | camelising the underscored form of a CamelCase name gives the name back |
| Inflection.Pluralize | spec/wrest/resource/base_spec.rb:72-74 | the plural is the word followed by exactly one `s` |
| Inflection.UnderscoreTwoWords | spec/wrest/resource/base_spec.rb:83-85 | a two-word CamelCase name underscores to its two lower-cased words joined by `_` |
| Inflection.PathOf | spec/wrest/resource/base_spec.rb:72-74 | a resource path starts with `/`, ends with the plural `s` and holds no capitals |
| Inflection.NameOfPathOf | spec/wrest/resource/base_spec.rb:72-85 | the CamelCase resource name is recovered from its path, so the derivation loses nothing |
| Inflection.PathOfInjective | spec/wrest/resource/base_spec.rb:72-85 | distinct CamelCase resource names get distinct paths |
| Scenarios.Fixture | spec/wrest/resource/base_spec.rb:3-36 | with the RSpec examples' classes, Glassware answers host :3000 and BottledUniverse :3001; the base class has no host; the resource names are `Glassware`, `BottledUniverse`, and `BottledUniverse` for the anonymous class |
| Scenarios.FixturePaths | spec/wrest/resource/base_spec.rb:72-85 | Glassware's resource path is `/glasswares`; BottledUniverse's is `/bottled_universes` |
| Scenarios.GlasswarePath | spec/wrest/resource/base_spec.rb:72-74 | the name `Glassware` derives the path `/glasswares` |
| Scenarios.BottledUniversePath | spec/wrest/resource/base_spec.rb:83-85 | the name `BottledUniverse` derives the path `/bottled_universes` |
| Scenarios.AnonymousClassHasNoPath | spec/wrest/resource/base_spec.rb:22-36 | an anonymous class with no resource name set has no name and no resource path |
| Scenarios.Universe | spec/wrest/resource/base_spec.rb:38-45 | the instance built from the decoded lead bottle answers `name` Wooz, `owner_id` nil and `id` 1 |
| Scenarios.Owned | spec/wrest/resource/base_spec.rb:88-144 | the attribute-interface instance answers `owner` and `guardian` and their queries (false for a nil guardian), and raises on `ooga` and `ooga?` |
| Scenarios.OwnedRespondsTo | spec/wrest/resource/base_spec.rb:100-150 | that instance responds to `owner`, `owner=`, `owner?`, `guardian`, `guardian=` and `guardian?` |
| Scenarios.OwnedDoesNotRespondToTheronic | spec/wrest/resource/base_spec.rb:106-155 | that instance responds to none of `theronic`, `theronic=` and `theronic?` |
| Scenarios.FuDog | spec/wrest/resource/base_spec.rb:111-116 | `fu_dog = 'Shiriki'` creates the attribute, and the getter then answers `Shiriki` |

## Left out

- The implementation file of `Resource::Base` is not part of this model. The behaviour follows the RSpec examples, and the choices listed above fill its gaps.
- The Redis cache adapter (`lib/wrest/caching/redis.rb`) is left out. It is network I/O through the Redis client plus a YAML round trip, and its guarantees live in those libraries.
- HTTP transport and JSON/XML decoding are left out. Attribute mappings arrive already decoded as `Values.Value`.
- Ruby's metaprogramming is left out: `method_missing`, `class_eval` and `instance_eval` defining singleton methods. It is replaced by the explicit `Dispatch` function and the class registry. Methods an instance or class really defines, such as `attributes`, are not part of `RespondsTo`/`ClassRespondsTo`. The answer only covers the synthesised accessors and the configuration macros.
- Classes outside the resource hierarchy (`Class`, `Object`) are not in the registry. That they gain no `host=` shows in the model as two facts: no operation adds that capability, and every registry operation changes only the entry it names.
- String mutability is left out (`upcase!` on the string passed to `set_host`). Strings are values here, so the stored host cannot change after `set_host`.
- Symbol and string keys are not distinguished. `:owner` and `"owner"` are the same key.
- Attributes.IdValue: converts only non-empty all-digit strings. Its contract pins the number only for strings without a leading zero; for a string such as `01` it promises a non-negative integer, and the body reads the digits as decimal, giving 1. Ruby's `String#to_i` would also read signs, leading whitespace and digit prefixes, and would turn a non-numeric string into 0.
- Inflection.Underscore: puts `_` before every interior capital, so an acronym becomes `h_t_t_p`, not `http`. It also leaves a namespace separator `::` as it is. Full English inflection, including irregular plurals, is likewise not modelled; pluralising appends `s`.
- Argument counts of calls are not modelled. A setter always receives one value, and getters and queries receive none.
- Concurrency is not modelled. The registry is configured once before instances are used.
