/**
 * Amber's personalities (`src/lib/personalities.ts`): the five core definitions, the lookup table
 * built from them, the option list that adds `random`, and the two resolvers. A definition is
 * reduced to its key and display title; a key is one of the six known names or any other string
 * that stored data may hold.
 */
module Personalities {
  import opened Wrappers

  datatype Key = Sweet | Funny | Sarcastic | Angry | Raging | RandomKey | Unknown(name: string)

  /** The key a stored personality string names. */
  function ParseKey(s: string): (k: Key)
    ensures k.Unknown? ==> k.name == s
  {
    if s == "sweet" then Sweet
    else if s == "funny" then Funny
    else if s == "sarcastic" then Sarcastic
    else if s == "angry" then Angry
    else if s == "raging" then Raging
    else if s == "random" then RandomKey
    else Unknown(s)
  }

  /** The string a known key is written as; ParseKey reads it back. */
  function KeyName(k: Key): (s: string)
    ensures !k.Unknown? ==> ParseKey(s) == k
    ensures k.Unknown? ==> s == k.name
  {
    match k
    case Sweet => "sweet"
    case Funny => "funny"
    case Sarcastic => "sarcastic"
    case Angry => "angry"
    case Raging => "raging"
    case RandomKey => "random"
    case Unknown(name) => name
  }

  datatype Definition = Definition(key: Key, title: string)

  const Core: seq<Definition> := [
    Definition(Sweet, "Sweet"),
    Definition(Funny, "Funny"),
    Definition(Sarcastic, "Sarcastic"),
    Definition(Angry, "Annoyed"),
    Definition(Raging, "Raging")
  ]

  const RandomOption: Definition := Definition(RandomKey, "Random")

  /** `DEFAULT_AMBER_PERSONALITY_KEY` */
  const DefaultKey: Key := Sweet

  /** The `reduce` that files every definition under its key; a later one wins a clash. */
  function IndexByKey(defs: seq<Definition>): map<Key, Definition> {
    if defs == [] then map[]
    else
      var last := defs[|defs| - 1];
      IndexByKey(defs[..|defs| - 1])[last.key := last]
  }

  /** The reduce files each definition under its own key, and nothing else. */
  lemma {:induction false} IndexByKeyFiles(defs: seq<Definition>)
    ensures forall k :: k in IndexByKey(defs) <==> exists i :: 0 <= i < |defs| && defs[i].key == k
    ensures forall k :: k in IndexByKey(defs) ==> IndexByKey(defs)[k].key == k && IndexByKey(defs)[k] in defs
  {
    if defs != [] {
      var init := defs[..|defs| - 1];
      IndexByKeyFiles(init);
      assert forall i :: 0 <= i < |init| ==> init[i] == defs[i];
      assert defs == init + [defs[|defs| - 1]];
    }
  }

  /** `AMBER_PERSONALITIES` */
  function Table(): map<Key, Definition> { IndexByKey(Core) }

  /** `AMBER_PERSONALITY_OPTIONS` */
  function Options(): seq<Definition> { Core + [RandomOption] }

  /** `NON_RANDOM_KEYS` */
  function NonRandomKeys(): seq<Key> {
    seq(|Core|, i requires 0 <= i < |Core| => Core[i].key)
  }

  /** `Array.prototype.find` by key. */
  function FindByKey(defs: seq<Definition>, key: Key): (r: Option<Definition>)
    ensures r.Some? ==> r.value in defs && r.value.key == key
    ensures r.None? <==> forall d :: d in defs ==> d.key != key
  {
    if defs == [] then None
    else if defs[0].key == key then Some(defs[0])
    else FindByKey(defs[1..], key)
  }

  /** The table files each of the five core definitions under its own key. */
  lemma TableContents()
    ensures Table() == map[Sweet := Core[0], Funny := Core[1], Sarcastic := Core[2],
                           Angry := Core[3], Raging := Core[4]]
  {
    var c0, c1, c2, c3, c4 := Core[0], Core[1], Core[2], Core[3], Core[4];
    assert Core[..1] == [c0] && [c0][..0] == [];
    assert Core[..2] == [c0, c1] && [c0, c1][..1] == [c0];
    assert Core[..3] == [c0, c1, c2] && [c0, c1, c2][..2] == [c0, c1];
    assert Core[..4] == [c0, c1, c2, c3] && [c0, c1, c2, c3][..3] == [c0, c1, c2];
    assert Core == [c0, c1, c2, c3, c4] && Core[..4] == [c0, c1, c2, c3];
    assert IndexByKey([c0]) == map[Sweet := c0];
    assert IndexByKey([c0, c1]) == map[Sweet := c0, Funny := c1];
    assert IndexByKey([c0, c1, c2]) == map[Sweet := c0, Funny := c1, Sarcastic := c2];
    assert IndexByKey([c0, c1, c2, c3]) ==
      map[Sweet := c0, Funny := c1, Sarcastic := c2, Angry := c3];
  }

  /** The options are the five core definitions followed by the `random` entry. */
  lemma OptionsShape()
    ensures |Options()| == 6 && Options()[..5] == Core && Options()[5] == RandomOption
    ensures NonRandomKeys() == [Sweet, Funny, Sarcastic, Angry, Raging]
    ensures forall i :: 0 <= i < |Core| ==> NonRandomKeys()[i] == Core[i].key
  {
  }

  /**
   * `resolvePersonalityKey`; `choice` stands for `Math.floor(Math.random() * NON_RANDOM_KEYS.length)`.
   * A key the table lacks falls back to the default.
   */
  function ResolvePersonalityKey(personality: Key, choice: nat): Definition
    requires choice < |NonRandomKeys()|
  {
    TableContents();
    OptionsShape();
    if personality == RandomKey then Table()[NonRandomKeys()[choice]]
    else if personality in Table() then Table()[personality]
    else Table()[DefaultKey]
  }

  /** `random` resolves to one of the five core definitions, never to the `random` entry. */
  lemma ResolveRandom(choice: nat)
    requires choice < |NonRandomKeys()|
    ensures ResolvePersonalityKey(RandomKey, choice) == Core[choice]
    ensures ResolvePersonalityKey(RandomKey, choice).key != RandomKey
  {
    OptionsShape();
    TableFilesCore(choice);
  }

  /** The table files the core definition at index `i` under that definition's key. */
  lemma TableFilesCore(i: nat)
    requires i < |Core|
    ensures Core[i].key in Table() && Table()[Core[i].key] == Core[i]
  {
    TableContents();
    if i == 0 {
    } else if i == 1 {
    } else if i == 2 {
    } else if i == 3 {
    } else {
    }
  }

  /** Every core definition is reachable from `random`. */
  lemma ResolveRandomCoversCore(d: Definition)
    requires d in Core
    ensures exists choice :: 0 <= choice < |NonRandomKeys()| && ResolvePersonalityKey(RandomKey, choice) == d
  {
    var i :| 0 <= i < |Core| && Core[i] == d;
    ResolveRandom(i);
  }

  /**
   * The names a plain object inherits from `Object.prototype`. Indexing the table with one of them
   * finds the inherited member, so `??` does not fall back for them; the model leaves them out.
   */
  const InheritedNames: set<string> := {
    "constructor", "hasOwnProperty", "isPrototypeOf", "propertyIsEnumerable", "toLocaleString",
    "toString", "valueOf", "__proto__", "__defineGetter__", "__defineSetter__", "__lookupGetter__",
    "__lookupSetter__"
  }

  /** A key whose lookup in a plain object finds an inherited member. */
  predicate Inherited(k: Key) { k.Unknown? && k.name in InheritedNames }

  /**
   * A known core key resolves to its own definition; any other key that is not an inherited
   * name resolves to the `sweet` one.
   */
  lemma ResolveFixedKey(personality: Key, choice: nat)
    requires choice < |NonRandomKeys()| && personality != RandomKey
    ensures personality in Table() ==> ResolvePersonalityKey(personality, choice).key == personality
    ensures personality !in Table() && !Inherited(personality) ==>
      ResolvePersonalityKey(personality, choice) == Definition(Sweet, "Sweet")
  {
    TableContents();
  }

  /** `getPersonalityDefinition` */
  function GetPersonalityDefinition(personality: Key): Definition {
    TableContents();
    OptionsShape();
    if personality == RandomKey then
      assert Options()[5] in Options();
      FindByKey(Options(), RandomKey).value
    else if personality in Table() then Table()[personality]
    else Table()[DefaultKey]
  }

  /** `random` gives the `random` option entry; every other key resolves as in the resolver. */
  lemma GetDefinitionSpec(personality: Key, choice: nat)
    requires choice < |NonRandomKeys()|
    ensures personality == RandomKey ==> GetPersonalityDefinition(personality) == RandomOption
    ensures personality != RandomKey ==>
      GetPersonalityDefinition(personality) == ResolvePersonalityKey(personality, choice)
  {
    if personality == RandomKey {
      RandomOptionFound();
    }
  }

  /** Looking `random` up among the options finds the `random` entry, the only one with that key. */
  lemma RandomOptionFound()
    ensures FindByKey(Options(), RandomKey) == Some(RandomOption)
  {
    OptionsShape();
    var o := Options();
    forall d | d in o && d.key == RandomKey
      ensures d == RandomOption
    {
      var i :| 0 <= i < |o| && o[i] == d;
    }
    assert o[5] in o;
  }
}
