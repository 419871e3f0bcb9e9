/** The fixed category table consulted when an upload is prepared. */
module Categories {
  import opened Wrappers

  /** Category key chosen in the upload form -> platform category identifier. */
  const CategoryIds: map<string, string> := map[
    "hair" := "61681e66ec485e4a0df0d476",
    "top" := "DR_TOP_01",
    "bottom" := "DR_PANTS_01",
    "dress" := "DR_DRESS_01",
    "shoes" := "SH_SHOES_01"
  ]

  /** The identifier for a key of the table; nothing for any other key. */
  function CategoryId(key: string): (r: Option<string>)
    ensures r.Some? <==> key in {"hair", "top", "bottom", "dress", "shoes"}
    ensures r.Some? ==> r.value != ""
  {
    if key in CategoryIds then Some(CategoryIds[key]) else None
  }

  /** Each of the five keys resolves to its fixed identifier. */
  lemma CategoryTableEntries()
    ensures CategoryId("hair") == Some("61681e66ec485e4a0df0d476")
    ensures CategoryId("top") == Some("DR_TOP_01")
    ensures CategoryId("bottom") == Some("DR_PANTS_01")
    ensures CategoryId("dress") == Some("DR_DRESS_01")
    ensures CategoryId("shoes") == Some("SH_SHOES_01")
  {
  }

  /** Distinct keys map to distinct identifiers. */
  lemma CategoryIdInjective(k1: string, k2: string)
    requires CategoryId(k1).Some? && CategoryId(k1) == CategoryId(k2)
    ensures k1 == k2
  {
  }

  /** The names of the members `Object.prototype` provides in V8. */
  const ObjectPrototypeMembers: set<string> := {
    "constructor", "hasOwnProperty", "isPrototypeOf", "propertyIsEnumerable",
    "toLocaleString", "toString", "valueOf", "__proto__",
    "__defineGetter__", "__defineSetter__", "__lookupGetter__", "__lookupSetter__"
  }

  /** What `literal[key]` yields; `Absent` is JavaScript's `undefined`. */
  datatype Indexed = Own(id: string) | Inherited(name: string) | Absent

  /**
   * Indexing the object literal as written: besides its own five keys, a
   * key naming a member of `Object.prototype` yields that inherited member.
   */
  function IndexLiteral(key: string): (r: Indexed)
    ensures r.Own? ==> CategoryId(key) == Some(r.id)
    ensures r.Absent? ==> CategoryId(key).None?
    ensures r.Inherited? <==> CategoryId(key).None? && key in ObjectPrototypeMembers
  {
    if key in CategoryIds then Own(CategoryIds[key])
    else if key in ObjectPrototypeMembers then Inherited(key)
    else Absent
  }

  /** As written, a key outside the table need not give `undefined`. */
  lemma InheritedKeyIsNotUndefined()
    ensures CategoryId("constructor").None?
    ensures IndexLiteral("constructor") == Inherited("constructor")
  {
  }

  /** The corrected lookup agrees with the literal on every key it owns or leaves undefined. */
  lemma CorrectedAgreesOutsidePrototype(key: string)
    requires key !in ObjectPrototypeMembers
    ensures IndexLiteral(key).Own? <==> CategoryId(key).Some?
    ensures IndexLiteral(key).Own? ==> IndexLiteral(key).id == CategoryId(key).value
  {
  }
}
