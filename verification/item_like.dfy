/**
 The item abstraction: one interface over the nine item kinds. Reading the attributes and
 the visibility are the `attrs` and `vis` fields that every `Item` has whatever its kind;
 this module defines the operations that compute something: `IsPublic`, `PushAttr` and
 `SetVisibility`, whose struct case also lowers the struct's public fields.
 */
module ItemLike {
  import opened Syntax

  /** True exactly for a plain `pub` qualifier. */
  predicate IsPublic(it: Item)
  {
    it.vis.Public?
  }

  /** Appends one attribute after the item's existing ones. */
  function PushAttr(it: Item, a: Attr): (r: Item)
    ensures r.attrs == it.attrs + [a]
    ensures r.attrs[..|it.attrs|] == it.attrs && r.attrs[|it.attrs|] == a
    ensures r.(attrs := it.attrs) == it
  {
    it.(attrs := it.attrs + [a])
  }

  /** The field after the struct cascade: a `pub` field takes the new visibility. */
  function NarrowField(f: Field, v: Visibility): Field
  {
    if f.vis.Public? then f.(vis := v) else f
  }

  /**
   The struct cascade: every field that is currently `pub` gets visibility `v`; every other
   field is left as it is. Order and number of fields are kept.
   */
  function NarrowFields(fs: seq<Field>, v: Visibility): (r: seq<Field>)
    ensures |r| == |fs|
    ensures forall i :: 0 <= i < |fs| && fs[i].vis.Public? ==> r[i] == fs[i].(vis := v)
    ensures forall i :: 0 <= i < |fs| && !fs[i].vis.Public? ==> r[i] == fs[i]
  {
    if fs == [] then [] else [NarrowField(fs[0], v)] + NarrowFields(fs[1..], v)
  }

  /**
   Sets the item's visibility. For the eight non-struct kinds nothing else changes; for a
   struct the `pub` fields are lowered to the same visibility.
   */
  function SetVisibility(it: Item, v: Visibility): (r: Item)
    ensures r.vis == v
    ensures IsPublic(r) <==> v.Public?
    ensures r.attrs == it.attrs
    ensures !it.kind.Struct? ==> r.kind == it.kind
    ensures it.kind.Struct? ==> r.kind.Struct? && r.kind.ident == it.kind.ident
    ensures it.kind.Struct? ==> |r.kind.fields| == |it.kind.fields|
    ensures it.kind.Struct? ==> forall i :: 0 <= i < |it.kind.fields| && it.kind.fields[i].vis.Public? ==>
                                              r.kind.fields[i] == it.kind.fields[i].(vis := v)
    ensures it.kind.Struct? ==> forall i :: 0 <= i < |it.kind.fields| && !it.kind.fields[i].vis.Public? ==>
                                              r.kind.fields[i] == it.kind.fields[i]
  {
    match it.kind
    case Struct(ident, fs) => Item(it.attrs, v, Struct(ident, NarrowFields(fs, v)))
    case _ => it.(vis := v)
  }

  /** No field of a struct is more visible than the struct: a `pub` field sits in a `pub` struct. */
  predicate FieldsWithinItem(it: Item)
  {
    it.kind.Struct? ==>
      forall i :: 0 <= i < |it.kind.fields| && it.kind.fields[i].vis.Public? ==> it.vis.Public?
  }

  /** A field with its visibility forgotten. */
  function EraseField(f: Field): Field
  {
    f.(vis := Inherited)
  }

  function EraseFields(fs: seq<Field>): (r: seq<Field>)
  {
    if fs == [] then [] else [EraseField(fs[0])] + EraseFields(fs[1..])
  }

  /**
   The item with every visibility the attribute may touch forgotten: the item's own and,
   for a struct, its fields'. Two items with equal erasures differ at most in those.
   */
  function EraseVisibility(it: Item): Item
  {
    match it.kind
    case Struct(ident, fs) => Item(it.attrs, Inherited, Struct(ident, EraseFields(fs)))
    case _ => it.(vis := Inherited)
  }

  lemma IsPublicExactlyForPub(it: Item)
    ensures IsPublic(it) <==> it.vis == Public
    ensures it.vis.Restricted? ==> !IsPublic(it)
    ensures it.vis == Inherited ==> !IsPublic(it)
  {
  }

  /** The cascade applied twice is the cascade applied once. */
  lemma NarrowFieldsIdempotent(fs: seq<Field>, v: Visibility)
    ensures NarrowFields(NarrowFields(fs, v), v) == NarrowFields(fs, v)
  {
  }

  /** Setting the same visibility twice changes nothing further, for every kind. */
  lemma SetVisibilityIdempotent(it: Item, v: Visibility)
    ensures SetVisibility(SetVisibility(it, v), v) == SetVisibility(it, v)
  {
  }

  /** After narrowing to a non-`pub` visibility no field of a struct is `pub` any more. */
  lemma SetVisibilityLeavesNoPublicField(it: Item, v: Visibility)
    requires it.kind.Struct? && !v.Public?
    ensures forall i :: 0 <= i < |SetVisibility(it, v).kind.fields| ==>
                          !SetVisibility(it, v).kind.fields[i].vis.Public?
  {
  }

  /** Whatever the input, the result of `SetVisibility` keeps its fields within its own visibility. */
  lemma SetVisibilityKeepsFieldsWithin(it: Item, v: Visibility)
    ensures FieldsWithinItem(SetVisibility(it, v))
  {
  }

  lemma {:induction false} EraseNarrowFields(fs: seq<Field>, v: Visibility)
    ensures EraseFields(NarrowFields(fs, v)) == EraseFields(fs)
  {
    if fs != [] {
      EraseNarrowFields(fs[1..], v);
      assert NarrowFields(fs, v)[1..] == NarrowFields(fs[1..], v);
    }
  }

  /** `SetVisibility` changes visibilities and nothing else: the erasure is unchanged. */
  lemma SetVisibilityOnlyChangesVisibility(it: Item, v: Visibility)
    ensures EraseVisibility(SetVisibility(it, v)) == EraseVisibility(it)
    ensures SetVisibility(it, v).attrs == it.attrs
  {
    if it.kind.Struct? {
      EraseNarrowFields(it.kind.fields, v);
    }
  }

  /** Appending an attribute and setting the visibility are independent of each other. */
  lemma PushAttrCommutesWithSetVisibility(it: Item, a: Attr, v: Visibility)
    ensures SetVisibility(PushAttr(it, a), v) == PushAttr(SetVisibility(it, v), a)
  {
  }
}
