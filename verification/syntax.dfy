/**
 The part of Rust's syntax tree that the `#[unstable]` attribute reads and rewrites:
 visibility qualifiers, attributes, struct fields and the nine item kinds the attribute
 accepts. Token-level detail (generics, types, expressions, blocks) is kept as opaque text,
 because the transformation copies it without looking inside.
 */
module Syntax {

  datatype Option<+T> = None | Some(value: T)

  /** A value, or the message of the diagnostic that replaced it. */
  datatype Result<+T> = Ok(value: T) | Err(message: string)

  /** `pub`, `pub(crate)` / `pub(super)` / `pub(in path)`, or no qualifier at all. */
  datatype Visibility = Public | Restricted(path: string) | Inherited

  /** The visibility the hidden variant of an unstable item is narrowed to. */
  const CrateVisibility: Visibility := Restricted("crate")

  /**
   An outer attribute. Doc comments (`/// text`) are `#[doc = "text"]` attributes;
   every other attribute is kept as its path and its argument tokens.
   */
  datatype Attr = Doc(text: string) | Meta(path: string, tokens: string)

  /** A struct field; `ident` is None for the fields of a tuple struct. */
  datatype Field = Field(attrs: seq<Attr>, vis: Visibility, ident: Option<string>, ty: string)

  /**
   The nine item kinds the attribute is defined for, each with its own payload. A
   module's body holds arbitrary items, supported or not.
   */
  datatype ItemKind =
    | TypeAlias(ident: string, ty: string)
    | Enum(ident: string, variants: seq<string>)
    | Struct(ident: string, fields: seq<Field>)
    | Fn(ident: string, sig: string, block: string)
    | Mod(ident: string, content: Option<seq<SynItem>>)
    | Trait(ident: string, members: seq<string>)
    | Const(ident: string, ty: string, expr: string)
    | Static(ident: string, mutable: bool, ty: string, expr: string)
    | Use(tree: string)

  /** An item of one of the nine kinds: its outer attributes, its visibility and its payload. */
  datatype Item = Item(attrs: seq<Attr>, vis: Visibility, kind: ItemKind)

  /** The item kinds of Rust's grammar that the attribute does not accept. */
  datatype OtherKind = ExternCrate | ForeignMod | Impl | Macro | TraitAlias | Union | Verbatim

  /** Any parsed item: one of the nine supported kinds, or another kind kept as tokens. */
  datatype SynItem = Supported(item: Item) | Other(kind: OtherKind, tokens: string)
}
