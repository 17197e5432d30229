# `#[unstable]` expansion, modelled in Dafny

This project models the core of the `instability` procedural-macro crate. The crate's
`#[unstable(feature = "…", issue = "…")]` attribute marks a `pub` API item as unstable.
The item stays `pub` only when the crate feature `unstable-<feature>` is enabled (or
`unstable` when no feature is named). In every other build it is `pub(crate)`.

The model is a pure source-to-source function over a small abstract syntax tree:

- `Syntax` (syntax.dfy): visibilities (`Public | Restricted(path) | Inherited`), attributes
  (`Doc(text)` for doc comments, `Meta(path, tokens)` for everything else), struct fields, and
  `Item(attrs, vis, kind)`. The nine kinds are type alias, enum, struct, fn, mod, trait, const,
  static and use. A module's body is a sequence of parsed items, supported or not.
- `ItemLike` (item_like.dfy): the item abstraction, defined once. Reading the attributes and the
  visibility is the `attrs`/`vis` field of `Item`. `IsPublic`, `PushAttr` and `SetVisibility` are
  functions. For structs, `SetVisibility` also lowers every `pub` field (`NarrowFields`).
  `EraseVisibility` forgets every visibility the attribute may touch. It is the reference used
  to state "the two copies differ only in visibility".
- `Unstable` (unstable.dfy): `CrateFeatureName` gives the qualified feature name. `DocAddendum`
  gives the exact text of the appended "# Availability" doc attribute. `Expand` is the engine: a
  non-`pub` item is `Unchanged`; a `pub` item becomes `Dual(visible, hidden)`. Each copy is
  `Guarded` by a `cfg` predicate (`Feature(F)` or `Not(Feature(F))`) and lists the lints it
  `allow`s. `Holds` and `Selected` evaluate the guards against a set of enabled features, which
  stands in for the compiler's `cfg` evaluation.
- `MacroEntry` (macro_entry.dfy): the attribute entry point. A failed argument decode or a failed
  item parse yields `CompileErrors`. One of the nine kinds goes to `Expand`. Any other item kind
  (`impl`, `extern crate`, `union`, …) is `Aborted("unsupported item type")`.

`src/item_like.rs` repeats, line for line, the trait and impls in `src/unstable.rs:84-157`. The
crate root does not declare it as a module. The model defines the abstraction once, and the table
cites whichever copy is clearer.

Where the code and the crate's prose disagree, the model follows the code:

- The doc example at `src/lib.rs:80-104` shows the `pub(crate)` copy without the Availability
  section and without `#[allow(dead_code)]`. The code (`src/unstable.rs:65-76`) clones the item
  after the doc attribute is pushed, so the hidden copy carries the addendum. It also always adds
  `#[allow(dead_code)]` to that copy. `Expand` does both.
- The only lint the code allows on the hidden copy is `dead_code`, for every kind, `use`
  included. The example crate writes `#[expect(unused_imports)]` by hand on its re-exports
  (`ReexportExpansion`).

## Model

| member | source | states |
|---|---|---|
| `ItemLike.IsPublicExactlyForPub` | src/item_like.rs:13-15 | `is_public` holds exactly when the visibility is `pub`; every `pub(…)` restriction and the default visibility give false |
| `ItemLike.PushAttr` | src/item_like.rs:26-28 | the attribute is appended after all existing ones. The old attributes are an unchanged prefix, and nothing else in the item changes |
| `ItemLike.NarrowFields` | src/unstable.rs:150-153 | the field cascade keeps the number and order of fields. Each field that was `pub` gets the new visibility with nothing else changed; each other field is left exactly as it was |
| `ItemLike.SetVisibility` | src/item_like.rs:34-75 | the item's visibility becomes `v`, and `is_public` afterwards holds iff `v` is `pub`. Attributes are kept. The eight non-struct kinds keep their payload. A struct keeps its name and field count; exactly its `pub` fields are rewritten to `v` |
| `ItemLike.SetVisibilityIdempotent` | src/item_like.rs:66-75 | setting the same visibility twice equals setting it once, for every kind, struct cascade included |
| `ItemLike.NarrowFieldsIdempotent` | src/unstable.rs:147-156 | the struct field cascade applied twice equals the cascade applied once |
| `ItemLike.SetVisibilityLeavesNoPublicField` | src/item_like.rs:67-72 | after narrowing a struct to a non-`pub` visibility no field is `pub` |
| `ItemLike.SetVisibilityKeepsFieldsWithin` | src/unstable.rs:148-153 | after `set_visibility`, whatever the input, no field of a struct is `pub` unless the struct itself is |
| `ItemLike.SetVisibilityOnlyChangesVisibility` | src/unstable.rs:99-156 | `set_visibility` changes visibilities only: the item with all visibilities erased is the same before and after, and the attributes are kept |
| `ItemLike.PushAttrCommutesWithSetVisibility` | src/unstable.rs:107-117 | appending an attribute and setting the visibility commute, so cloning after the doc push gives both copies the same attributes |
| `Unstable.CrateFeatureName` | src/unstable.rs:20-26 | the feature name always starts with `unstable`. It is exactly `unstable` iff no feature was given. Otherwise it is `unstable-` followed by the given name verbatim |
| `Unstable.CrateFeatureNameInjective` | src/unstable.rs:20-26 | two configurations with the same qualified feature name have the same `feature` argument, so distinct features never share a guard |
| `Unstable.DocAddendum` | src/unstable.rs:33-63 | the addendum starts with the `# Availability` heading and names the qualified feature in backticks at a fixed position. With no issue it is exactly the availability section. With an issue, that section is followed by "The tracking issue is: `<issue>`" |
| `Unstable.DocAddendumRoundTrip` | src/unstable.rs:33-45 | the issue can be read back out of the addendum exactly, so it is cited verbatim, and an addendum without an issue reads back as no issue |
| `Unstable.DocWithoutIssueIsPrefix` | src/unstable.rs:33-59 | the addendum without an issue is a proper prefix of the addendum with one |
| `Unstable.Expand` | src/unstable.rs:28-81 | a non-`pub` item comes back unchanged, and only then. For a `pub` item the visible copy is `pub` with the doc addendum appended to the original attributes and the payload unchanged. The hidden copy is `pub(crate)` with the same attributes. The guards are `cfg(feature = F)` and `cfg(not(feature = F))` for the same qualified `F`. Only the hidden copy allows `dead_code` |
| `Unstable.ExpandSelectsExactlyOne` | src/unstable.rs:70-77 | for every set of enabled features exactly one copy survives `cfg` evaluation. It is `pub` when the qualified feature is enabled, `pub(crate)` when not, and the original visibility for a non-`pub` item. For a `pub` item the survivor never has a field more visible than itself |
| `Unstable.ExpandVariantsDifferOnlyInVisibility` | src/unstable.rs:65-68 | the hidden copy equals the doc-augmented visible copy once visibilities are erased. For a struct, exactly the formerly-`pub` fields become `pub(crate)` and all others are as written |
| `Unstable.ExpandKeepsPayload` | src/lib.rs:44-50 | the expansion does not recurse: every non-struct kind keeps its payload in both copies, and each supported item inside an annotated module keeps its own visibility and attributes in both copies |
| `Unstable.ExpandHiddenIsFixpoint` | src/unstable.rs:78-80 | the hidden copy is not `pub`, so expanding it again with any arguments returns it unchanged |
| `MacroEntry.UnstableMacro` | src/lib.rs:106-127 | argument errors are reported alone whatever the item. Parse errors come next. Exactly the nine supported kinds reach `expand`, with the decoded arguments. Every other kind is aborted with "unsupported item type" and never expanded |
| `MacroEntry.UnstableMacroIgnoresNonPublic` | src/lib.rs:54 | applying the attribute to a non-`pub` item of any kind emits that item unchanged |
| `MacroEntry.UnstableMacroOnPublic` | src/lib.rs:34-40 | on a `pub` item of any kind the attribute emits one copy per build: `pub` with the feature on, `pub(crate)` with it off |
| `MacroEntry.RiskyFunctionExpansion` | src/lib.rs:60-104 | `feature = "risky-function"` guards with `unstable-risky-function`. The `pub` and `pub(crate)` copies have the same signature and body, and the appended doc text is the documented Availability section |
| `MacroEntry.StructWithIssueExpansion` | example/src/lib.rs:108-113 | `issue = "#123"` ends the doc addendum with the tracking-issue line citing `#123`; the `pub x: u8` field becomes `pub(crate)` in the hidden copy only |
| `MacroEntry.ReexportExpansion` | example/src/lib.rs:248-253 | a `pub use` gets only `allow(dead_code)`; the hand-written `expect(unused_imports)` and the import tree are kept in both copies |
| `MacroEntry.ImplIsRejected` | src/lib.rs:107-125 | an `impl` block is aborted as unsupported, but a failed argument decode is reported before the item kind is looked at |

## Left out

- Token streams (`quote!`, `parse_quote!`, `ToTokens`). The output is the abstract `Expansion`
  value, with guards and allowed lints as data instead of emitted attributes.
- Argument decoding by `darling` (`NestedMeta::parse_meta_list`, `FromMeta`). It is an external
  library. The entry point takes its outcome as `Result<Config>`, and both decoding stages are
  folded into one `Err`.
- Parsing with `syn`. The parsed item is given directly as a `SynItem`, and a parse failure as
  an `Err` with its diagnostics. Types, expressions, function signatures and blocks are opaque
  strings that the transformation copies. Other syntax that no modelled operation reads is
  dropped from the item shapes: the generics of type aliases, enums, structs, traits and consts,
  a trait's supertraits and `unsafe`/`auto` markers, and
  whether a struct is unit, tuple or braced. Since `push_attr` and `set_visibility` touch only
  attributes, visibilities and struct fields, the two copies would carry that syntax unchanged.
- `panic!("unsupported item type")` is modelled as the `Aborted` result, not as a process abort.
- The compiler and rustdoc: `cfg` evaluation is modelled only as membership in a set of enabled
  features (`Holds`), and doc rendering and Cargo feature declarations are not modelled.
- The hidden copy allows only `dead_code`, whatever the kind; the model emits exactly that.
- Re-exporting an already-unstable item appends a second Availability section. The model keeps
  this behaviour (`PushAttr` never inspects existing attributes) and states nothing special about it.
- example/src/lib.rs is a usage demonstration with no transformation logic. Only three of its
  items appear, as concrete examples.
