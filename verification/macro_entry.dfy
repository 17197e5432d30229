/**
 The `#[unstable]` entry point: decode the arguments, parse the annotated item, and hand
 any of the nine supported kinds to `Expand`. A bad argument list or an unparsable item
 yields compile errors; any other item kind aborts the build.
 */
module MacroEntry {
  import opened Syntax
  import opened ItemLike
  import opened Unstable

  /** What the attribute hands back to the compiler. */
  datatype MacroOutput =
    | Expanded(expansion: Expansion)
    | CompileErrors(message: string)
    | Aborted(reason: string)

  const UnsupportedItemType := "unsupported item type"

  /**
   The attribute macro. `args` is the decoded argument list or its diagnostics; `input` is
   the parsed item or the parser's diagnostics. Arguments are decoded before the item is
   looked at, so their errors win.
   */
  function UnstableMacro(args: Result<Config>, input: Result<SynItem>): (r: MacroOutput)
    ensures args.Err? ==> r == CompileErrors(args.message)
    ensures args.Ok? && input.Err? ==> r == CompileErrors(input.message)
    ensures r.Expanded? <==> args.Ok? && input.Ok? && input.value.Supported?
    ensures r.Expanded? ==> r.expansion == Expand(args.value, input.value.item)
    ensures r.Aborted? <==> args.Ok? && input.Ok? && input.value.Other?
    ensures r.Aborted? ==> r.reason == UnsupportedItemType
  {
    match args
    case Err(e) => CompileErrors(e)
    case Ok(c) =>
      match input
      case Err(e) => CompileErrors(e)
      case Ok(Supported(it)) => Expanded(Expand(c, it))
      case Ok(Other(_, _)) => Aborted(UnsupportedItemType)
  }

  /** On a non-`pub` item of any supported kind the attribute does nothing. */
  lemma UnstableMacroIgnoresNonPublic(c: Config, it: Item)
    requires !IsPublic(it)
    ensures UnstableMacro(Ok(c), Ok(Supported(it))) == Expanded(Unchanged(it))
  {
  }

  /**
   On a `pub` item of any of the nine kinds the attribute emits exactly one copy per build,
   `pub` when the qualified feature is enabled and `pub(crate)` otherwise.
   */
  lemma UnstableMacroOnPublic(c: Config, it: Item, enabled: set<string>)
    requires IsPublic(it)
    ensures var r := UnstableMacro(Ok(c), Ok(Supported(it)));
            && r.Expanded? && r.expansion.Dual?
            && |Selected(r.expansion, enabled)| == 1
            && Selected(r.expansion, enabled)[0].vis ==
                 (if CrateFeatureName(c) in enabled then Public else CrateVisibility)
  {
  }

  // Items taken from the crate's own documentation and example crate.

  const RiskyFunction := Item(
    [Doc(" This function does something really risky!"), Doc(""), Doc(" Don't use it yet!")],
    Public,
    Fn("risky_function", "fn risky_function()", "{ unimplemented!() }"))

  const RiskyDoc :=
    "\n# Availability\n\n" +
    "**This API is marked as unstable** and is only available when the " +
    "`unstable-risky-function`" +
    " crate feature is enabled. This comes with no stability guarantees, and could be changed or removed at any time."

  /** `feature = "risky-function"` on a `pub fn`: the documented expansion. */
  lemma RiskyFunctionExpansion()
    ensures var r := UnstableMacro(Ok(Config(Some("risky-function"), None)), Ok(Supported(RiskyFunction)));
            && r.Expanded? && r.expansion.Dual?
            && r.expansion.visible.cfg == Feature("unstable-risky-function")
            && r.expansion.hidden.cfg == Not(Feature("unstable-risky-function"))
            && r.expansion.visible.item.vis == Public
            && r.expansion.hidden.item.vis == Restricted("crate")
            && r.expansion.visible.item.kind == RiskyFunction.kind
            && r.expansion.hidden.item.kind == RiskyFunction.kind
            && r.expansion.visible.item.attrs == RiskyFunction.attrs + [Doc(RiskyDoc)]
            && r.expansion.hidden.allow == ["dead_code"]
  {
    var c := Config(Some("risky-function"), None);
    assert CrateFeatureName(c) == "unstable-risky-function";
    assert Backticked("unstable-risky-function") == "`unstable-risky-function`";
  }

  const StructWithIssue := Item(
    [Doc(" An unstable struct with an issue link"), Doc(""),
     Doc(" This struct is unstable and has an issue link.")],
    Public,
    Struct("UnstableStructWithIssue", [Field([], Public, Some("x"), "u8")]))

  /** `issue = "#123"` is cited verbatim, and the struct's `pub` field follows the struct. */
  lemma StructWithIssueExpansion()
    ensures var r := UnstableMacro(Ok(Config(Some("struct-with-issue"), Some("#123"))),
                                   Ok(Supported(StructWithIssue)));
            && r.Expanded? && r.expansion.Dual?
            && r.expansion.visible.item.kind.fields == [Field([], Public, Some("x"), "u8")]
            && r.expansion.hidden.item.kind.fields == [Field([], Restricted("crate"), Some("x"), "u8")]
            && var attrs := r.expansion.visible.item.attrs;
               var doc := attrs[|attrs| - 1].text;
               doc[|doc| - |"\nThe tracking issue is: `#123`"|..] == "\nThe tracking issue is: `#123`"
  {
    var c := Config(Some("struct-with-issue"), Some("#123"));
    var doc := DocAddendum(CrateFeatureName(c), c.issue);
    var section := AvailabilitySection(CrateFeatureName(c));
    assert doc == section + ("\nThe tracking issue is: `#123`");
  }

  const ReexportUse := Item(
    [Doc(" An unstable re-export of a private stable item"), Doc(""), Doc(" This re-export is unstable."),
     Meta("expect", "unused_imports")],
    Public,
    Use("private::private_function as unstable_reexport"))

  /**
   A `pub use` gets `allow(dead_code)` like every other kind; the `expect(unused_imports)`
   its author wrote stays in place on both copies.
   */
  lemma ReexportExpansion()
    ensures var r := UnstableMacro(Ok(Config(Some("reexport"), None)), Ok(Supported(ReexportUse)));
            && r.Expanded? && r.expansion.Dual?
            && r.expansion.visible.cfg == Feature("unstable-reexport")
            && r.expansion.hidden.allow == ["dead_code"]
            && r.expansion.visible.item.attrs[3] == Meta("expect", "unused_imports")
            && r.expansion.hidden.item.attrs[3] == Meta("expect", "unused_imports")
            && r.expansion.hidden.item.kind == ReexportUse.kind
  {
  }

  /** An `impl` block is refused before any expansion, but a bad argument list is reported first. */
  lemma ImplIsRejected(c: Config, tokens: string, argError: string)
    ensures UnstableMacro(Ok(c), Ok(Other(Impl, tokens))) == Aborted("unsupported item type")
    ensures UnstableMacro(Err(argError), Ok(Other(Impl, tokens))) == CompileErrors(argError)
  {
  }
}
