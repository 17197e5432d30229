/**
 The expansion engine of `#[unstable]`: the qualified feature name, the "Availability"
 documentation section, and `Expand`, which turns one `pub` item into two copies guarded
 by complementary `cfg` conditions on that feature.
 */
module Unstable {
  import opened Syntax
  import opened ItemLike

  /** The attribute's arguments `feature = "…"` and `issue = "…"`, both optional. */
  datatype Config = Config(feature: Option<string>, issue: Option<string>)

  /** Prepended to a given feature name. */
  const FeaturePrefix := "unstable-"

  /** The feature that guards an item whose attribute names no feature. */
  const CatchAllFeature := "unstable"

  /** The crate feature that makes the item public: `unstable-<name>`, or `unstable`. */
  function CrateFeatureName(c: Config): (r: string)
    ensures CatchAllFeature <= r
    ensures c.feature.None? <==> r == CatchAllFeature
    ensures c.feature.Some? ==> FeaturePrefix <= r && r[|FeaturePrefix|..] == c.feature.value
  {
    match c.feature
    case Some(name) => FeaturePrefix + name
    case None => CatchAllFeature
  }

  /** Different `feature` arguments never share a guard. */
  lemma CrateFeatureNameInjective(a: Config, b: Config)
    requires CrateFeatureName(a) == CrateFeatureName(b)
    ensures a.feature == b.feature
  {
  }

  // The pieces of the documentation addendum, in the order they appear.
  const AvailabilityHeading := "\n# Availability\n\n"
  const UnstableNotice := "**This API is marked as unstable** and is only available when the "
  const NoGuarantees := " crate feature is enabled. This comes with no stability guarantees, and could be changed or removed at any time."
  const TrackingIssueLead := "\nThe tracking issue is: "

  function Backticked(s: string): string
  {
    "`" + s + "`"
  }

  /** The addendum up to and including the no-guarantees sentence. */
  function AvailabilitySection(featureName: string): string
  {
    AvailabilityHeading + UnstableNotice + Backticked(featureName) + NoGuarantees
  }

  /**
   The text of the `#[doc]` attribute appended to an unstable item: the Availability section
   naming the feature in backticks, followed by the tracking-issue line only when an issue
   was given.
   */
  function DocAddendum(featureName: string, issue: Option<string>): (r: string)
    ensures AvailabilityHeading <= r
    ensures var k := |AvailabilityHeading + UnstableNotice|;
            |r| >= k + |featureName| + 2 && r[k..k + |featureName| + 2] == Backticked(featureName)
    ensures AvailabilitySection(featureName) <= r
    ensures issue.None? <==> r == AvailabilitySection(featureName)
    ensures issue.Some? ==>
              r[|AvailabilitySection(featureName)|..] == TrackingIssueLead + Backticked(issue.value)
  {
    match issue
    case None => AvailabilitySection(featureName)
    case Some(i) => AvailabilitySection(featureName) + TrackingIssueLead + Backticked(i)
  }

  /** Reads the issue back out of an addendum written for `featureName`; None if it is not one. */
  function IssueOfAddendum(featureName: string, doc: string): Option<Option<string>>
  {
    var lead := AvailabilitySection(featureName) + TrackingIssueLead + "`";
    if doc == AvailabilitySection(featureName) then Some(None)
    else if |doc| > |lead| && doc[..|lead|] == lead && doc[|doc| - 1] == '`' then
      Some(Some(doc[|lead|..|doc| - 1]))
    else None
  }

  /** The addendum cites the issue verbatim: it can be read back exactly. */
  lemma DocAddendumRoundTrip(featureName: string, issue: Option<string>)
    ensures IssueOfAddendum(featureName, DocAddendum(featureName, issue)) == Some(issue)
  {
    if issue.Some? {
      var doc := DocAddendum(featureName, issue);
      var lead := AvailabilitySection(featureName) + TrackingIssueLead + "`";
      assert doc == lead + issue.value + "`";
      assert doc[..|lead|] == lead;
      assert doc[|lead|..|doc| - 1] == issue.value;
    }
  }

  /** The addendum without an issue is a proper prefix of the one with an issue. */
  lemma DocWithoutIssueIsPrefix(featureName: string, issue: string)
    ensures DocAddendum(featureName, None) < DocAddendum(featureName, Some(issue))
  {
  }

  /** The subset of `cfg` predicates the expansion emits. */
  datatype CfgPredicate = Feature(name: string) | Not(operand: CfgPredicate)

  /** Whether a `cfg` predicate holds in a build with the given crate features enabled. */
  predicate Holds(p: CfgPredicate, enabled: set<string>)
  {
    match p
    case Feature(name) => name in enabled
    case Not(q) => !Holds(q, enabled)
  }

  /** The lint allowed on the hidden copy. */
  const DeadCode := "dead_code"

  /** An emitted item with its `#[cfg(…)]` guard and the lints `#[allow(…)]`ed on it. */
  datatype Guarded = Guarded(cfg: CfgPredicate, allow: seq<string>, item: Item)

  /** The attribute's output: the item untouched, or the two guarded copies. */
  datatype Expansion = Unchanged(item: Item) | Dual(visible: Guarded, hidden: Guarded)

  /**
   Expands `#[unstable]` on one item. A non-`pub` item is returned as it is. A `pub` item
   gets the doc addendum; a copy of it is narrowed to `pub(crate)`; the original is guarded
   by `cfg(feature = F)` and the copy by `cfg(not(feature = F))` plus `allow(dead_code)`.
   */
  function Expand(c: Config, it: Item): (r: Expansion)
    ensures r.Unchanged? <==> !IsPublic(it)
    ensures r.Unchanged? ==> r.item == it
    ensures r.Dual? ==> r.visible.cfg == Feature(CrateFeatureName(c)) && r.hidden.cfg == Not(r.visible.cfg)
    ensures r.Dual? ==> r.visible.allow == [] && r.hidden.allow == [DeadCode]
    ensures r.Dual? ==> r.visible.item.attrs == it.attrs + [Doc(DocAddendum(CrateFeatureName(c), c.issue))]
    ensures r.Dual? ==> r.visible.item.vis == Public && r.visible.item.kind == it.kind
    ensures r.Dual? ==> r.hidden.item.vis == CrateVisibility && r.hidden.item.attrs == r.visible.item.attrs
  {
    if IsPublic(it) then
      var name := CrateFeatureName(c);
      var visible := PushAttr(it, Doc(DocAddendum(name, c.issue)));
      var hidden := SetVisibility(visible, CrateVisibility);
      Dual(Guarded(Feature(name), [], visible), Guarded(Not(Feature(name)), [DeadCode], hidden))
    else
      Unchanged(it)
  }

  /** The items a build keeps once every `cfg` guard is evaluated. */
  function Selected(e: Expansion, enabled: set<string>): seq<Item>
  {
    match e
    case Unchanged(it) => [it]
    case Dual(v, h) =>
      (if Holds(v.cfg, enabled) then [v.item] else []) + (if Holds(h.cfg, enabled) then [h.item] else [])
  }

  /**
   Whatever features a build enables, exactly one copy of the item survives: the `pub` one
   when the feature is on, the `pub(crate)` one when it is off.
   */
  lemma ExpandSelectsExactlyOne(c: Config, it: Item, enabled: set<string>)
    ensures |Selected(Expand(c, it), enabled)| == 1
    ensures var s := Selected(Expand(c, it), enabled)[0];
            s.vis == (if !IsPublic(it) then it.vis
                      else if CrateFeatureName(c) in enabled then Public
                      else CrateVisibility)
    ensures IsPublic(it) ==> FieldsWithinItem(Selected(Expand(c, it), enabled)[0])
  {
  }

  /**
   The two copies are identical except for visibilities: the item's own, and for a struct
   the fields that were `pub`, which become `pub(crate)`; other fields stay as written.
   */
  lemma ExpandVariantsDifferOnlyInVisibility(c: Config, it: Item)
    requires IsPublic(it)
    ensures var e := Expand(c, it);
            EraseVisibility(e.hidden.item) == EraseVisibility(e.visible.item)
    ensures var e := Expand(c, it);
            it.kind.Struct? ==>
              && e.hidden.item.kind.Struct?
              && |e.hidden.item.kind.fields| == |it.kind.fields|
              && forall i :: 0 <= i < |it.kind.fields| ==>
                   e.hidden.item.kind.fields[i] ==
                     (if it.kind.fields[i].vis.Public? then it.kind.fields[i].(vis := CrateVisibility)
                      else it.kind.fields[i])
  {
    var visible := PushAttr(it, Doc(DocAddendum(CrateFeatureName(c), c.issue)));
    SetVisibilityOnlyChangesVisibility(visible, CrateVisibility);
  }

  /**
   The expansion does not recurse: every kind but a struct keeps its payload in both copies,
   so each item inside a module keeps its own visibility and attributes in both copies.
   */
  lemma ExpandKeepsPayload(c: Config, it: Item)
    requires IsPublic(it) && !it.kind.Struct?
    ensures Expand(c, it).visible.item.kind == it.kind
    ensures Expand(c, it).hidden.item.kind == it.kind
    ensures it.kind.Mod? && it.kind.content.Some? ==>
              forall i :: 0 <= i < |it.kind.content.value| && it.kind.content.value[i].Supported? ==>
                var child := it.kind.content.value[i].item;
                && Expand(c, it).hidden.item.kind.content.value[i].item.vis == child.vis
                && Expand(c, it).hidden.item.kind.content.value[i].item.attrs == child.attrs
                && Expand(c, it).visible.item.kind.content.value[i].item.vis == child.vis
                && Expand(c, it).visible.item.kind.content.value[i].item.attrs == child.attrs
  {
  }

  /** The hidden copy is no longer `pub`, so expanding it again leaves it alone. */
  lemma ExpandHiddenIsFixpoint(c: Config, c': Config, it: Item)
    requires IsPublic(it)
    ensures Expand(c', Expand(c, it).hidden.item) == Unchanged(Expand(c, it).hidden.item)
  {
  }
}
