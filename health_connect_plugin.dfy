/**
 * The Expo config plugin of `plugins/withHealthConnect.js`, which patches the
 * Android project for Health Connect.
 *
 * The manifest step edits the parsed `AndroidManifest.xml` in place: it adds
 * two intent filters to `.MainActivity` and an `activity-alias` unless they
 * are already there, and appends the two Health Connect packages to
 * `queries`. The activity step rewrites the `MainActivity` source text: it
 * adds an import and a call in `onCreate` unless they are already there.
 * Only the attributes the plugin reads or writes are modelled.
 */
module HealthConnectPlugin {
  import opened Base

  // ----- The manifest ----------------------------------------------------------------------

  /** An `<intent-filter>`: its actions and categories, by `android:name`; either list may be missing. */
  datatype IntentFilter = IntentFilter(action: Option<seq<string>>, category: Option<seq<string>>)

  datatype Activity = Activity(name: string, intentFilters: Option<seq<IntentFilter>>)

  datatype ActivityAlias = ActivityAlias(
    name: string,
    exported: string,
    targetActivity: string,
    permission: string,
    intentFilters: seq<IntentFilter>)

  /** A `<package>` entry of `<queries>`. */
  datatype Package = Package(name: string)

  const MainActivityName := ".MainActivity"
  const RationaleAction := "androidx.health.ACTION_SHOW_PERMISSIONS_RATIONALE"
  const UsageForPeriodAction := "android.intent.action.VIEW_PERMISSION_USAGE_FOR_PERIOD"
  const UsageAction := "android.intent.action.VIEW_PERMISSION_USAGE"
  const HealthPermissionsCategory := "android.intent.category.HEALTH_PERMISSIONS"
  const AliasName := "ViewPermissionUsageActivity"

  const RationaleFilter := IntentFilter(Some([RationaleAction]), None)
  const UsageForPeriodFilter := IntentFilter(Some([UsageForPeriodAction]), Some([HealthPermissionsCategory]))

  const UsageAlias := ActivityAlias(
    AliasName, "true", MainActivityName, "android.permission.START_VIEW_PERMISSION_USAGE",
    [IntentFilter(Some([UsageAction]), Some([HealthPermissionsCategory]))])

  const HealthPackages := [
    Package("com.google.android.apps.healthdata"),
    Package("com.google.android.healthconnect.controller")]

  /** `activities.find(a => a.name === '.MainActivity')`, as an index. */
  function FindMainActivity(activities: seq<Activity>): (r: Option<nat>)
    ensures r.Some? ==> r.value < |activities| && activities[r.value].name == MainActivityName
    ensures r.Some? ==> forall j | 0 <= j < r.value :: activities[j].name != MainActivityName
    ensures r.None? ==> forall j | 0 <= j < |activities| :: activities[j].name != MainActivityName
    decreases |activities|
  {
    if activities == [] then None
    else if activities[0].name == MainActivityName then Some(0)
    else match FindMainActivity(activities[1..])
      case None => None
      case Some(k) => Some(k + 1)
  }

  /** `filters.some(f => f.action?.some(a => a.name === action))` */
  predicate HasAction(filters: seq<IntentFilter>, action: string) {
    exists k | 0 <= k < |filters| :: filters[k].action.Some? && action in filters[k].action.value
  }

  /** The two guarded pushes onto `.MainActivity`'s (possibly new) filter list. */
  function PatchFilters(filters: Option<seq<IntentFilter>>): seq<IntentFilter> {
    var fs := if filters.Some? then filters.value else [];
    var fs1 := if HasAction(fs, RationaleAction) then fs else fs + [RationaleFilter];
    if HasAction(fs1, UsageForPeriodAction) then fs1 else fs1 + [UsageForPeriodFilter]
  }

  function PatchActivities(activities: seq<Activity>): (r: seq<Activity>)
    ensures |r| == |activities|
  {
    match FindMainActivity(activities)
    case None => activities
    case Some(i) => activities[i := activities[i].(intentFilters := Some(PatchFilters(activities[i].intentFilters)))]
  }

  predicate HasAlias(aliases: seq<ActivityAlias>) {
    exists k | 0 <= k < |aliases| :: aliases[k].name == AliasName
  }

  function PatchAliases(aliases: Option<seq<ActivityAlias>>): seq<ActivityAlias> {
    var al := if aliases.Some? then aliases.value else [];
    if HasAlias(al) then al else al + [UsageAlias]
  }

  /** `queries` becomes the two packages when missing; otherwise both are pushed, unconditionally. */
  function PatchQueries(queries: Option<seq<Package>>): seq<Package> {
    if queries.None? then HealthPackages else queries.value + HealthPackages
  }

  /** The parsed manifest: the application's activities and aliases, and the manifest's queries. */
  class Manifest {
    var activities: seq<Activity>
    var aliases: Option<seq<ActivityAlias>>
    var queries: Option<seq<Package>>

    constructor(activities: seq<Activity>, aliases: Option<seq<ActivityAlias>>, queries: Option<seq<Package>>)
      ensures this.activities == activities && this.aliases == aliases && this.queries == queries
    {
      this.activities := activities;
      this.aliases := aliases;
      this.queries := queries;
    }

    /** The `withAndroidManifest` callback. */
    method ApplyHealthConnect()
      modifies this
      ensures activities == PatchActivities(old(activities))
      ensures aliases == Some(PatchAliases(old(aliases)))
      ensures queries == Some(PatchQueries(old(queries)))
    {
      var main := FindMainActivity(activities);
      if main.Some? {
        var i := main.value;
        var filters := if activities[i].intentFilters.Some? then activities[i].intentFilters.value else [];
        if !HasAction(filters, RationaleAction) {
          filters := filters + [RationaleFilter];
        }
        if !HasAction(filters, UsageForPeriodAction) {
          filters := filters + [UsageForPeriodFilter];
        }
        activities := activities[i := activities[i].(intentFilters := Some(filters))];
      }
      var al := if aliases.Some? then aliases.value else [];
      if !HasAlias(al) {
        al := al + [UsageAlias];
      }
      aliases := Some(al);
      if queries.None? {
        queries := Some(HealthPackages);
      } else {
        queries := Some(queries.value + HealthPackages);
      }
    }
  }

  // ----- Properties of the manifest step -------------------------------------------------------

  /** Existing filters are kept in order; the rationale and usage filters are each present afterwards. */
  lemma PatchFiltersKeepsAndAdds(filters: Option<seq<IntentFilter>>)
    ensures var fs := if filters.Some? then filters.value else [];
      var r := PatchFilters(filters);
      && r[..|fs|] == fs
      && HasAction(r, RationaleAction) && HasAction(r, UsageForPeriodAction)
      && |r| == |fs| + (if HasAction(fs, RationaleAction) then 0 else 1)
                     + (if HasAction(fs, UsageForPeriodAction) then 0 else 1)
  {
    var fs := if filters.Some? then filters.value else [];
    var fs1 := if HasAction(fs, RationaleAction) then fs else fs + [RationaleFilter];
    if !HasAction(fs, RationaleAction) {
      assert fs1[|fs|] == RationaleFilter;
    }
    HasActionAppend(fs, [RationaleFilter], UsageForPeriodAction);
    var r := PatchFilters(filters);
    if !HasAction(fs1, UsageForPeriodAction) {
      assert r[|fs1|] == UsageForPeriodFilter;
      assert r[..|fs1|] == fs1;
    }
    assert r[..|fs|] == fs1[..|fs|];
    if HasAction(fs1, RationaleAction) {
      HasActionPrefix(fs1, r, RationaleAction);
    }
  }

  lemma HasActionAppend(fs: seq<IntentFilter>, more: seq<IntentFilter>, action: string)
    ensures HasAction(fs + more, action) <==> HasAction(fs, action) || HasAction(more, action)
  {
    if HasAction(fs + more, action) {
      var k :| 0 <= k < |fs + more| && (fs + more)[k].action.Some? && action in (fs + more)[k].action.value;
      if k >= |fs| {
        assert more[k - |fs|] == (fs + more)[k];
      }
    }
    if HasAction(fs, action) {
      var k :| 0 <= k < |fs| && fs[k].action.Some? && action in fs[k].action.value;
      assert (fs + more)[k] == fs[k];
    }
    if HasAction(more, action) {
      var k :| 0 <= k < |more| && more[k].action.Some? && action in more[k].action.value;
      assert (fs + more)[|fs| + k] == more[k];
    }
  }

  lemma HasActionPrefix(fs: seq<IntentFilter>, r: seq<IntentFilter>, action: string)
    requires |fs| <= |r| && r[..|fs|] == fs && HasAction(fs, action)
    ensures HasAction(r, action)
  {
    var k :| 0 <= k < |fs| && fs[k].action.Some? && action in fs[k].action.value;
    assert r[k] == fs[k];
  }

  /** Running the filter edits twice adds each filter once. */
  lemma PatchFiltersIdempotent(filters: Option<seq<IntentFilter>>)
    ensures PatchFilters(Some(PatchFilters(filters))) == PatchFilters(filters)
  {
    PatchFiltersKeepsAndAdds(filters);
  }

  /** Only the first `.MainActivity` changes, and only in its filter list. */
  lemma PatchActivitiesTouchesOnlyMain(activities: seq<Activity>, j: nat)
    requires j < |activities|
    ensures var r := PatchActivities(activities);
      && r[j].name == activities[j].name
      && (FindMainActivity(activities) != Some(j) ==> r[j] == activities[j])
      && (FindMainActivity(activities) == Some(j) ==> r[j].intentFilters == Some(PatchFilters(activities[j].intentFilters)))
  {
  }

  /** Without a `.MainActivity` no filter is touched. */
  lemma NoMainActivityNoFilters(activities: seq<Activity>)
    requires forall j | 0 <= j < |activities| :: activities[j].name != MainActivityName
    ensures PatchActivities(activities) == activities
  {
  }

  lemma {:induction false} PatchActivitiesIdempotent(activities: seq<Activity>)
    ensures PatchActivities(PatchActivities(activities)) == PatchActivities(activities)
  {
    var once := PatchActivities(activities);
    match FindMainActivity(activities)
    case None =>
    case Some(i) =>
      assert forall j | 0 <= j < |once| :: once[j].name == activities[j].name;
      assert FindMainActivity(once) == Some(i) by {
        SameNamesSameMain(activities, once);
      }
      PatchFiltersIdempotent(activities[i].intentFilters);
  }

  lemma {:induction false} SameNamesSameMain(a: seq<Activity>, b: seq<Activity>)
    requires |a| == |b| && forall j | 0 <= j < |a| :: a[j].name == b[j].name
    ensures FindMainActivity(a) == FindMainActivity(b)
    decreases |a|
  {
    if a != [] {
      SameNamesSameMain(a[1..], b[1..]);
    }
  }

  /** The alias is added once: existing aliases are kept and a second run changes nothing. */
  lemma PatchAliasesAddsOnce(aliases: Option<seq<ActivityAlias>>)
    ensures var al := if aliases.Some? then aliases.value else [];
      var r := PatchAliases(aliases);
      && r[..|al|] == al
      && HasAlias(r)
      && PatchAliases(Some(r)) == r
  {
    var al := if aliases.Some? then aliases.value else [];
    var r := PatchAliases(aliases);
    if !HasAlias(al) {
      assert r[|al|] == UsageAlias;
    } else {
      var k :| 0 <= k < |al| && al[k].name == AliasName;
      assert r[k] == al[k];
    }
  }

  /** A second run appends the two packages again: the queries step is not idempotent. */
  lemma PatchQueriesDuplicates(queries: Option<seq<Package>>)
    ensures PatchQueries(Some(PatchQueries(queries))) == PatchQueries(queries) + HealthPackages
    ensures |PatchQueries(Some(PatchQueries(queries)))| == |PatchQueries(queries)| + 2
    ensures queries.Some? ==> PatchQueries(queries)[..|queries.value|] == queries.value
  {
  }

  // ----- The MainActivity source -----------------------------------------------------------------

  const PackageLine := "package com.geoffreykip.macroscope"
  const DelegateImport := "import dev.matinzd.healthconnect.permissions.HealthConnectPermissionDelegate"
  const OnCreateHook := "HealthConnectPermissionDelegate.setPermissionDelegate(this)"
  const SuperOnCreateNull := "super.onCreate(null)"
  const SuperOnCreateState := "super.onCreate(savedInstanceState)"

  predicate OccursAt(s: string, sub: string, i: nat) {
    i + |sub| <= |s| && s[i..i + |sub|] == sub
  }

  ghost predicate Contains(s: string, sub: string) {
    exists i: nat :: OccursAt(s, sub, i)
  }

  /** The leftmost occurrence of `sub` at or after `from`. */
  function IndexOf(s: string, sub: string, from: nat): (r: Option<nat>)
    ensures r.Some? ==> from <= r.value && OccursAt(s, sub, r.value)
    ensures r.Some? ==> forall j: nat | from <= j < r.value :: !OccursAt(s, sub, j)
    ensures r.None? ==> forall j: nat | from <= j :: !OccursAt(s, sub, j)
    decreases |s| - from
  {
    if from + |sub| > |s| then None
    else if OccursAt(s, sub, from) then Some(from)
    else IndexOf(s, sub, from + 1)
  }

  /** `s.includes(sub)` */
  function Includes(s: string, sub: string): (b: bool)
    ensures b <==> Contains(s, sub)
  {
    IndexOf(s, sub, 0).Some?
  }

  function InsertAt(s: string, p: nat, text: string): (r: string)
    requires p <= |s|
    ensures |r| == |s| + |text|
    ensures r[..p] == s[..p] && r[p + |text|..] == s[p..] && OccursAt(r, text, p)
  {
    s[..p] + text + s[p..]
  }

  /** Step 1: unless present, the import goes on a new paragraph after the first package line. */
  function AddImport(s: string): string {
    if Includes(s, DelegateImport) then s
    else match IndexOf(s, PackageLine, 0)
      case None => s
      case Some(i) => InsertAt(s, i + |PackageLine|, "\n\n" + DelegateImport)
  }

  /**
   * The leftmost match of `super.onCreate(null|savedInstanceState)` at or
   * after `from`, as its position and length.
   */
  function SuperOnCreate(s: string, from: nat): (r: Option<(nat, nat)>)
    ensures r.Some? ==> from <= r.value.0 && r.value.0 + r.value.1 <= |s|
    ensures r.Some? ==>
      || (OccursAt(s, SuperOnCreateNull, r.value.0) && r.value.1 == |SuperOnCreateNull|)
      || (OccursAt(s, SuperOnCreateState, r.value.0) && r.value.1 == |SuperOnCreateState|)
    ensures r.Some? ==> forall j: nat | from <= j < r.value.0 ::
      !OccursAt(s, SuperOnCreateNull, j) && !OccursAt(s, SuperOnCreateState, j)
    ensures r.None? ==> forall j: nat | from <= j ::
      !OccursAt(s, SuperOnCreateNull, j) && !OccursAt(s, SuperOnCreateState, j)
    decreases |s| - from
  {
    if from >= |s| then None
    else if OccursAt(s, SuperOnCreateNull, from) then Some((from, |SuperOnCreateNull|))
    else if OccursAt(s, SuperOnCreateState, from) then Some((from, |SuperOnCreateState|))
    else SuperOnCreate(s, from + 1)
  }

  /** Step 2: unless present, the hook goes on an indented line after the first `super.onCreate(...)`. */
  function AddHook(s: string): string {
    if Includes(s, OnCreateHook) then s
    else
      var call := SuperOnCreate(s, 0);
      if call.None? then s else InsertAt(s, call.value.0 + call.value.1, "\n    " + OnCreateHook)
  }

  /** The `withMainActivity` callback. */
  method PatchMainActivity(src: string) returns (newSrc: string)
    ensures newSrc == AddHook(AddImport(src))
  {
    newSrc := ImportStep(src);
    newSrc := HookStep(newSrc);
  }

  /** Step 1 on the source text. */
  method ImportStep(src: string) returns (newSrc: string)
    ensures newSrc == AddImport(src)
  {
    newSrc := src;
    if !Includes(newSrc, DelegateImport) {
      var anchor := IndexOf(newSrc, PackageLine, 0);
      if anchor.Some? {
        newSrc := InsertAt(newSrc, anchor.value + |PackageLine|, "\n\n" + DelegateImport);
      }
    }
  }

  /** Step 2 on the source text. */
  method HookStep(src: string) returns (newSrc: string)
    ensures newSrc == AddHook(src)
  {
    newSrc := src;
    if !Includes(newSrc, OnCreateHook) {
      var call := SuperOnCreate(newSrc, 0);
      if call.Some? {
        newSrc := InsertAt(newSrc, call.value.0 + call.value.1, "\n    " + OnCreateHook);
      }
    }
  }

  lemma InsertedTextIsContained(s: string, p: nat, sep: string, text: string)
    requires p <= |s|
    ensures Contains(InsertAt(s, p, sep + text), text)
  {
    var r := InsertAt(s, p, sep + text);
    assert r[p + |sep|..p + |sep| + |text|] == (sep + text)[|sep|..];
    assert OccursAt(r, text, p + |sep|);
  }

  /** After step 1 the import is present, unless the file has no package line to anchor it. */
  lemma AddImportInserts(s: string)
    ensures Contains(AddImport(s), DelegateImport) <==> Contains(s, DelegateImport) || IndexOf(s, PackageLine, 0).Some?
  {
    if !Includes(s, DelegateImport) && IndexOf(s, PackageLine, 0).Some? {
      InsertedTextIsContained(s, IndexOf(s, PackageLine, 0).value + |PackageLine|, "\n\n", DelegateImport);
    }
  }

  /** Step 1 twice is step 1 once. */
  lemma AddImportIdempotent(s: string)
    ensures AddImport(AddImport(s)) == AddImport(s)
  {
    AddImportInserts(s);
  }

  /** After step 2 the hook is present, unless the file has no `super.onCreate(...)` call. */
  lemma AddHookInserts(s: string)
    ensures Contains(AddHook(s), OnCreateHook) <==>
      Contains(s, OnCreateHook) || Contains(s, SuperOnCreateNull) || Contains(s, SuperOnCreateState)
  {
    if !Includes(s, OnCreateHook) && SuperOnCreate(s, 0).Some? {
      var m := SuperOnCreate(s, 0).value;
      InsertedTextIsContained(s, m.0 + m.1, "\n    ", OnCreateHook);
    }
  }

  /** Step 2 twice is step 2 once. */
  lemma AddHookIdempotent(s: string)
    ensures AddHook(AddHook(s)) == AddHook(s)
  {
    AddHookInserts(s);
  }
}
