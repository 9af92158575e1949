/** The non-UI logic of the my-addons page: the row filter, the bulk toggles,
    the install and remove handlers, the grid's tie-breaking comparator, the
    formatting of loaded addons, the enablement predicates, the saved sort
    order and the refresh guard. The row list is the page's state; the
    handlers replace it with an edited copy, as the page publishes a cloned
    array. */
module MyAddons {
  import opened Wrappers
  import opened Entities
  import Strings
  import OrderBy

  // ---------------------------------------------------------------------
  // Looking rows up

  /** `rows.findIndex(r => r.addon?.id === key)`: the first row with that
      key, or -1. */
  function FindIndex(rows: seq<Row>, key: Option<string>): (idx: int)
    ensures -1 <= idx < |rows|
    ensures idx == -1 <==> forall j :: 0 <= j < |rows| ==> RowKey(rows[j]) != key
    ensures idx >= 0 ==> RowKey(rows[idx]) == key && forall j :: 0 <= j < idx ==> RowKey(rows[j]) != key
  {
    if |rows| == 0 then -1
    else if RowKey(rows[0]) == key then 0
    else
      var i := FindIndex(rows[1..], key);
      if i == -1 then -1 else i + 1
  }

  /** Two row lists with the same keys, position by position, find the same
      index for every key. */
  lemma FindIndexSameKeys(a: seq<Row>, b: seq<Row>, key: Option<string>)
    requires |a| == |b| && forall j :: 0 <= j < |a| ==> RowKey(a[j]) == RowKey(b[j])
    ensures FindIndex(a, key) == FindIndex(b, key)
  {
    var i, k := FindIndex(a, key), FindIndex(b, key);
    if i == -1 || k == -1 {
    } else if i < k {
      assert RowKey(b[i]) == key;
    } else if k < i {
      assert RowKey(a[k]) == key;
    }
  }

  // ---------------------------------------------------------------------
  // The text filter

  /** The three fields the filter looks at, `undefined` when the row has no
      addon. */
  function AddonName(r: Row): Option<string> { if r.addon.Some? then Some(r.addon.value.name) else None }
  function AddonLatestVersion(r: Row): Option<string> { if r.addon.Some? then Some(r.addon.value.latestVersion) else None }
  function AddonAuthor(r: Row): Option<string> { if r.addon.Some? then Some(r.addon.value.author) else None }

  /** `filterListItem`. `includes` is the external `stringIncludes`. */
  predicate FilterListItem(item: Row, filter: string, includes: (Option<string>, string) -> bool)
  {
    includes(AddonName(item), filter) || includes(AddonLatestVersion(item), filter) ||
    includes(AddonAuthor(item), filter)
  }

  /** The filter text as the page compares it: trimmed and lower-cased. */
  function NormalizeFilter(filterVal: string): (f: string)
    ensures |f| <= |filterVal|
    ensures forall i :: 0 <= i < |f| ==> !('A' <= f[i] <= 'Z')
  {
    Strings.ToLower(Strings.Trim(filterVal))
  }

  /** The rows, in order, that match `filter`. */
  function KeepMatching(rows: seq<Row>, filter: string, includes: (Option<string>, string) -> bool): (r: seq<Row>)
    ensures |r| <= |rows|
    ensures forall x :: x in r <==> x in rows && FilterListItem(x, filter, includes)
  {
    if |rows| == 0 then []
    else
      var rest := KeepMatching(rows[1..], filter, includes);
      assert forall x :: x in rows <==> x == rows[0] || x in rows[1..];
      if FilterListItem(rows[0], filter, includes) then [rows[0]] + rest else rest
  }

  /** `filterAddons`: an empty filter keeps the input as it is; otherwise the
      rows matching the normalized filter, in their original order. */
  function FilterAddons(rowData: seq<Row>, filterVal: string, includes: (Option<string>, string) -> bool): (r: seq<Row>)
    ensures filterVal == [] ==> r == rowData
    ensures filterVal != [] ==> r == KeepMatching(rowData, NormalizeFilter(filterVal), includes)
    ensures forall x :: x in r ==> x in rowData
  {
    if |filterVal| == 0 then rowData
    else KeepMatching(rowData, NormalizeFilter(filterVal), includes)
  }

  /** Filtering distributes over concatenation: the kept rows keep their
      relative order. */
  lemma {:induction false} KeepMatchingAppend(a: seq<Row>, b: seq<Row>, filter: string,
                                              includes: (Option<string>, string) -> bool)
    ensures KeepMatching(a + b, filter, includes) == KeepMatching(a, filter, includes) + KeepMatching(b, filter, includes)
  {
    if |a| > 0 {
      var ab := a + b;
      assert ab[0] == a[0] && ab[1..] == a[1..] + b;
      KeepMatchingAppend(a[1..], b, filter, includes);
      var head := if FilterListItem(a[0], filter, includes) then [a[0]] else [];
      calc {
        KeepMatching(ab, filter, includes);
        head + KeepMatching(a[1..] + b, filter, includes);
        head + (KeepMatching(a[1..], filter, includes) + KeepMatching(b, filter, includes));
        KeepMatching(a, filter, includes) + KeepMatching(b, filter, includes);
      }
    } else {
      assert a + b == b;
    }
  }

  /** A filter every row matches keeps them all. */
  lemma {:induction false} KeepMatchingAll(rows: seq<Row>, filter: string, includes: (Option<string>, string) -> bool)
    requires forall i :: 0 <= i < |rows| ==> FilterListItem(rows[i], filter, includes)
    ensures KeepMatching(rows, filter, includes) == rows
  {
    if |rows| > 0 {
      KeepMatchingAll(rows[1..], filter, includes);
    }
  }

  // ---------------------------------------------------------------------
  // Bulk toggles

  /** Which of the three bulk toggles, with its target value. */
  datatype Toggle = SetIgnored(target: bool) | SetAutoUpdate(target: bool) | SetNotifications(target: bool)

  /** The field updates one toggle makes to one addon. */
  function Apply(t: Toggle, a: Addon): Addon
  {
    match t
    case SetIgnored(v) =>
      a.(isIgnored := v, autoUpdateEnabled := if v then false else a.autoUpdateEnabled)
    case SetAutoUpdate(v) =>
      a.(autoUpdateEnabled := v, isIgnored := if v then false else a.isIgnored,
         autoUpdateNotificationsEnabled := v)
    case SetNotifications(v) =>
      a.(autoUpdateNotificationsEnabled := v)
  }

  /** Applying a toggle twice is applying it once. */
  lemma ApplyIdempotent(t: Toggle, a: Addon)
    ensures Apply(t, Apply(t, a)) == Apply(t, a)
  {
  }

  /** `onClickIgnoreAddons`' target: every selected item has an addon that is
      currently not ignored. */
  predicate IgnoreTarget(items: seq<Row>)
  {
    forall i :: 0 <= i < |items| ==> items[i].addon.Some? && !items[i].addon.value.isIgnored
  }

  /** `onClickAutoUpdateAddons`' target: every selected addon has auto-update off. */
  predicate AutoUpdateTarget(items: seq<Row>)
  {
    forall i :: 0 <= i < |items| ==> items[i].addon.Some? && !items[i].addon.value.autoUpdateEnabled
  }

  /** `onClickAutoUpdateAddonsNotifications`' target: every selected addon
      has notifications off. */
  predicate NotificationsTarget(items: seq<Row>)
  {
    forall i :: 0 <= i < |items| ==> items[i].addon.Some? && !items[i].addon.value.autoUpdateNotificationsEnabled
  }

  /** Row `j` is edited: it is the first row carrying the key of some
      selected item, and it has an addon. */
  predicate IsTargeted(rows: seq<Row>, items: seq<Row>, j: int)
    requires 0 <= j < |rows|
  {
    rows[j].addon.Some? && exists i :: 0 <= i < |items| && FindIndex(rows, RowKey(items[i])) == j
  }

  function Edited(t: Toggle, r: Row): Row
    requires r.addon.Some?
  {
    r.(addon := Some(Apply(t, r.addon.value)))
  }

  /** The row list after a bulk toggle: targeted rows edited, all others as
      they were. */
  function ToggleRows(rows: seq<Row>, items: seq<Row>, t: Toggle): (r: seq<Row>)
    ensures |r| == |rows|
    ensures forall j :: 0 <= j < |rows| && !IsTargeted(rows, items, j) ==> r[j] == rows[j]
    ensures forall j :: 0 <= j < |rows| && IsTargeted(rows, items, j) ==>
      r[j].name == rows[j].name && r[j].canonicalName == rows[j].canonicalName &&
      r[j].addon == Some(Apply(t, rows[j].addon.value))
  {
    seq(|rows|, j requires 0 <= j < |rows| => if IsTargeted(rows, items, j) then Edited(t, rows[j]) else rows[j])
  }

  /** What the ignore toggle does to one targeted addon: it is ignored exactly
      when the target says so, ignoring it turns auto-update off, and nothing
      else changes. */
  lemma IgnoreToggleEffect(rows: seq<Row>, items: seq<Row>, j: int)
    requires 0 <= j < |rows| && IsTargeted(rows, items, j)
    ensures var target := IgnoreTarget(items);
      var before := rows[j].addon.value;
      var after := ToggleRows(rows, items, SetIgnored(target))[j].addon.value;
      && after.isIgnored == target
      && (target ==> !after.autoUpdateEnabled)
      && (!target ==> after.autoUpdateEnabled == before.autoUpdateEnabled)
      && after.(isIgnored := before.isIgnored, autoUpdateEnabled := before.autoUpdateEnabled) == before
  {
  }

  /** What the auto-update toggle does to one targeted addon. */
  lemma AutoUpdateToggleEffect(rows: seq<Row>, items: seq<Row>, j: int)
    requires 0 <= j < |rows| && IsTargeted(rows, items, j)
    ensures var target := AutoUpdateTarget(items);
      var before := rows[j].addon.value;
      var after := ToggleRows(rows, items, SetAutoUpdate(target))[j].addon.value;
      && after.autoUpdateEnabled == target
      && after.autoUpdateNotificationsEnabled == target
      && (target ==> !after.isIgnored)
      && (!target ==> after.isIgnored == before.isIgnored)
      && after.(autoUpdateEnabled := before.autoUpdateEnabled, isIgnored := before.isIgnored,
                autoUpdateNotificationsEnabled := before.autoUpdateNotificationsEnabled) == before
  {
  }

  /** What the notifications toggle does to one targeted addon. */
  lemma NotificationsToggleEffect(rows: seq<Row>, items: seq<Row>, j: int)
    requires 0 <= j < |rows| && IsTargeted(rows, items, j)
    ensures var target := NotificationsTarget(items);
      var before := rows[j].addon.value;
      var after := ToggleRows(rows, items, SetNotifications(target))[j].addon.value;
      && after.autoUpdateNotificationsEnabled == target
      && after.(autoUpdateNotificationsEnabled := before.autoUpdateNotificationsEnabled) == before
  {
  }

  /** A toggle keeps every row's key, so looking rows up afterwards finds the
      same rows. */
  lemma ToggleKeepsKeys(rows: seq<Row>, items: seq<Row>, t: Toggle, key: Option<string>)
    ensures FindIndex(ToggleRows(rows, items, t), key) == FindIndex(rows, key)
  {
    var r := ToggleRows(rows, items, t);
    forall j | 0 <= j < |rows| ensures RowKey(r[j]) == RowKey(rows[j]) {
    }
    FindIndexSameKeys(r, rows, key);
  }

  /** Selecting one more item edits its row, if it has one with an addon,
      and no other. */
  lemma TargetedStep(rows: seq<Row>, prefix: seq<Row>, item: Row, j: int)
    requires 0 <= j < |rows|
    ensures IsTargeted(rows, prefix + [item], j) <==>
      IsTargeted(rows, prefix, j) || (rows[j].addon.Some? && FindIndex(rows, RowKey(item)) == j)
  {
    var items := prefix + [item];
    if IsTargeted(rows, items, j) {
      var i :| 0 <= i < |items| && FindIndex(rows, RowKey(items[i])) == j;
      if i < |prefix| {
        assert items[i] == prefix[i];
      }
    }
    if IsTargeted(rows, prefix, j) {
      var i :| 0 <= i < |prefix| && FindIndex(rows, RowKey(prefix[i])) == j;
      assert items[i] == prefix[i];
    }
    assert items[|prefix|] == item;
  }

  /** `rows` is `original` with the edits for the selected `items` made. */
  ghost predicate ToggledBy(original: seq<Row>, rows: seq<Row>, items: seq<Row>, t: Toggle)
  {
    && |rows| == |original|
    && forall j :: 0 <= j < |rows| ==>
         rows[j] == if IsTargeted(original, items, j) then Edited(t, original[j]) else original[j]
  }

  /** With nothing selected yet, the copy is the original. */
  lemma ToggledByNothing(original: seq<Row>, t: Toggle)
    ensures ToggledBy(original, original, [], t)
  {
  }

  /** Once every item is processed, the copy is the toggled row list. */
  lemma ToggledByAll(original: seq<Row>, rows: seq<Row>, items: seq<Row>, t: Toggle)
    requires ToggledBy(original, rows, items, t)
    ensures rows == ToggleRows(original, items, t)
  {
  }

  /** A partly edited copy finds the same rows as the original. */
  lemma ToggledByKeepsKeys(original: seq<Row>, rows: seq<Row>, items: seq<Row>, t: Toggle, key: Option<string>)
    requires ToggledBy(original, rows, items, t)
    ensures forall j :: 0 <= j < |rows| ==> RowKey(rows[j]) == RowKey(original[j])
    ensures FindIndex(rows, key) == FindIndex(original, key)
  {
    forall j | 0 <= j < |rows| ensures RowKey(rows[j]) == RowKey(original[j]) {
    }
    FindIndexSameKeys(rows, original, key);
  }

  /** Editing the row found for the next item extends the edits by that item. */
  lemma ToggledByStep(original: seq<Row>, rows: seq<Row>, prefix: seq<Row>, item: Row, t: Toggle, idx: int)
    requires ToggledBy(original, rows, prefix, t)
    requires idx == FindIndex(original, RowKey(item))
    ensures 0 <= idx ==> (rows[idx].addon.Some? <==> original[idx].addon.Some?)
    ensures 0 <= idx && rows[idx].addon.Some? ==>
      ToggledBy(original, rows[idx := Edited(t, rows[idx])], prefix + [item], t)
    ensures !(0 <= idx && rows[idx].addon.Some?) ==> ToggledBy(original, rows, prefix + [item], t)
  {
    var items := prefix + [item];
    if 0 <= idx && original[idx].addon.Some? {
      ApplyIdempotent(t, original[idx].addon.value);
      var next := rows[idx := Edited(t, rows[idx])];
      forall j | 0 <= j < |rows|
        ensures next[j] == if IsTargeted(original, items, j) then Edited(t, original[j]) else original[j]
      {
        TargetedStep(original, prefix, item, j);
      }
    } else {
      forall j | 0 <= j < |rows|
        ensures rows[j] == if IsTargeted(original, items, j) then Edited(t, original[j]) else original[j]
      {
        TargetedStep(original, prefix, item, j);
      }
    }
  }

  // ---------------------------------------------------------------------
  // Install and remove events

  predicate IsTerminal(s: InstallState)
  {
    s == Complete || s == Error
  }

  /** `onAddonInstalledEvent`'s effect on the rows. `wrap` is the external
      `AddonViewModel` constructor; `selectedId` the id of the selected
      installation, if any. */
  function RowsAfterInstall(rows: seq<Row>, evt: AddonUpdateEvent, selectedId: Option<string>,
                            wrap: Addon -> Row): (r: seq<Row>)
    ensures Some(evt.addon.installationId) != selectedId ==> r == rows
    ensures !IsTerminal(evt.installState) ==> r == rows
    ensures Some(evt.addon.installationId) == selectedId && IsTerminal(evt.installState) ==>
      var idx := FindIndex(rows, evt.addon.id);
      if idx >= 0 then
        |r| == |rows| && r[idx] == wrap(evt.addon) &&
        forall j :: 0 <= j < |rows| && j != idx ==> r[j] == rows[j]
      else
        |r| == |rows| + 1 && multiset(r) == multiset(rows) + multiset{wrap(evt.addon)} &&
        OrderBy.SortedBy(r, (x: Row) => x.canonicalName)
  {
    if Some(evt.addon.installationId) != selectedId || !IsTerminal(evt.installState) then rows
    else
      var idx := FindIndex(rows, evt.addon.id);
      if idx == -1 then OrderBy.Sort(rows + [wrap(evt.addon)], (x: Row) => x.canonicalName)
      else rows[idx := wrap(evt.addon)]
  }

  /** `array.splice(start, 1)`: a negative start counts from the end (and
      is clamped to the first element), and a start at or past the end
      removes nothing. */
  function SpliceOne(s: seq<Row>, start: int): (r: seq<Row>)
    ensures 0 <= start < |s| ==> r == s[..start] + s[start + 1..]
    ensures start < 0 && |s| + start >= 0 ==> r == s[..|s| + start] + s[|s| + start + 1..]
    ensures |s| > 0 && |s| + start < 0 ==> r == s[1..]
    ensures start >= |s| ==> r == s
  {
    var from := if start < 0 then (if |s| + start < 0 then 0 else |s| + start)
                else (if start > |s| then |s| else start);
    if from < |s| then s[..from] + s[from + 1..] else s
  }

  /** `onAddonRemoved` as written: `splice(findIndex(...), 1)`. */
  function RemovedAsWritten(rows: seq<Row>, addonId: string): (r: seq<Row>)
    ensures |rows| > 0 ==> |r| == |rows| - 1
    ensures |rows| == 0 ==> r == []
  {
    SpliceOne(rows, FindIndex(rows, Some(addonId)))
  }

  /** When the id is in the list, exactly its first row is removed. */
  lemma RemovedAsWrittenKnownId(rows: seq<Row>, addonId: string)
    requires exists j :: 0 <= j < |rows| && RowKey(rows[j]) == Some(addonId)
    ensures var idx := FindIndex(rows, Some(addonId));
      0 <= idx < |rows| && RemovedAsWritten(rows, addonId) == rows[..idx] + rows[idx + 1..]
  {
  }

  /** When the id is not in the list, `findIndex` gives -1 and the last row
      is removed instead. */
  lemma RemovedAsWrittenDropsLast(rows: seq<Row>, addonId: string)
    requires |rows| > 0 && forall j :: 0 <= j < |rows| ==> RowKey(rows[j]) != Some(addonId)
    ensures RemovedAsWritten(rows, addonId) == rows[..|rows| - 1]
  {
    assert rows[..|rows| - 1] + rows[|rows|..] == rows[..|rows| - 1];
  }

  /** A concrete list that shows it: removing an unknown id drops the only
      row. */
  lemma RemoveUnknownIdExample(a: Addon)
    requires a.id == Some("a")
    ensures RemovedAsWritten([Row(Some(a), "A", "a")], "b") == []
  {
    RemovedAsWrittenDropsLast([Row(Some(a), "A", "a")], "b");
  }

  /** The evidently intended removal: the first row carrying the id goes,
      and an unknown id leaves the list alone. */
  function RemoveById(rows: seq<Row>, addonId: string): (r: seq<Row>)
    ensures (forall j :: 0 <= j < |rows| ==> RowKey(rows[j]) != Some(addonId)) ==> r == rows
    ensures (exists j :: 0 <= j < |rows| && RowKey(rows[j]) == Some(addonId)) ==>
      |r| == |rows| - 1 && multiset(r) + multiset{rows[FindIndex(rows, Some(addonId))]} == multiset(rows)
    ensures var idx := FindIndex(rows, Some(addonId));
      idx >= 0 ==> r == rows[..idx] + rows[idx + 1..]
  {
    var idx := FindIndex(rows, Some(addonId));
    if idx == -1 then rows
    else
      assert rows == rows[..idx] + [rows[idx]] + rows[idx + 1..];
      rows[..idx] + rows[idx + 1..]
  }

  // ---------------------------------------------------------------------
  // Comparator, formatting, predicates

  /** `compareElement`: order by `prop`, ties broken by canonical name. */
  function CompareElement(a: Row, b: Row, prop: Row -> string): (c: int)
    ensures c == 0 <==> prop(a) == prop(b) && a.canonicalName == b.canonicalName
    ensures -1 <= c <= 1
    ensures prop(a) == prop(b) ==> c == (if a.canonicalName == b.canonicalName then 0
                                          else if Strings.Greater(a.canonicalName, b.canonicalName) then 1 else -1)
  {
    if prop(a) == prop(b) then
      if a.canonicalName == b.canonicalName then 0
      else if Strings.Greater(a.canonicalName, b.canonicalName) then 1 else -1
    else if Strings.Greater(prop(a), prop(b)) then 1 else -1
  }

  /** Swapping the arguments negates the comparison: the comparator is
      antisymmetric. */
  lemma CompareElementAntisymmetric(a: Row, b: Row, prop: Row -> string)
    ensures CompareElement(b, a, prop) == -CompareElement(a, b, prop)
  {
    Strings.GreaterTrichotomy(prop(a), prop(b));
    Strings.GreaterTrichotomy(a.canonicalName, b.canonicalName);
  }

  /** The comparison is positive exactly when `a` sorts after `b`. */
  lemma CompareElementPositive(a: Row, b: Row, prop: Row -> string)
    ensures CompareElement(a, b, prop) == 1 <==>
      Strings.Greater(prop(a), prop(b)) ||
      (prop(a) == prop(b) && Strings.Greater(a.canonicalName, b.canonicalName))
  {
    Strings.GreaterTrichotomy(prop(a), prop(b));
    Strings.GreaterTrichotomy(a.canonicalName, b.canonicalName);
  }

  /** `!installedVersion` holds for undefined and for "" alike; both become "". */
  function FixInstalledVersion(r: Row): (f: Row)
    ensures f.name == r.name && f.canonicalName == r.canonicalName && f.addon.Some? == r.addon.Some?
    ensures r.addon.None? ==> f == r
    ensures f.addon.Some? ==> f.addon.value == r.addon.value.(installedVersion := f.addon.value.installedVersion)
    ensures f.addon.Some? && r.addon.value.installedVersion in {None, Some("")} ==>
      f.addon.value.installedVersion == Some("")
    ensures f.addon.Some? && r.addon.value.installedVersion !in {None, Some("")} ==>
      f.addon.value.installedVersion == r.addon.value.installedVersion
  {
    if r.addon.Some? && (r.addon.value.installedVersion == None || r.addon.value.installedVersion == Some("")) then
      r.(addon := Some(r.addon.value.(installedVersion := Some(""))))
    else r
  }

  /** The view models `formatAddons` builds, in input order. */
  function ViewModels(addons: seq<Addon>, wrap: Addon -> Row): (vms: seq<Row>)
    ensures |vms| == |addons|
    ensures forall i :: 0 <= i < |addons| ==> vms[i] == FixInstalledVersion(wrap(addons[i]))
  {
    seq(|addons|, i requires 0 <= i < |addons| => FixInstalledVersion(wrap(addons[i])))
  }

  /** `formatAddons`: one row per addon, ordered by name, each the wrapped
      addon with a missing or empty installed version replaced by "". */
  function FormatAddons(addons: seq<Addon>, wrap: Addon -> Row): (r: seq<Row>)
    ensures |r| == |addons|
    ensures OrderBy.SortedBy(r, (x: Row) => x.name)
    ensures multiset(r) == multiset(ViewModels(addons, wrap))
    ensures forall i :: 0 <= i < |r| ==> exists k :: 0 <= k < |addons| && r[i] == FixInstalledVersion(wrap(addons[k]))
    ensures forall i :: 0 <= i < |r| && r[i].addon.Some? ==> r[i].addon.value.installedVersion.Some?
  {
    var viewModels := ViewModels(addons, wrap);
    var sorted := OrderBy.Sort(viewModels, (x: Row) => x.name);
    forall i | 0 <= i < |sorted|
      ensures exists k :: 0 <= k < |addons| && sorted[i] == FixInstalledVersion(wrap(addons[k]))
    {
      assert sorted[i] in multiset(viewModels);
      var k :| 0 <= k < |viewModels| && viewModels[k] == sorted[i];
    }
    sorted
  }

  /** `canSetAutoUpdate`. */
  predicate CanSetAutoUpdate(item: Row)
  {
    item.addon.Some? && !item.addon.value.isIgnored && item.addon.value.warningType.None?
  }

  /** `canSetAutoUpdateNotifications`; `enableSystemNotifications` is the
      application setting. */
  function CanSetAutoUpdateNotifications(item: Row, enableSystemNotifications: bool): (can: bool)
    ensures can ==> CanSetAutoUpdate(item) && enableSystemNotifications
    ensures can <==> CanSetAutoUpdate(item) && enableSystemNotifications && item.addon.value.autoUpdateEnabled
  {
    if item.addon.None? then false
    else if !enableSystemNotifications then false
    else CanSetAutoUpdate(item) && item.addon.value.autoUpdateEnabled
  }

  /** The number of items whose property is truthy, `_.filter(items, prop).length`. */
  function CountWhere(items: seq<Row>, prop: Row -> bool): (n: nat)
    ensures n <= |items|
  {
    if |items| == 0 then 0 else (if prop(items[0]) then 1 else 0) + CountWhere(items[1..], prop)
  }

  lemma {:induction false} CountWhereAll(items: seq<Row>, prop: Row -> bool)
    ensures CountWhere(items, prop) == |items| <==> forall i :: 0 <= i < |items| ==> prop(items[i])
  {
    if |items| > 0 {
      CountWhereAll(items[1..], prop);
      assert forall i :: 0 < i < |items| ==> items[i] == items[1..][i - 1];
    }
  }

  lemma {:induction false} CountWhereNone(items: seq<Row>, prop: Row -> bool)
    ensures CountWhere(items, prop) == 0 <==> forall i :: 0 <= i < |items| ==> !prop(items[i])
  {
    if |items| > 0 {
      CountWhereNone(items[1..], prop);
      assert forall i :: 0 < i < |items| ==> items[i] == items[1..][i - 1];
    }
  }

  /** `isAllItemsSelected`: every item has the property. */
  function IsAllItemsSelected(items: seq<Row>, prop: Row -> bool): (all: bool)
    ensures all <==> forall i :: 0 <= i < |items| ==> prop(items[i])
  {
    CountWhereAll(items, prop);
    CountWhere(items, prop) == |items|
  }

  /** `isIndeterminate`: some but not all items have the property. */
  function IsIndeterminate(items: seq<Row>, prop: Row -> bool): (mixed: bool)
    ensures mixed <==> (exists i :: 0 <= i < |items| && prop(items[i])) &&
                       (exists i :: 0 <= i < |items| && !prop(items[i]))
    ensures mixed <==> 0 < CountWhere(items, prop) < |items|
  {
    CountWhereNone(items, prop);
    CountWhereAll(items, prop);
    (exists i :: 0 <= i < |items| && prop(items[i])) && !IsAllItemsSelected(items, prop)
  }

  /** A saved column sort state. */
  datatype SortOrder = SortOrder(colId: string, sort: string)

  /** What `loadSortOrder` does: whether it resets the stored order to [] and
      which column state, if any, it hands to the grid. `saved` is None when
      the stored value is missing or not an array. */
  datatype SortOrderLoad = SortOrderLoad(resetStored: bool, columnState: Option<seq<SortOrder>>)

  function LoadSortOrder(saved: Option<seq<SortOrder>>): (r: SortOrderLoad)
    ensures r.resetStored <==> saved.None? || |saved.value| < 2
    ensures r.resetStored ==> r.columnState.None?
    ensures !r.resetStored ==> r.columnState == saved
  {
    var order := if saved.None? || |saved.value| < 2 then [] else saved.value;
    SortOrderLoad(saved.None? || |saved.value| < 2, if |order| > 0 then Some(order) else None)
  }

  /** A one-column saved order counts as legacy and is discarded. */
  lemma SingleColumnOrderDiscarded(o: SortOrder)
    ensures LoadSortOrder(Some([o])) == SortOrderLoad(true, None)
  {
  }

  // ---------------------------------------------------------------------
  // The page

  class MyAddonsPage {
    /** `_baseRowDataSrc`, `_isRefreshing`, `_isBusySrc`, `_enableControlsSrc`. */
    var baseRows: seq<Row>
    var isRefreshing: bool
    var isBusy: bool
    var controlsEnabled: bool

    constructor ()
      ensures baseRows == [] && !isRefreshing && isBusy && !controlsEnabled
    {
      baseRows := [];
      isRefreshing := false;
      isBusy := true;
      controlsEnabled := false;
    }

    /** The shared loop of the three bulk toggles: for each selected item,
        find its row in the copy and edit it. */
    method ApplyToggle(items: seq<Row>, t: Toggle)
      modifies this
      ensures baseRows == ToggleRows(old(baseRows), items, t)
      ensures isRefreshing == old(isRefreshing) && isBusy == old(isBusy) && controlsEnabled == old(controlsEnabled)
    {
      var original := baseRows;
      var rows := baseRows;
      var i := 0;
      ghost var done: seq<Row> := [];
      ToggledByNothing(original, t);
      while i < |items|
        invariant 0 <= i <= |items| && done == items[..i]
        invariant ToggledBy(original, rows, done, t)
        invariant baseRows == original
        invariant isRefreshing == old(isRefreshing) && isBusy == old(isBusy) && controlsEnabled == old(controlsEnabled)
      {
        ToggledByKeepsKeys(original, rows, done, t, RowKey(items[i]));
        var idx := FindIndex(rows, RowKey(items[i]));
        ToggledByStep(original, rows, done, items[i], t, idx);
        if idx >= 0 && rows[idx].addon.Some? {
          rows := rows[idx := Edited(t, rows[idx])];
        }
        assert items[..i + 1] == items[..i] + [items[i]];
        done := done + [items[i]];
        i := i + 1;
      }
      assert done == items;
      ToggledByAll(original, rows, items, t);
      baseRows := rows;
    }

    /** `onClickIgnoreAddons`. */
    method OnClickIgnoreAddons(items: seq<Row>)
      modifies this
      ensures baseRows == ToggleRows(old(baseRows), items, SetIgnored(IgnoreTarget(items)))
      ensures isRefreshing == old(isRefreshing) && isBusy == old(isBusy) && controlsEnabled == old(controlsEnabled)
    {
      ApplyToggle(items, SetIgnored(IgnoreTarget(items)));
    }

    /** `onClickAutoUpdateAddons`. */
    method OnClickAutoUpdateAddons(items: seq<Row>)
      modifies this
      ensures baseRows == ToggleRows(old(baseRows), items, SetAutoUpdate(AutoUpdateTarget(items)))
      ensures isRefreshing == old(isRefreshing) && isBusy == old(isBusy) && controlsEnabled == old(controlsEnabled)
    {
      ApplyToggle(items, SetAutoUpdate(AutoUpdateTarget(items)));
    }

    /** `onClickAutoUpdateAddonsNotifications`. */
    method OnClickAutoUpdateAddonsNotifications(items: seq<Row>)
      modifies this
      ensures baseRows == ToggleRows(old(baseRows), items, SetNotifications(NotificationsTarget(items)))
      ensures isRefreshing == old(isRefreshing) && isBusy == old(isBusy) && controlsEnabled == old(controlsEnabled)
    {
      ApplyToggle(items, SetNotifications(NotificationsTarget(items)));
    }

    /** `onAddonInstalledEvent`. `isInstalling` is the addon service's answer
        to `isInstalling()`. */
    method OnAddonInstalledEvent(evt: AddonUpdateEvent, selectedId: Option<string>, wrap: Addon -> Row,
                                 isInstalling: bool)
      modifies this
      ensures baseRows == RowsAfterInstall(old(baseRows), evt, selectedId, wrap)
      ensures controlsEnabled ==
        if Some(evt.addon.installationId) != selectedId then old(controlsEnabled)
        else if !IsTerminal(evt.installState) then false
        else !isInstalling
      ensures isRefreshing == old(isRefreshing) && isBusy == old(isBusy)
    {
      if Some(evt.addon.installationId) != selectedId {
        return;
      }
      if !IsTerminal(evt.installState) {
        controlsEnabled := false;
        return;
      }
      var rows := baseRows;
      var idx := FindIndex(rows, evt.addon.id);
      if idx == -1 {
        rows := OrderBy.Sort(rows + [wrap(evt.addon)], (x: Row) => x.canonicalName);
      } else {
        rows := rows[idx := wrap(evt.addon)];
      }
      baseRows := rows;
      controlsEnabled := !isInstalling;
    }

    /** `onAddonRemoved`, as written. */
    method OnAddonRemoved(addonId: string)
      modifies this
      ensures baseRows == RemovedAsWritten(old(baseRows), addonId)
      ensures isRefreshing == old(isRefreshing) && isBusy == old(isBusy) && controlsEnabled == old(controlsEnabled)
    {
      var idx := FindIndex(baseRows, Some(addonId));
      baseRows := SpliceOne(baseRows, idx);
    }

    /** The synchronous start of `onRefresh`: a call made while a refresh is
        in flight returns at once and changes nothing. */
    method OnRefreshStart() returns (started: bool)
      modifies this
      ensures started == !old(isRefreshing)
      ensures started ==> isRefreshing && isBusy && !controlsEnabled
      ensures !started ==> isRefreshing == old(isRefreshing) && isBusy == old(isBusy) &&
                           controlsEnabled == old(controlsEnabled)
      ensures baseRows == old(baseRows)
    {
      if isRefreshing {
        return false;
      }
      isRefreshing := true;
      isBusy := true;
      controlsEnabled := false;
      started := true;
    }

    /** The `finally` of `onRefresh`, run whether the awaited steps succeeded
        or threw. */
    method OnRefreshFinish()
      modifies this
      ensures !isRefreshing && !isBusy && controlsEnabled
      ensures baseRows == old(baseRows)
    {
      isBusy := false;
      controlsEnabled := true;
      isRefreshing := false;
    }
  }
}
