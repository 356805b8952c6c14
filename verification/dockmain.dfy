/**
 * The liquiddock plugin's entry points: the `liquiddock-pin` configuration
 * keyword, the filter run before a configuration reload, and the window
 * event handlers that forward to the dock while it exists.
 */
module LiquidDockMain {
  import opened Wrappers
  import opened LiquidDock
  import Seqs

  /** `CVarList::operator[]`: field `i` of a comma-separated value, or the empty string past the end. */
  function Field(fields: seq<string>, i: nat): (f: string)
    ensures i < |fields| ==> f == fields[i]
    ensures i >= |fields| ==> f == ""
  {
    if i < |fields| then fields[i] else ""
  }

  const EmptyAppIdError: string := "appId cannot be empty"

  /** A pinned item as the keyword creates it: not running, not focused, no icon path, no animated properties. */
  function PinnedItem(appId: string, command: string, displayName: string): DockItem
  {
    DockItem(appId, command, "", displayName, true, false, false, None, None, None, None)
  }

  /**
   * The field handling of `onPinnedApp` for `appId, command, displayName`:
   * an empty first field is an error; a missing command or display name
   * defaults to the app id.
   */
  function ParsePinnedApp(fields: seq<string>): (r: Result<DockItem>)
    ensures r.Err? <==> Field(fields, 0) == ""
    ensures r.Err? ==> r.message == EmptyAppIdError
    ensures r.Ok? ==> r.value.appId == fields[0] != "" && r.value.pinned && !r.value.running
    ensures r.Ok? ==> r.value.command == (if |fields| > 1 then fields[1] else fields[0])
    ensures r.Ok? ==> r.value.displayName == (if |fields| > 2 then fields[2] else fields[0])
    ensures r.Ok? ==> r.value.iconPath == "" && !r.value.focused
    ensures r.Ok? ==> r.value.position.None? && r.value.size.None? && r.value.scale.None? && r.value.alpha.None?
    ensures r.Ok? && |fields| == 1 ==> r.value.command == r.value.displayName == fields[0]
  {
    if Field(fields, 0) == "" then Err(EmptyAppIdError)
    else
      var command := if |fields| > 1 then fields[1] else fields[0];
      var displayName := if |fields| > 2 then fields[2] else fields[0];
      Ok(PinnedItem(fields[0], command, displayName))
  }

  /** The keyword line that pins `it`, field by field. */
  function PinLine(it: DockItem): seq<string>
  {
    [it.appId, it.command, it.displayName]
  }

  /** Writing an item's pin line and parsing it back gives the same app id, command and display name. */
  lemma PinLineRoundTrip(it: DockItem)
    requires it.appId != ""
    ensures ParsePinnedApp(PinLine(it)) == Ok(PinnedItem(it.appId, it.command, it.displayName))
  {
  }

  /**
   * A freshly pinned item always launches something: it is not running, so a
   * click runs the command field when it is non-empty and the app id otherwise.
   */
  lemma ParsedItemLaunches(fields: seq<string>, windows: seq<Window>)
    requires ParsePinnedApp(fields).Ok?
    ensures LaunchAction(ParsePinnedApp(fields).value, windows)
      == Some(Exec(if Field(fields, 1) != "" then fields[1] else fields[0]))
  {
  }

  /** The `erase_if` condition of `onPreConfigReload`, negated: an item survives unless pinned and not running. */
  function Survives(it: DockItem): bool
  {
    !(it.pinned && !it.running)
  }

  /** The item list after `onPreConfigReload`. */
  function ReloadFilter(items: seq<DockItem>): (r: seq<DockItem>)
    ensures forall it :: it in r <==> it in items && !(it.pinned && !it.running)
    ensures forall it :: it in r && it.pinned ==> it.running
  {
    Seqs.Filter(items, Survives)
  }

  /**
   * The reload filter keeps the survivors' relative order, is idempotent, and
   * keeps distinct app ids distinct.
   */
  lemma ReloadFilterProperties(items: seq<DockItem>, more: seq<DockItem>)
    ensures ReloadFilter(items + more) == ReloadFilter(items) + ReloadFilter(more)
    ensures ReloadFilter(ReloadFilter(items)) == ReloadFilter(items)
    ensures Distinct(AppIds(items)) ==> Distinct(AppIds(ReloadFilter(items)))
  {
    Seqs.FilterAppend(items, more, Survives);
    Seqs.FilterIdempotent(items, Survives);
    if Distinct(AppIds(items)) {
      FilterKeepsDistinct(items, Survives);
    }
  }

  /** `onPinnedApp` as written: a parsed item is appended, whatever the list already holds. */
  function AppendPinned(items: seq<DockItem>, fields: seq<string>): (r: seq<DockItem>)
    ensures ParsePinnedApp(fields).Err? ==> r == items
    ensures ParsePinnedApp(fields).Ok? ==> |r| == |items| + 1 && r[..|items|] == items && r[|items|] == ParsePinnedApp(fields).value
  {
    match ParsePinnedApp(fields)
    case Err(_) => items
    case Ok(it) => items + [it]
  }

  /** A configuration reload as written: the reload filter, then every `liquiddock-pin` line in order. */
  function ReloadAsWritten(items: seq<DockItem>, pins: seq<seq<string>>): (r: seq<DockItem>)
    ensures var kept := ReloadFilter(items);
            && |kept| <= |r| <= |kept| + |pins|
            && r[..|kept|] == kept
            && forall i :: |kept| <= i < |r| ==> r[i].pinned
    decreases |pins|
  {
    if pins == [] then ReloadFilter(items)
    else AppendPinned(ReloadAsWritten(items, pins[..|pins| - 1]), pins[|pins| - 1])
  }

  /**
   * A reload does not clear a pinned app that is running, and the pin line
   * for it then adds a second item for the same app: with one running pinned
   * `foot` and the line `foot`, the dock shows `foot` twice.
   */
  lemma ReloadDuplicatesRunningPin()
    ensures var foot := PinnedItem("foot", "foot", "foot").(running := true);
            var after := ReloadAsWritten([foot], [["foot"]]);
            && Distinct(AppIds([foot]))
            && AppIds(after) == ["foot", "foot"]
            && !Distinct(AppIds(after))
  {
    var foot := PinnedItem("foot", "foot", "foot").(running := true);
    var pins: seq<seq<string>> := [["foot"]];
    assert pins[..0] == [];
    assert Survives(foot);
    assert ReloadFilter([foot]) == [foot];
    var after := ReloadAsWritten([foot], pins);
    assert after == [foot, PinnedItem("foot", "foot", "foot")];
    assert AppIds(after)[0] == AppIds(after)[1];
  }

  /**
   * The corrected keyword handler: a parsed item whose app is already in the
   * dock re-pins that item and takes the line's command and display name;
   * only an app not yet present is appended.
   */
  function MergePinned(items: seq<DockItem>, fields: seq<string>): (r: seq<DockItem>)
    ensures ParsePinnedApp(fields).Err? ==> r == items
    ensures ParsePinnedApp(fields).Ok? ==>
      var it := ParsePinnedApp(fields).value;
      && (it.appId in AppIds(items) ==> |r| == |items| && AppIds(r) == AppIds(items))
      && (it.appId !in AppIds(items) ==> r == items + [it])
      && exists k :: 0 <= k < |r| && r[k].appId == it.appId && r[k].pinned
           && r[k].command == it.command && r[k].displayName == it.displayName
  {
    match ParsePinnedApp(fields)
    case Err(_) => items
    case Ok(it) =>
      match IndexOfApp(items, it.appId)
      case Some(k) =>
        var r := items[k := items[k].(pinned := true, command := it.command, displayName := it.displayName)];
        assert AppIds(r) == AppIds(items);
        assert r[k].appId == it.appId && r[k].pinned;
        r
      case None =>
        var r := items + [it];
        assert r[|items|] == it;
        r
  }

  /** Merging a pin line never gives two items the same app id. */
  lemma MergePinnedKeepsDistinct(items: seq<DockItem>, fields: seq<string>)
    requires Distinct(AppIds(items))
    ensures Distinct(AppIds(MergePinned(items, fields)))
  {
    var r := MergePinned(items, fields);
    if ParsePinnedApp(fields).Ok? {
      var it := ParsePinnedApp(fields).value;
      if it.appId !in AppIds(items) {
        assert AppIds(r) == AppIds(items) + [it.appId];
      }
    }
  }

  /** A configuration reload with the corrected handler. */
  function Reload(items: seq<DockItem>, pins: seq<seq<string>>): (r: seq<DockItem>)
    ensures var kept := ReloadFilter(items);
            && |kept| <= |r| <= |kept| + |pins|
            && AppIds(r)[..|kept|] == AppIds(kept)
    ensures forall j :: 0 <= j < |pins| && ParsePinnedApp(pins[j]).Ok? ==> ParsePinnedApp(pins[j]).value.appId in AppIds(r)
    decreases |pins|
  {
    if pins == [] then ReloadFilter(items)
    else
      var prev := Reload(items, pins[..|pins| - 1]);
      MergePinnedKeepsApps(prev, pins[|pins| - 1]);
      assert forall j :: 0 <= j < |pins| - 1 ==> pins[..|pins| - 1][j] == pins[j];
      MergePinned(prev, pins[|pins| - 1])
  }

  /** Merging a pin line removes no app, and the line's own app is present afterwards. */
  lemma MergePinnedKeepsApps(items: seq<DockItem>, fields: seq<string>)
    ensures forall id :: id in AppIds(items) ==> id in AppIds(MergePinned(items, fields))
    ensures ParsePinnedApp(fields).Ok? ==> ParsePinnedApp(fields).value.appId in AppIds(MergePinned(items, fields))
  {
    var r := MergePinned(items, fields);
    if ParsePinnedApp(fields).Ok? {
      var it := ParsePinnedApp(fields).value;
      if it.appId !in AppIds(items) {
        assert AppIds(r) == AppIds(items) + [it.appId];
      }
      var k :| 0 <= k < |r| && r[k].appId == it.appId;
      assert AppIds(r)[k] == it.appId;
    }
  }

  /** With the corrected handler a reload keeps one item per application, whatever the pin lines repeat. */
  lemma {:induction false} ReloadKeepsDistinct(items: seq<DockItem>, pins: seq<seq<string>>)
    requires Distinct(AppIds(items))
    ensures Distinct(AppIds(Reload(items, pins)))
    decreases |pins|
  {
    if pins == [] {
      ReloadFilterProperties(items, []);
    } else {
      ReloadKeepsDistinct(items, pins[..|pins| - 1]);
      MergePinnedKeepsDistinct(Reload(items, pins[..|pins| - 1]), pins[|pins| - 1]);
    }
  }

  /**
   * `onPinnedApp`: parse the fields; on an empty app id report the error and
   * leave the list alone, otherwise append the pinned item at the end.
   * Returns the error message, if any.
   */
  method OnPinnedApp(g: GlobalState, fields: seq<string>) returns (error: Option<string>)
    modifies g`items
    ensures ParsePinnedApp(fields).Err? ==> error == Some(EmptyAppIdError) && g.items == old(g.items)
    ensures ParsePinnedApp(fields).Ok? ==> error == None && g.items == old(g.items) + [ParsePinnedApp(fields).value]
    ensures g.items == AppendPinned(old(g.items), fields)
  {
    if Field(fields, 0) == "" {
      return Some(EmptyAppIdError);
    }
    var item := PinnedItem(fields[0], if |fields| > 1 then fields[1] else fields[0],
                           if |fields| > 2 then fields[2] else fields[0]);
    g.items := g.items + [item];
    error := None;
  }

  /** `onPreConfigReload`: erase the pinned items that are not running. */
  method OnPreConfigReload(g: GlobalState)
    modifies g`items
    ensures g.items == ReloadFilter(old(g.items))
  {
    g.items := Seqs.Filter(g.items, Survives);
  }

  /**
   * `onNewWindow`, `onCloseWindow` and `onWindowFocus`: forward the event to
   * the dock when the weak reference still resolves, else do nothing.
   */
  method OnWindowEvent(g: GlobalState)
    modifies (if g.dock != null then {g.dock} else {})`itemsDirty
    ensures g.dock == old(g.dock)
    ensures g.dock != null ==> g.dock.itemsDirty
  {
    var dock := g.dock;
    if dock != null {
      dock.OnWindowEvent();
    }
  }
}
