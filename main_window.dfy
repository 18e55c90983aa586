/** The main window: it lists the snapshots the backup script reports,
    enables the restore button only for a real snapshot entry, and runs
    script commands, disabling the action buttons while one is running.
    A started script process is recorded by its arguments; its completion
    is an event the environment delivers with the exit status, the exit
    code and (for the list command) the standard output. */
module MainWindow {
  import opened Wrappers
  import opened Text

  /** How a script process ended. */
  datatype ExitStatus = NormalExit | CrashExit

  /** A script run succeeded: it exited normally with code 0. */
  predicate Succeeded(exit: ExitStatus, code: int) {
    exit == NormalExit && code == 0
  }

  /** An entry of the snapshot list: its text and whether it can be
      selected. */
  datatype Item = Item(text: string, selectable: bool)

  /** The text of the entry shown when the script lists no snapshot. */
  const Placeholder: string := "No snapshots found."

  /** The message the status bar shows. */
  datatype Status =
    | AwaitingUserAction
    | NotRootCannotLoad
    | LoadingSnapshots
    | NoSnapshotsFound
    | LoadedSnapshots(count: nat)
    | FailedToLoad
    | Executing(arguments: seq<string>)
    | OperationSuccessful
    | OperationFailed(exitCode: int)

  /** A snapshot id as the list shows it: some text on one line. */
  predicate ListedId(s: string) {
    s != [] && '\n' !in s
  }

  /** The snapshot ids in the list command's output: the output trimmed,
      split at each "\n", empty pieces skipped. */
  function SnapshotIds(stdout: string): (ids: seq<string>)
    ensures forall i :: 0 <= i < |ids| ==> ListedId(ids[i])
  {
    var parts := Split(Trim(stdout), '\n');
    RemoveKeeps(parts, []);
    Remove(parts, [])
  }

  /** The entries a successful list adds: one selectable entry per id, or
      a single entry that cannot be selected when there is none. */
  function ListedItems(stdout: string): (items: seq<Item>)
    ensures |items| >= 1
    ensures forall i :: 0 <= i < |items| && items[i].selectable ==> items[i].text in SnapshotIds(stdout)
  {
    var ids := SnapshotIds(stdout);
    if ids == [] then [Item(Placeholder, false)] else Selectable(ids)
  }

  /** One selectable entry per id, in order. */
  function Selectable(ids: seq<string>): (items: seq<Item>)
    ensures |items| == |ids|
    ensures forall i :: 0 <= i < |ids| ==> items[i] == Item(ids[i], true)
  {
    if ids == [] then [] else [Item(ids[0], true)] + Selectable(ids[1..])
  }

  /** The listed items hold the ids in order, all selectable, or only the
      placeholder, which cannot be selected. */
  lemma ListedItemsShape(stdout: string)
    ensures var ids, items := SnapshotIds(stdout), ListedItems(stdout);
      if ids == [] then items == [Item(Placeholder, false)]
      else |items| == |ids| && forall i :: 0 <= i < |ids| ==> items[i].text == ids[i] && items[i].selectable
  {
  }

  /** The list shows no snapshot exactly when the output is only white
      space. */
  lemma NoSnapshotsIffBlank(stdout: string)
    ensures SnapshotIds(stdout) == [] <==> AllSpace(stdout)
  {
    var t := Trim(stdout);
    var parts := Split(t, '\n');
    if !AllSpace(stdout) {
      assert t != [] && !IsSpace(t[0]);
      assert parts[0] != [];
      assert Remove(parts, []) == [parts[0]] + Remove(parts[1..], []);
    } else {
      assert t == [];
    }
  }

  /** Text on one line with no white space at all, as the script's
      timestamp ids are. */
  predicate Token(s: string) {
    s != [] && forall i :: 0 <= i < |s| ==> !IsSpace(s[i])
  }

  /** Ids joined by "\n" start and end with a character that is not
      white space. */
  lemma JoinedIdsEnds(ids: seq<string>)
    requires |ids| >= 1
    requires forall i :: 0 <= i < |ids| ==> Token(ids[i])
    ensures var m := Join(ids, '\n'); m != [] && !IsSpace(m[0]) && !IsSpace(m[|m| - 1])
  {
    JoinFirst(ids, '\n');
    JoinLast(ids, '\n');
    var first, last := ids[0], ids[|ids| - 1];
    assert Token(first) && Token(last);
    assert !IsSpace(first[0]) && !IsSpace(last[|last| - 1]);
  }

  /** A line whose ends are not white space, trimmed with its newline, is
      the line. */
  lemma TrimLine(m: string)
    requires m != [] && !IsSpace(m[0]) && !IsSpace(m[|m| - 1])
    ensures Trim(m + "\n") == m
  {
    assert [] + m + "\n" == m + "\n";
    assert AllSpace("\n");
    TrimUnique([], m, "\n");
  }

  /** Ids printed one per line, trimmed, are the ids joined by "\n". */
  lemma TrimWrittenIds(ids: seq<string>)
    requires |ids| >= 1
    requires forall i :: 0 <= i < |ids| ==> Token(ids[i])
    ensures Trim(JoinLines(ids)) == Join(ids, '\n')
  {
    var m := Join(ids, '\n');
    JoinedIdsEnds(ids);
    TrimLine(m);
    JoinLinesIsJoin(ids);
    JoinSnoc(ids, "", '\n');
    assert m + ['\n'] + "" == m + "\n";
  }

  /** Tokens are non-empty and hold no newline. */
  lemma TokensOneLine(ids: seq<string>)
    requires forall i :: 0 <= i < |ids| ==> Token(ids[i])
    ensures [] !in ids
    ensures forall i :: 0 <= i < |ids| ==> '\n' !in ids[i]
  {
    forall i | 0 <= i < |ids| ensures ids[i] != [] && '\n' !in ids[i] {
      assert Token(ids[i]);
    }
  }

  /** Ids printed one per line are listed back as exactly those ids, in
      order. */
  lemma ListedIdsRoundTrip(ids: seq<string>)
    requires forall i :: 0 <= i < |ids| ==> Token(ids[i])
    ensures SnapshotIds(JoinLines(ids)) == ids
  {
    if ids == [] {
      assert AllSpace(JoinLines(ids));
    } else {
      TokensOneLine(ids);
      SplitJoin(ids, '\n');
      TrimWrittenIds(ids);
    }
  }

  /** The restore button's enabled state for a current item: enabled
      exactly when there is one and it can be selected. */
  predicate RestoreAllowed(current: Option<Item>) {
    current.Some? && current.value.selectable
  }

  /** Any entry of a successful list enables restore exactly when the
      output named at least one snapshot: the placeholder never does. */
  lemma ListedItemRestorable(stdout: string, i: nat)
    requires i < |ListedItems(stdout)|
    ensures RestoreAllowed(Some(ListedItems(stdout)[i])) <==> SnapshotIds(stdout) != []
  {
    ListedItemsShape(stdout);
  }

  /** Appending entries whose selectable ones are among the ids just
      listed keeps every selectable entry among the ids listed so far. */
  lemma AppendListed(items: seq<Item>, reported: seq<string>, added: seq<Item>, ids: seq<string>)
    requires forall i :: 0 <= i < |items| && items[i].selectable ==> items[i].text in reported
    requires forall i :: 0 <= i < |added| && added[i].selectable ==> added[i].text in ids
    ensures var all, known := items + added, reported + ids;
      forall i :: 0 <= i < |all| && all[i].selectable ==> all[i].text in known
  {
    var all, known := items + added, reported + ids;
    forall i | 0 <= i < |all| && all[i].selectable ensures all[i].text in known {
      if i < |items| {
        assert all[i] == items[i];
      } else {
        assert all[i] == added[i - |items|];
      }
    }
  }

  /** The main window's state: whether it runs as root, the list entries
      and the current one, the two action buttons, the status bar, and the
      script processes started so far (their arguments) and still running.
      The ghost field reported records every id the list command has
      printed. */
  class AlpSnapGui {
    const isRoot: bool
    var items: seq<Item>
    var current: Option<nat>
    var createEnabled: bool
    var restoreEnabled: bool
    var status: Status
    var launched: seq<seq<string>>
    var commandsRunning: nat
    var listsRunning: nat
    ghost var reported: seq<string>

    /** The current index lies in the list; restore is enabled only for a
        selectable current entry; the text of a selectable entry is an id
        the list command printed, and every such id is a listed id; a
        window without root rights never starts a process. */
    ghost predicate Valid()
      reads this
    {
      && (current.Some? ==> current.value < |items|)
      && (restoreEnabled ==> current.Some? && current.value < |items| && items[current.value].selectable)
      && (forall i :: 0 <= i < |items| && items[i].selectable ==> items[i].text in reported)
      && (forall j :: 0 <= j < |reported| ==> ListedId(reported[j]))
      && (!isRoot ==> launched == [] && commandsRunning == 0 && listsRunning == 0)
    }

    /** While a script command runs, both action buttons are disabled, so
        no second command can start: at most one runs at a time. */
    ghost predicate Guarded()
      reads this
    {
      commandsRunning <= 1 && (commandsRunning > 0 ==> !createEnabled && !restoreEnabled)
    }

    /** The current entry, if any. */
    function CurrentItem(): Option<Item>
      reads this
      requires current.Some? ==> current.value < |items|
    {
      if current.Some? then Some(items[current.value]) else None
    }

    /** Building the window: an empty list, create enabled, restore
        disabled. The first load is a separate event, as the window starts
        it from a timer. */
    constructor (isRoot: bool)
      ensures this.isRoot == isRoot && Valid() && Guarded()
      ensures items == [] && current.None?
      ensures createEnabled && !restoreEnabled
      ensures status == AwaitingUserAction
      ensures launched == [] && commandsRunning == 0 && listsRunning == 0
    {
      this.isRoot := isRoot;
      items := [];
      current := None;
      createEnabled := true;
      restoreEnabled := false;
      status := AwaitingUserAction;
      launched := [];
      commandsRunning := 0;
      listsRunning := 0;
      reported := [];
    }

    /** handleRestoreButtonState as written: restore is enabled exactly
        when the given item exists and can be selected, whether or not a
        command is running. */
    method HandleRestoreButtonStateAsWritten(item: Option<Item>)
      modifies this`restoreEnabled
      ensures restoreEnabled == RestoreAllowed(item)
    {
      restoreEnabled := RestoreAllowed(item);
    }

    /** handleRestoreButtonState, corrected: restore is enabled exactly
        when no command is running and the given item exists and can be
        selected. */
    method HandleRestoreButtonState(item: Option<Item>)
      modifies this`restoreEnabled
      ensures restoreEnabled == (commandsRunning == 0 && RestoreAllowed(item))
    {
      restoreEnabled := commandsRunning == 0 && RestoreAllowed(item);
    }

    /** The list's current entry changes (by the user, or to none): the
        change signal recomputes the restore button with the corrected
        handler; setting the same entry again signals nothing. */
    method SetCurrent(index: Option<nat>)
      requires Valid()
      requires index.Some? ==> index.value < |items|
      modifies this
      ensures Valid() && current == index
      ensures old(Guarded()) ==> Guarded()
      ensures index != old(current) ==> restoreEnabled == (commandsRunning == 0 && RestoreAllowed(CurrentItem()))
      ensures index == old(current) ==> restoreEnabled == old(restoreEnabled)
      ensures items == old(items) && createEnabled == old(createEnabled) && status == old(status)
      ensures launched == old(launched) && commandsRunning == old(commandsRunning)
      ensures listsRunning == old(listsRunning) && reported == old(reported)
    {
      if index != current {
        current := index;
        HandleRestoreButtonState(CurrentItem());
      }
    }

    /** The current entry changes, with the handler as written: a changed
        entry recomputes restore from the entry alone. */
    method SetCurrentAsWritten(index: Option<nat>)
      requires Valid()
      requires index.Some? ==> index.value < |items|
      modifies this
      ensures Valid() && current == index
      ensures index != old(current) ==> restoreEnabled == RestoreAllowed(CurrentItem())
      ensures index == old(current) ==> restoreEnabled == old(restoreEnabled)
      ensures items == old(items) && createEnabled == old(createEnabled) && status == old(status)
      ensures launched == old(launched) && commandsRunning == old(commandsRunning)
      ensures listsRunning == old(listsRunning) && reported == old(reported)
    {
      if index != current {
        current := index;
        HandleRestoreButtonStateAsWritten(CurrentItem());
      }
    }

    /** loadSnapshots: without root rights only the status bar changes.
        Otherwise the list is cleared (its current entry going to none,
        which disables restore) and the list command is started. */
    method LoadSnapshots()
      requires Valid()
      modifies this
      ensures Valid() && (old(Guarded()) ==> Guarded())
      ensures !isRoot ==> status == NotRootCannotLoad
      ensures !isRoot ==> items == old(items) && current == old(current) && restoreEnabled == old(restoreEnabled)
      ensures !isRoot ==> launched == old(launched) && listsRunning == old(listsRunning)
      ensures isRoot ==> status == LoadingSnapshots && items == [] && current.None? && !restoreEnabled
      ensures isRoot ==> launched == old(launched) + [["list"]] && listsRunning == old(listsRunning) + 1
      ensures createEnabled == old(createEnabled) && commandsRunning == old(commandsRunning)
      ensures reported == old(reported)
    {
      if !isRoot {
        status := NotRootCannotLoad;
        return;
      }
      status := LoadingSnapshots;
      SetCurrent(None);
      items := [];
      launched := launched + [["list"]];
      listsRunning := listsRunning + 1;
    }

    /** The list command finishes: on success its output's entries are
        added to the list (or the placeholder) and the status bar counts
        them; otherwise the list is left as it is. */
    method ListFinished(exit: ExitStatus, code: int, stdout: string)
      requires Valid() && listsRunning > 0
      modifies this
      ensures Valid() && listsRunning == old(listsRunning) - 1
      ensures Succeeded(exit, code) ==> items == old(items) + ListedItems(stdout)
      ensures Succeeded(exit, code) ==>
        status == (var n := |SnapshotIds(stdout)|; if n == 0 then NoSnapshotsFound else LoadedSnapshots(n))
      ensures Succeeded(exit, code) ==> reported == old(reported) + SnapshotIds(stdout)
      ensures !Succeeded(exit, code) ==> items == old(items) && status == FailedToLoad
      ensures !Succeeded(exit, code) ==> reported == old(reported)
      ensures current == old(current) && createEnabled == old(createEnabled)
      ensures restoreEnabled == old(restoreEnabled)
      ensures launched == old(launched) && commandsRunning == old(commandsRunning)
    {
      listsRunning := listsRunning - 1;
      if exit == NormalExit && code == 0 {
        ShowListing(SnapshotIds(stdout), ListedItems(stdout));
      } else {
        status := FailedToLoad;
      }
    }

    /** The successful branch of the list command's handler: the entries
        are appended and the status bar counts the ids, or says there are
        none. */
    method ShowListing(ids: seq<string>, added: seq<Item>)
      requires Valid()
      requires forall j :: 0 <= j < |ids| ==> ListedId(ids[j])
      requires forall i :: 0 <= i < |added| && added[i].selectable ==> added[i].text in ids
      modifies this
      ensures Valid() && items == old(items) + added && reported == old(reported) + ids
      ensures status == (if |ids| == 0 then NoSnapshotsFound else LoadedSnapshots(|ids|))
      ensures current == old(current) && createEnabled == old(createEnabled)
      ensures restoreEnabled == old(restoreEnabled) && listsRunning == old(listsRunning)
      ensures launched == old(launched) && commandsRunning == old(commandsRunning)
    {
      AppendListed(items, reported, added, ids);
      var listed := items + added;
      assert current.Some? ==> current.value < |listed| && listed[current.value] == items[current.value];
      items := listed;
      reported := reported + ids;
      if |ids| == 0 {
        status := NoSnapshotsFound;
      } else {
        status := LoadedSnapshots(|ids|);
      }
    }

    /** runScriptCommand: without root rights nothing changes. Otherwise
        both action buttons are disabled and the script is started with
        the arguments. */
    method RunScriptCommand(arguments: seq<string>)
      requires Valid()
      modifies this
      ensures Valid()
      ensures !isRoot ==> unchanged(this)
      ensures isRoot ==> !createEnabled && !restoreEnabled && status == Executing(arguments)
      ensures isRoot ==> launched == old(launched) + [arguments] && commandsRunning == old(commandsRunning) + 1
      ensures items == old(items) && current == old(current) && listsRunning == old(listsRunning)
      ensures reported == old(reported)
    {
      if !isRoot {
        return;
      }
      status := Executing(arguments);
      createEnabled := false;
      restoreEnabled := false;
      launched := launched + [arguments];
      commandsRunning := commandsRunning + 1;
    }

    /** handleScriptOutput: the status bar reports success or the exit
        code. */
    method HandleScriptOutput(exit: ExitStatus, code: int)
      modifies this`status
      ensures status == (if Succeeded(exit, code) then OperationSuccessful else OperationFailed(code))
    {
      if exit == NormalExit && code == 0 {
        status := OperationSuccessful;
      } else {
        status := OperationFailed(code);
      }
    }

    /** A script command finishes: only on success is the list reloaded;
        then create is enabled and restore recomputed from the current
        entry with the corrected handler (as written,
        src/alpsnapgui.cpp:114 calls the one that ignores running
        commands; the two agree whenever Guarded holds). When it was the only command running, none runs now. */
    method CommandFinished(exit: ExitStatus, code: int)
      requires Valid() && commandsRunning > 0
      modifies this
      ensures Valid() && commandsRunning == old(commandsRunning) - 1
      ensures old(Guarded()) ==> Guarded() && commandsRunning == 0
      ensures createEnabled && restoreEnabled == (commandsRunning == 0 && RestoreAllowed(CurrentItem()))
      ensures Succeeded(exit, code) ==> status == LoadingSnapshots && items == [] && current.None?
      ensures Succeeded(exit, code) ==>
        launched == old(launched) + [["list"]] && listsRunning == old(listsRunning) + 1
      ensures !Succeeded(exit, code) ==> status == OperationFailed(code)
      ensures !Succeeded(exit, code) ==> items == old(items) && current == old(current)
      ensures !Succeeded(exit, code) ==> launched == old(launched) && listsRunning == old(listsRunning)
      ensures reported == old(reported)
    {
      commandsRunning := commandsRunning - 1;
      HandleScriptOutput(exit, code);
      if exit == NormalExit && code == 0 {
        LoadSnapshots();
      }
      createEnabled := true;
      HandleRestoreButtonState(CurrentItem());
    }

    /** createSnapshot, the create button's click: a click reaches it only
        while the button is enabled, and once confirmed the script's
        snapshot command is run. */
    method CreateSnapshot(confirmed: bool)
      requires Valid()
      modifies this
      ensures Valid() && (old(Guarded()) ==> Guarded())
      ensures !(old(createEnabled) && confirmed && isRoot) ==> unchanged(this)
      ensures old(createEnabled) && confirmed && isRoot ==> launched == old(launched) + [["snapshot"]]
      ensures old(createEnabled) && confirmed && isRoot ==>
        !createEnabled && !restoreEnabled && status == Executing(["snapshot"])
      ensures old(createEnabled) && confirmed && isRoot ==> commandsRunning == old(commandsRunning) + 1
      ensures items == old(items) && current == old(current) && listsRunning == old(listsRunning)
      ensures reported == old(reported)
    {
      if createEnabled && confirmed {
        RunScriptCommand(["snapshot"]);
      }
    }

    /** restoreSnapshot, the restore button's click: a click reaches it
        only while the button is enabled; with no current entry nothing
        happens; otherwise, once confirmed, the script's restore command is
        run with the entry's text as the snapshot id, which is an id the
        list command printed. */
    method RestoreSnapshot(confirmed: bool)
      requires Valid()
      modifies this
      ensures Valid() && (old(Guarded()) ==> Guarded())
      ensures !old(restoreEnabled) || old(current).None? || !(confirmed && isRoot) ==> unchanged(this)
      ensures old(restoreEnabled) && old(current).Some? && confirmed && isRoot ==>
        var sid := old(items[current.value].text);
        && launched == old(launched) + [["restore", sid]]
        && !createEnabled && !restoreEnabled && status == Executing(["restore", sid])
        && commandsRunning == old(commandsRunning) + 1
        && sid in reported && ListedId(sid)
      ensures items == old(items) && current == old(current) && listsRunning == old(listsRunning)
      ensures reported == old(reported)
    {
      if !restoreEnabled || current.None? {
        return;
      }
      var sid := items[current.value].text;
      if confirmed {
        RunScriptCommand(["restore", sid]);
      }
    }
  }

  /** As written, picking another entry while a command runs re-enables
      restore: the selection signal recomputes restore without regard to
      the running command. */
  method ReselectWhileRunning(stdout: string) returns (gui: AlpSnapGui)
    requires |SnapshotIds(stdout)| >= 2
    ensures fresh(gui) && gui.isRoot
    ensures gui.commandsRunning == 1 && !gui.createEnabled
    ensures gui.restoreEnabled && gui.current == Some(1)
    ensures gui.Valid() && !gui.Guarded()
  {
    gui := new AlpSnapGui(true);
    gui.LoadSnapshots();
    gui.ListFinished(NormalExit, 0, stdout);
    ListedItemsShape(stdout);
    gui.SetCurrent(Some(0));
    gui.RestoreSnapshot(true);
    gui.SetCurrentAsWritten(Some(1));
  }

  /** Continuing from the as-written selection: restore is clicked again,
      so two commands run; when one of them fails, the finish (which
      recomputes restore with the corrected handler) enables create while
      the other command still runs. */
  method OverlappingRestores(stdout: string) returns (gui: AlpSnapGui)
    requires |SnapshotIds(stdout)| >= 2
    ensures gui.commandsRunning == 1 && gui.createEnabled
    ensures gui.Valid() && !gui.Guarded()
  {
    gui := ReselectWhileRunning(stdout);
    gui.RestoreSnapshot(true);
    gui.CommandFinished(NormalExit, 1);
  }

  /** With the corrected handler, the same selection while the command
      runs leaves both buttons disabled. */
  method ReselectWhileRunningCorrected(stdout: string) returns (gui: AlpSnapGui)
    requires |SnapshotIds(stdout)| >= 2
    ensures gui.commandsRunning == 1 && !gui.createEnabled
    ensures !gui.restoreEnabled && gui.current == Some(1)
    ensures gui.Valid() && gui.Guarded()
  {
    gui := new AlpSnapGui(true);
    gui.LoadSnapshots();
    gui.ListFinished(NormalExit, 0, stdout);
    ListedItemsShape(stdout);
    gui.SetCurrent(Some(0));
    gui.RestoreSnapshot(true);
    gui.SetCurrent(Some(1));
  }
}
