/**
 * The monitor that watches a library's file for changes made by other programs.
 * The file system, the watch registry and the change scanner are outside the
 * model: the disk is a map from paths to contents passed to the operations that
 * read it, the registry keeps a set of (path, listener) registrations, and a
 * scan is an opaque list of changes handed to the completion handler.
 */
module Collab {
  import opened Wrappers

  type Path = string
  newtype byte = x: int | 0 <= x < 256
  type Content = seq<byte>

  /** The files on disk, by path; a path not in the map has no file. */
  type Disk = map<Path, Content>

  /** One difference found by the scanner; its payload is not examined here. */
  datatype Change = Change(id: nat)

  /** A party interested in change lists; two entries with the same id are the same listener. */
  datatype DatabaseChangeListener = DatabaseChangeListener(id: nat)

  /** One call `listener.databaseChanged(changes)`. */
  datatype Notification = Notification(listener: DatabaseChangeListener, changes: seq<Change>)

  /** Which step of the constructor's `try` block throws an `IOException`, if any. */
  datatype IoFailure = NoFailure | WatchFails | TempFileFails

  /** The library whose file is watched; its path may be absent (an unsaved library). */
  class BibDatabaseContext {
    var databasePath: Option<Path>

    constructor (path: Option<Path>)
      ensures databasePath == path
    {
      databasePath := path;
    }
  }

  /** The watch registry: which listeners are told when the file at a path changes. */
  class FileUpdateMonitor {
    var registrations: set<(Path, object)>

    constructor ()
      ensures registrations == {}
    {
      registrations := {};
    }

    /** The listeners whose `fileUpdated` runs when the file at `path` changes. */
    function ListenersFor(path: Path): set<object>
      reads this
    {
      set r | r in registrations && r.0 == path :: r.1
    }

    method AddListenerForFile(path: Path, listener: object)
      modifies this`registrations
      ensures registrations == old(registrations) + {(path, listener)}
      ensures listener in ListenersFor(path)
    {
      registrations := registrations + {(path, listener)};
    }

    method RemoveListener(path: Path, listener: object)
      modifies this`registrations
      ensures registrations == Unregistered(old(registrations), Some(path), listener)
      ensures listener !in ListenersFor(path)
    {
      registrations := registrations - {(path, listener)};
    }
  }

  // ---------------------------------------------------------------------------
  // Registrations.

  /** The registrations once `listener` stops watching `path`; with no path, nothing changes. */
  function Unregistered(registrations: set<(Path, object)>, path: Option<Path>, listener: object): (r: set<(Path, object)>)
  {
    match path
    case None => registrations
    case Some(p) => registrations - {(p, listener)}
  }

  /** Unregistering removes exactly the one registration and keeps every other. */
  lemma UnregisteredRemovesOnlyOne(registrations: set<(Path, object)>, p: Path, listener: object)
    ensures forall e :: e in Unregistered(registrations, Some(p), listener)
                      <==> e in registrations && e != (p, listener)
  {
  }

  /** Unregistering twice is the same as unregistering once. */
  lemma UnregisteredIdempotent(registrations: set<(Path, object)>, path: Option<Path>, listener: object)
    ensures Unregistered(Unregistered(registrations, path, listener), path, listener)
         == Unregistered(registrations, path, listener)
  {
  }

  // ---------------------------------------------------------------------------
  // The reference file.

  /**
   * The destination's content after `FileUtil.copyFile(source, destination, true)`:
   * the source's content, or the destination left as it was when there is no
   * source file to copy.
   */
  function CopyFile(disk: Disk, source: Path, destination: Content): Content
  {
    if source in disk then disk[source] else destination
  }

  /**
   * The reference after a checkpoint (`markAsSaved`): with a path and a reference
   * file, the reference file receives the path's content; otherwise nothing changes.
   */
  function Checkpoint(reference: Option<Content>, path: Option<Path>, disk: Disk): Option<Content>
  {
    match path
    case None => reference
    case Some(p) =>
      match reference
      case None => None
      case Some(c) => Some(CopyFile(disk, p, c))
  }

  /** After a checkpoint the reference equals the file on disk. */
  lemma CheckpointCopiesDisk(reference: Option<Content>, p: Path, disk: Disk)
    requires reference.Some? && p in disk
    ensures Checkpoint(reference, Some(p), disk) == Some(disk[p])
  {
  }

  /** The old reference is overwritten wholesale: it does not influence the new one. */
  lemma CheckpointForgetsOldReference(c: Content, c': Content, p: Path, disk: Disk)
    requires p in disk
    ensures Checkpoint(Some(c), Some(p), disk) == Checkpoint(Some(c'), Some(p), disk)
  {
  }

  /** With the disk unchanged, a second checkpoint changes nothing. */
  lemma CheckpointIdempotent(reference: Option<Content>, path: Option<Path>, disk: Disk)
    ensures Checkpoint(Checkpoint(reference, path, disk), path, disk) == Checkpoint(reference, path, disk)
  {
  }

  // ---------------------------------------------------------------------------
  // Notifying listeners.

  /** One call per listener, in registration order, each with the whole change list. */
  function Deliveries(listeners: seq<DatabaseChangeListener>, changes: seq<Change>): seq<Notification>
  {
    if listeners == [] then []
    else [Notification(listeners[0], changes)] + Deliveries(listeners[1..], changes)
  }

  /** The calls made when a scan succeeds: none for an empty change list. */
  function Notifications(listeners: seq<DatabaseChangeListener>, changes: seq<Change>): seq<Notification>
  {
    if changes == [] then [] else Deliveries(listeners, changes)
  }

  lemma {:induction false} DeliveriesAppend(listeners: seq<DatabaseChangeListener>, l: DatabaseChangeListener, changes: seq<Change>)
    ensures Deliveries(listeners + [l], changes) == Deliveries(listeners, changes) + [Notification(l, changes)]
  {
    if listeners != [] {
      assert (listeners + [l])[1..] == listeners[1..] + [l];
      DeliveriesAppend(listeners[1..], l, changes);
    }
  }

  /** The i-th call goes to the i-th listener and carries the whole list. */
  lemma {:induction false} DeliveriesInOrder(listeners: seq<DatabaseChangeListener>, changes: seq<Change>)
    ensures |Deliveries(listeners, changes)| == |listeners|
    ensures forall i :: 0 <= i < |listeners| ==>
      Deliveries(listeners, changes)[i] == Notification(listeners[i], changes)
  {
    if listeners != [] {
      DeliveriesInOrder(listeners[1..], changes);
    }
  }

  /**
   * An empty change list notifies nobody; a non-empty one notifies every listener
   * exactly once, in registration order, duplicates included, with the full list.
   */
  lemma NotificationsEachListenerOnce(listeners: seq<DatabaseChangeListener>, changes: seq<Change>)
    ensures changes == [] ==> Notifications(listeners, changes) == []
    ensures changes != [] ==>
      && |Notifications(listeners, changes)| == |listeners|
      && forall i :: 0 <= i < |listeners| ==>
           Notifications(listeners, changes)[i] == Notification(listeners[i], changes)
  {
    DeliveriesInOrder(listeners, changes);
  }

  // ---------------------------------------------------------------------------

  class DatabaseChangeMonitor {
    const database: BibDatabaseContext
    const fileMonitor: FileUpdateMonitor
    var listeners: seq<DatabaseChangeListener>
    /** The reference file: `None` while none was created, else its content. */
    var referenceFile: Option<Content>

    /**
     * With no path the monitor is inert. With a path it registers itself for the
     * path, creates an empty reference file and copies the path's content into
     * it; an `IOException` on registration or on creating the file ends these
     * steps early, is swallowed, and keeps whatever was already done.
     */
    constructor (database: BibDatabaseContext, fileMonitor: FileUpdateMonitor, disk: Disk, failure: IoFailure)
      modifies fileMonitor
      ensures this.database == database && this.fileMonitor == fileMonitor
      ensures listeners == []
      ensures database.databasePath.None? ==>
        && fileMonitor.registrations == old(fileMonitor.registrations)
        && referenceFile == None
      ensures database.databasePath.Some? ==>
        var p := database.databasePath.value;
        && fileMonitor.registrations
             == old(fileMonitor.registrations) + (if failure == WatchFails then {} else {(p, this as object)})
        && referenceFile == (if failure == NoFailure then Some(CopyFile(disk, p, [])) else None)
    {
      this.database := database;
      this.fileMonitor := fileMonitor;
      listeners := [];
      referenceFile := None;
      new;
      match database.databasePath
      case None =>
      case Some(p) =>
        if failure != WatchFails {
          fileMonitor.AddListenerForFile(p, this);
          if failure != TempFileFails {
            referenceFile := Some([]);
            SetAsReference(p, disk);
          }
        }
    }

    /**
     * The success continuation of the scan started by `fileUpdated`: a non-empty
     * change list goes to every listener in turn.
     */
    method OnScanSucceeded(changes: seq<Change>) returns (calls: seq<Notification>)
      ensures calls == Notifications(listeners, changes)
    {
      calls := [];
      if changes != [] {
        for i := 0 to |listeners|
          invariant calls == Deliveries(listeners[..i], changes)
        {
          DeliveriesAppend(listeners[..i], listeners[i], changes);
          assert listeners[..i + 1] == listeners[..i] + [listeners[i]];
          calls := calls + [Notification(listeners[i], changes)];
        }
        assert listeners[..|listeners|] == listeners;
      }
    }

    /**
     * `fileUpdated`: the scan's outcome is `None` when it failed, which never
     * reaches the continuation. Nothing here writes the monitor's state: a scan
     * never moves the reference.
     */
    method FileUpdated(scan: Option<seq<Change>>) returns (calls: seq<Notification>)
      ensures scan.None? ==> calls == []
      ensures scan.Some? ==> calls == Notifications(listeners, scan.value)
    {
      calls := [];
      if scan.Some? {
        calls := OnScanSucceeded(scan.value);
      }
    }

    method AddListener(listener: DatabaseChangeListener)
      modifies this`listeners
      ensures listeners == old(listeners) + [listener]
    {
      listeners := listeners + [listener];
    }

    /** Removes this monitor's registration for the library's current path, if it has one. */
    method Unregister()
      modifies fileMonitor`registrations
      ensures fileMonitor.registrations == Unregistered(old(fileMonitor.registrations), database.databasePath, this)
      ensures database.databasePath.Some? ==> this !in fileMonitor.ListenersFor(database.databasePath.value)
    {
      match database.databasePath
      case None =>
      case Some(file) =>
        fileMonitor.RemoveListener(file, this);
    }

    method MarkExternalChangesAsResolved(disk: Disk)
      modifies this`referenceFile
      ensures referenceFile == Checkpoint(old(referenceFile), database.databasePath, disk)
    {
      MarkAsSaved(disk);
    }

    /** Takes the library's current file content as the new reference. */
    method MarkAsSaved(disk: Disk)
      modifies this`referenceFile
      ensures referenceFile == Checkpoint(old(referenceFile), database.databasePath, disk)
    {
      match database.databasePath
      case None =>
      case Some(p) =>
        SetAsReference(p, disk);
    }

    method SetAsReference(file: Path, disk: Disk)
      modifies this`referenceFile
      ensures referenceFile == Checkpoint(old(referenceFile), Some(file), disk)
    {
      match referenceFile
      case None =>
      case Some(c) =>
        referenceFile := Some(CopyFile(disk, file, c));
    }
  }

  /**
   * A library at path "a.bib" monitored by one listener registered twice: a scan
   * finding one change notifies it twice, the reference follows a checkpoint,
   * and unregistering twice leaves the registry as unregistering once did.
   */
  method MonitorScenario()
  {
    var file: Path := "a.bib";
    var database := new BibDatabaseContext(Some(file));
    var registry := new FileUpdateMonitor();
    var monitor := new DatabaseChangeMonitor(database, registry, map[file := [1, 2]], NoFailure);
    assert monitor.referenceFile == Some([1, 2]);
    assert monitor in registry.ListenersFor(file);

    var l := DatabaseChangeListener(7);
    monitor.AddListener(l);
    monitor.AddListener(l);
    var calls := monitor.FileUpdated(Some([Change(0)]));
    NotificationsEachListenerOnce(monitor.listeners, [Change(0)]);
    assert calls == [Notification(l, [Change(0)]), Notification(l, [Change(0)])];
    calls := monitor.FileUpdated(Some([]));
    assert calls == [];
    calls := monitor.FileUpdated(None);
    assert calls == [];
    assert monitor.referenceFile == Some([1, 2]);

    monitor.MarkExternalChangesAsResolved(map[file := [3]]);
    assert monitor.referenceFile == Some([3]);

    monitor.Unregister();
    var once := registry.registrations;
    assert monitor !in registry.ListenersFor(file);
    monitor.Unregister();
    assert registry.registrations == once;
    assert monitor.listeners == [l, l] && monitor.referenceFile == Some([3]);
  }
}
