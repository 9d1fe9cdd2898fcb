# JabRef shared-database types and external-change monitor, in Dafny

This project models two small parts of JabRef.

- **`DBMSType`** (module `DatabaseShared`, file `dbms_type.dfy`) is the table of
  database systems a shared library can live in: MySQL, Oracle and PostgreSQL.
  Each has a display name, a JDBC driver class, a connection-URL pattern and a
  default port. The module also models `fromString`, the case-insensitive parse
  from a name. The URL patterns are kept as the literal strings of the source.
  `String.format` is modelled for the `%s` and `%d` slots those patterns use.
  Java's `int` is the newtype `int32`, and Java's `null` name is `None`.
- **`DatabaseChangeMonitor`** (module `Collab`, file `database_change_monitor.dfy`)
  watches a library's `.bib` file for edits made by other programs. It keeps a
  reference copy of the file and notifies its listeners when a scan finds
  changes. It is a class with a listener sequence and a reference-file field.
  Its collaborators are modelled abstractly:
  - the disk is a `map<Path, Content>` passed to the operations that read it;
  - the watch registry `FileUpdateMonitor` is a set of (path, listener) registrations;
  - a scan is an opaque `seq<Change>`, or `None` when the scan failed;
  - each `listener.databaseChanged(changes)` call is returned as a `Notification`,
    in call order.

`BibDatabaseContext.databasePath` is a mutable field. The monitor reads it afresh
on every call, as the source does. So `Unregister` removes the registration for
the library's *current* path.

`Option` lives in `wrappers.dfy`.

Consequences of the code as written:
- In `DatabaseChangeMonitor.java`, `onSuccess` (lines 51-55) has no guard for an unregistered monitor. A scan that
  completes after `unregister` still notifies the listeners. Unregistering only stops
  the registry from calling `fileUpdated` on the monitor (`FileUpdateMonitor.ListenersFor`).
- A registration can exist without a reference file. If creating the temporary file
  fails, the registration made at line 36 stays, and `referenceFile` stays null.
- `unregister` leaves the reference file and the listener list as they are.

## Model

| member | source | states |
|---|---|---|
| `DatabaseShared.ToStringUpperCase` | src/main/java/org/jabref/model/database/shared/DBMSType.java:11-13 | the display name of each variant upper-cases to the identifier of its enum constant |
| `DatabaseShared.ToString` | src/main/java/org/jabref/model/database/shared/DBMSType.java:27-30 | the display name of each variant (`MySQL`, `Oracle`, `PostgreSQL`); its upper-case form is stated by `ToStringUpperCase` |
| `DatabaseShared.DriverClassPath` | src/main/java/org/jabref/model/database/shared/DBMSType.java:35-37 | the JDBC driver class of each variant; distinctness is stated by `DriverClassPathsDistinct` |
| `DatabaseShared.UrlPattern` | src/main/java/org/jabref/model/database/shared/DBMSType.java:11-13 | each variant's pattern is its prefix, then `%s:%d`, then its one-character separator, then `%s` |
| `DatabaseShared.DefaultPort` | src/main/java/org/jabref/model/database/shared/DBMSType.java:49-51 | every default port (3306, 1521, 5432) is a valid TCP port, 1 to 65535 |
| `DatabaseShared.DefaultPortsDistinct` | src/main/java/org/jabref/model/database/shared/DBMSType.java:11-13 | distinct variants have distinct default ports |
| `DatabaseShared.DriverClassPathsDistinct` | src/main/java/org/jabref/model/database/shared/DBMSType.java:35-37 | distinct variants have distinct JDBC driver classes |
| `DatabaseShared.ToUpper` | src/main/java/org/jabref/model/database/shared/DBMSType.java:58 | `toUpperCase(Locale.ENGLISH)` over ASCII: the result has no lower-case letter and equals the name ignoring case |
| `DatabaseShared.ValueOf` | src/main/java/org/jabref/model/database/shared/DBMSType.java:58-61 | `Enum.valueOf` finds a constant whose identifier is exactly the name, and gives `None` (the caught `IllegalArgumentException`) only when no constant has it |
| `DatabaseShared.ConstantNamesDistinct` | src/main/java/org/jabref/model/database/shared/DBMSType.java:11-13 | the three constant identifiers are distinct |
| `DatabaseShared.ValueOfAllValues` | src/main/java/org/jabref/model/database/shared/DBMSType.java:58 | the lookup among all constants gives variant t if and only if the name is t's identifier |
| `DatabaseShared.FromString` | src/main/java/org/jabref/model/database/shared/DBMSType.java:53-64 | a null name gives `None`; otherwise the result is `Some(t)` if and only if the upper-cased name is t's identifier, and `None` for every other name; it never fails |
| `DatabaseShared.FromStringToString` | src/main/java/org/jabref/model/database/shared/DBMSType.java:53-58 | parsing a variant's display name gives that variant back |
| `DatabaseShared.FromStringIgnoresCase` | src/main/java/org/jabref/model/database/shared/DBMSType.java:58 | a name parses to t if and only if it equals t's display name ignoring case |
| `DatabaseShared.FromStringRejectsOthers` | src/main/java/org/jabref/model/database/shared/DBMSType.java:59-61 | a name equal to no display name in any casing gives `None` |
| `DatabaseShared.Digits` | src/main/java/org/jabref/model/database/shared/DBMSType.java:43 | the digits of a natural number: non-empty, decimal digits only, no leading zero, and they read back (`DigitsValue`) as the number |
| `DatabaseShared.Decimal` | src/main/java/org/jabref/model/database/shared/DBMSType.java:43 | `%d` of an integer: a leading minus sign exactly when it is negative, then the digits of its magnitude; it reads back (`DecimalValue`) as the integer |
| `DatabaseShared.DecimalExample` | src/main/java/org/jabref/model/database/shared/DBMSType.java:11 | the default MySQL port renders as `3306` |
| `DatabaseShared.Format` | src/main/java/org/jabref/model/database/shared/DBMSType.java:43 | `String.format` for `%s` and `%d` slots; its behaviour is stated by `FormatText`, `FormatString` and `FormatInt` |
| `DatabaseShared.FormatText` | src/main/java/org/jabref/model/database/shared/DBMSType.java:43 | pattern text without `%` is copied to the output unchanged |
| `DatabaseShared.FormatString` | src/main/java/org/jabref/model/database/shared/DBMSType.java:43 | a `%s` slot is replaced by the next string argument verbatim |
| `DatabaseShared.FormatInt` | src/main/java/org/jabref/model/database/shared/DBMSType.java:43 | a `%d` slot is replaced by the next integer argument in decimal |
| `DatabaseShared.FormatDatabaseSlot` | src/main/java/org/jabref/model/database/shared/DBMSType.java:43 | a one-character separator followed by `%s` gives the separator and then the database name |
| `DatabaseShared.FormatPortSlots` | src/main/java/org/jabref/model/database/shared/DBMSType.java:43 | the slots after the host give `:`, the port in decimal, the separator and the database name |
| `DatabaseShared.FormatUrlShape` | src/main/java/org/jabref/model/database/shared/DBMSType.java:11-13 | formatting a `prefix%s:%d?%s` pattern never fails and gives prefix, host, `:`, port, separator and database in that order |
| `DatabaseShared.GetUrl` | src/main/java/org/jabref/model/database/shared/DBMSType.java:42-44 | `String.format(urlPattern, host, port, database)` succeeds and equals `jdbc:mariadb://h:p/d`, `jdbc:oracle:thin:@h:p:d` or `jdbc:postgresql://h:p/d` |
| `DatabaseShared.UrlContainsHostAndDatabase` | src/main/java/org/jabref/model/database/shared/DBMSType.java:11-13 | the URL starts with the variant's prefix, holds the host verbatim right after it and ends with the database name |
| `DatabaseShared.GetUrlDefaultMySql` | src/main/java/org/jabref/model/database/shared/DBMSType.java:11 | a MySQL URL on the default port is `jdbc:mariadb://host:3306/database` |
| `DatabaseShared.UrlsOfDistinctVariantsDiffer` | src/main/java/org/jabref/model/database/shared/DBMSType.java:11-13 | URLs of distinct variants differ, whatever their hosts, ports and databases |
| `Collab.FileUpdateMonitor.AddListenerForFile` | src/main/java/org/jabref/gui/collab/DatabaseChangeMonitor.java:36 | registering adds exactly the (path, listener) pair, after which the listener is among those told of changes to the path |
| `Collab.FileUpdateMonitor.RemoveListener` | src/main/java/org/jabref/gui/collab/DatabaseChangeMonitor.java:64 | removing takes out exactly that pair, after which the listener is no longer told of changes to the path |
| `Collab.Unregistered` | src/main/java/org/jabref/gui/collab/DatabaseChangeMonitor.java:64 | the registrations after `removeListener(path, this)` for the current path; with no path, unchanged; stated by the two lemmas below |
| `Collab.UnregisteredRemovesOnlyOne` | src/main/java/org/jabref/gui/collab/DatabaseChangeMonitor.java:64 | unregistering removes the monitor's registration for the path and keeps every other registration |
| `Collab.UnregisteredIdempotent` | src/main/java/org/jabref/gui/collab/DatabaseChangeMonitor.java:63-65 | unregistering twice leaves the registry as unregistering once |
| `Collab.CopyFile` | src/main/java/org/jabref/gui/collab/DatabaseChangeMonitor.java:76 | the reference file's content after `FileUtil.copyFile(file, referenceFile, true)`: the file's content when it exists |
| `Collab.Checkpoint` | src/main/java/org/jabref/gui/collab/DatabaseChangeMonitor.java:71-77 | the reference after `markAsSaved`: with a path and a reference file, the copy above; otherwise unchanged; stated by the three lemmas below |
| `Collab.CheckpointCopiesDisk` | src/main/java/org/jabref/gui/collab/DatabaseChangeMonitor.java:75-77 | with a reference file and the library's file on disk, a checkpoint makes the reference equal to the disk content |
| `Collab.CheckpointForgetsOldReference` | src/main/java/org/jabref/gui/collab/DatabaseChangeMonitor.java:76 | the copy overwrites the reference wholesale, so the old reference does not affect the new one |
| `Collab.CheckpointIdempotent` | src/main/java/org/jabref/gui/collab/DatabaseChangeMonitor.java:71-77 | with the disk unchanged, a second checkpoint changes nothing |
| `Collab.Deliveries` | src/main/java/org/jabref/gui/collab/DatabaseChangeMonitor.java:53 | the calls of `listeners.forEach(listener -> listener.databaseChanged(changes))`, stated by `DeliveriesAppend` and `DeliveriesInOrder` |
| `Collab.Notifications` | src/main/java/org/jabref/gui/collab/DatabaseChangeMonitor.java:52-53 | no call for an empty change list, else the calls above; stated by `NotificationsEachListenerOnce` |
| `Collab.DeliveriesAppend` | src/main/java/org/jabref/gui/collab/DatabaseChangeMonitor.java:53 | one more listener adds exactly one call, at the end |
| `Collab.DeliveriesInOrder` | src/main/java/org/jabref/gui/collab/DatabaseChangeMonitor.java:53 | there is one call per listener, and the i-th call goes to the i-th listener with the whole list |
| `Collab.NotificationsEachListenerOnce` | src/main/java/org/jabref/gui/collab/DatabaseChangeMonitor.java:51-55 | an empty change list makes no call; a non-empty one calls each listener exactly once, duplicates included, in registration order, with the full list |
| `Collab.DatabaseChangeMonitor.constructor` | src/main/java/org/jabref/gui/collab/DatabaseChangeMonitor.java:28-44 | no listeners. With no path: no registration and no reference. With a path: the monitor is registered for it unless registration throws. The reference holds the disk content only when no I/O step throws. An `IOException` from creating the temporary file leaves the registration without a reference. The constructor never fails |
| `Collab.DatabaseChangeMonitor.OnScanSucceeded` | src/main/java/org/jabref/gui/collab/DatabaseChangeMonitor.java:51-55 | the calls made by the loop are exactly the notifications: none for an empty list, else each listener once in order |
| `Collab.DatabaseChangeMonitor.FileUpdated` | src/main/java/org/jabref/gui/collab/DatabaseChangeMonitor.java:46-57 | a failed scan notifies nobody, a successful one notifies as above; the monitor's state, the reference included, is not written |
| `Collab.DatabaseChangeMonitor.AddListener` | src/main/java/org/jabref/gui/collab/DatabaseChangeMonitor.java:59-61 | the listener is appended at the end and the earlier listeners are kept; duplicates are allowed |
| `Collab.DatabaseChangeMonitor.Unregister` | src/main/java/org/jabref/gui/collab/DatabaseChangeMonitor.java:63-65 | with a path, only the monitor's registration for that path is removed and the registry no longer calls it for the path. With no path, nothing changes. Listeners and reference are untouched |
| `Collab.DatabaseChangeMonitor.MarkExternalChangesAsResolved` | src/main/java/org/jabref/gui/collab/DatabaseChangeMonitor.java:67-69 | the same effect on the reference as `MarkAsSaved`, and nothing else changes |
| `Collab.DatabaseChangeMonitor.MarkAsSaved` | src/main/java/org/jabref/gui/collab/DatabaseChangeMonitor.java:71-73 | the reference becomes the checkpoint of the current path and disk; with no path nothing changes; listeners and registrations are untouched |
| `Collab.DatabaseChangeMonitor.SetAsReference` | src/main/java/org/jabref/gui/collab/DatabaseChangeMonitor.java:75-77 | the reference file receives the file's content; only the reference changes |

## Left out

- `DatabaseShared.ToUpper`: upper-cases ASCII letters only. Java's `toUpperCase(Locale.ENGLISH)` also maps other characters. For example, U+017F (long s) becomes `S`, so `"myſql"` parses to MySQL in Java but not in the model.
- `DatabaseShared.Format`: covers only `%s` and `%d`. Any other conversion, `%%` included, is reported as `None`. The three URL patterns use only these two.
- `DatabaseShared.Decimal`: writes ASCII digits, as Java does in English and root locales. `String.format` uses the default locale, which could supply other digits.
- Java `null` for host or database, which `%s` renders as `null`. Host and database are strings here.
- JDBC driver loading and connecting. The driver class is only a string here.
- `ChangeScanner.scanForChanges` and the semantic diff. A scan is an opaque list of `Change` values, or `None` for a failed scan.
- `BackgroundTask` and `TaskExecutor`. Only the success continuation is modelled, as the synchronous `OnScanSucceeded`.
- Threading between the watch thread and the UI thread.
- What `databaseChanged` does in each listener. A listener that calls `addListener` during the loop would make Java's `forEach` throw; that case is not modelled.
- Logging.
- `Files.createTempFile`, `deleteOnExit` and the temporary file's location. The reference file is modelled only by its content, and a new file is empty.
- `FileUtil.copyFile` is not part of this model. `CopyFile` assumes a missing source leaves the destination as it was.
- `Collab.Checkpoint`: when no reference file was created (a null `referenceFile`), the model leaves the state unchanged. What `FileUtil.copyFile` does with a null destination is not part of this model.
- `FileUpdateMonitor` internals, including operating-system watch events. The registry is a set of registrations, and registering the same pair twice is modelled as once.
- Whether `addListenerForFile` throws an `IOException` is left to the `failure` parameter. This is the registration exception the constructor's `catch` block would swallow.
