# Error messages and the NFS driver's volume lifecycle, in Dafny

This project models two parts of the openstorage volume framework.

1. **The error taxonomy** (`api/errors/errors.go`). The framework has four structured errors: not-found, already-exists,
   not-supported, and a resize already in progress on a storage pool. Each renders a fixed message from its fields.
   The resize message appends the pool's last operation, with its message and parameters, only when that operation
   is itself a resize. Module `Errors` (errors.dfy) defines these messages as functions over datatypes. It proves
   that each message names its fields, and that a field can be read back out of its message. It also proves that
   messages tell the kinds apart, except for a resize message with an appended operation. That message's free text
   can reproduce any other message: for example, a resize for pool "u" whose operation has message "m" and
   parameters "with ID: i not found" renders the same text as a not-found error with ID "i" and type
   "a resize for pool: u is already in progress. m".
2. **The NFS reference driver** (`drivers/nfs/nfs.go`). The driver keeps one record per volume in a key-value store
   under `OpenStorageNFSKey/<volume id>`. The record holds the spec, the formatted, attached and mounted flags, the
   device directory and the mount path. `Create` runs uuidgen, creates the volume's directory and then puts a new
   record. `Mount`, `Unmount` and `Delete` each get the record and perform an OS effect. Then `Mount` and `Unmount`
   write back the changed record, and `Delete` drops it. Module `Nfs` (nfs.dfy) has two layers:
   - class `NfsDriver` holds the server, the local mount point and the store (a `map`). Its methods perform the same
     sequence of store calls and effects as the driver.
   - each method is proved equal to a pure step function on the store (`CreateStep`, `MountStep`, `UnmountStep`,
     `DeleteStep`). Those functions state exactly which entry changes, to what, and that nothing else changes.
     Lemmas about them prove the store invariants and a full create/mount/unmount/delete round trip.

The OS effects are inputs to the model:
- the output of `uuidgen` is an `Option<string>`, where `None` means the command failed;
- `MkdirAll`, `Remove`, `Mount` and `Unmount` are functions from their paths to success or failure.

So a contract can say which path an effect was asked for. For example, `Unmount` unmounts the recorded mount path,
not its argument. Helper modules: `Wrappers` (Option/Result/Outcome) and `Strings` (prefix, suffix, substring, and
Go's `strings.TrimSuffix`).

One lifecycle invariant one might expect, that a mounted volume is also attached, does not hold for this driver.
The driver never sets `attached` (`Nfs.NeverAttachedPreserved`, `Nfs.LifecycleRoundTrip`). Also, the device
directory is `mntPath + id` with no separator. It therefore lies beside the NFS mount point, not inside it, unless the id starts with "/"
(`Nfs.DeviceBelowMountPoint`).

## Model

| member | source | states |
|---|---|---|
| `Errors.Message` | api/errors/errors.go:34-38 | only the not-supported error renders "Not Supported"; every other kind's message differs from it |
| `Errors.NotFoundMessageMentions` | api/errors/errors.go:17-19 | the not-found message contains the type and the ID, ends with " not found", and the ID can be read back from it for a known type |
| `Errors.ExistsMessageMentions` | api/errors/errors.go:29-31 | the already-exists message contains the type and the ID, ends with " already exists", and the ID can be read back from it for a known type |
| `Errors.NotFoundIsNotExists` | api/errors/errors.go:17-31 | no not-found message equals any already-exists message, for any IDs and types (including the same ID and type) |
| `Errors.ResizeInProgressMessage` | api/errors/errors.go:47-57 | the message always starts with "a resize for pool: <uuid> is already in progress."; it is exactly that header iff the last operation is absent or not a resize; for a resize the header is followed by " " + Msg + " " + Params |
| `Errors.ResizeMessageMentions` | api/errors/errors.go:47-57 | the resize message contains the pool uuid, and when the last operation is a resize, also its Msg and its Params |
| `Errors.MessageDeterminesKind` | api/errors/errors.go:17-57 | two errors with equal messages are of the same kind (resize messages with an appended operation excepted); for one type the message fixes the ID, and a plain resize message fixes the pool uuid |
| `Strings.TrimSuffix` | drivers/nfs/nfs.go:109-110 | the result plus one copy of the suffix gives back the input when the input ends with the suffix; otherwise the input is returned unchanged |
| `Nfs.VolumeIdOf` | drivers/nfs/nfs.go:109-110 | the volume id is uuidgen's output without one trailing newline: the id plus "\n" gives back the output when it ends in a newline, and otherwise the id is the output itself |
| `Nfs.VolumeIdOfLine` | drivers/nfs/nfs.go:109-110 | an output line of uuidgen, id + "\n", yields exactly that id |
| `Nfs.MntPathOf` | drivers/nfs/nfs.go:56-61 | the driver's mount point starts with "/mnt/" and continues with uuidgen's output without its trailing newline |
| `Errors.NotFoundMessage` | api/errors/errors.go:17-19 | the not-found message is 20 characters longer than type and ID together, and the ID is read back from it, given the type |
| `Errors.ExistsMessage` | api/errors/errors.go:29-31 | the already-exists message is 25 characters longer than type and ID together, and the ID is read back from it, given the type |
| `Errors.ResizeHeader` | api/errors/errors.go:48 | the resize header is 43 characters longer than the uuid, and the uuid is read back from between "a resize for pool: " and " is already in progress." |
| `Nfs.Key` | drivers/nfs/nfs.go:84 | a volume's store key starts with "OpenStorageNFSKey/", and the volume id is read back from it |
| `Nfs.Lookup` | drivers/nfs/nfs.go:82-87 | `get` succeeds iff a record is stored under the volume's key, and then returns that record; otherwise it fails with the not-found error naming that key |
| `Nfs.NewVolume` | drivers/nfs/nfs.go:120 | a created record keeps the given spec, has the device mntPath + id, is neither formatted, attached nor mounted, and has an empty mountpath |
| `Nfs.KeyRoundTrip` | drivers/nfs/nfs.go:82-98 | `get`, `put` and `del` use the key "OpenStorageNFSKey/" + id; the id is recovered from the key, and only that id's key maps back to it |
| `Nfs.KeyInjective` | drivers/nfs/nfs.go:82-98 | two volumes share a store key iff they are the same volume |
| `Nfs.LookupAfterPut` | drivers/nfs/nfs.go:82-93 | after `put` of a record for one volume, `get` of that volume returns the record and `get` of any other volume returns what it did before |
| `Nfs.LookupAfterDel` | drivers/nfs/nfs.go:82-98 | after `del` of one volume, `get` of it fails with the store's not-found error and `get` of any other volume is unaffected |
| `Nfs.NfsDriver.Get` | drivers/nfs/nfs.go:82-87 | returns the record stored under the volume's key, or the not-found error naming that key when there is none |
| `Nfs.NfsDriver.Put` | drivers/nfs/nfs.go:89-93 | the store afterwards is the old store with the volume's key set to the record, and no other key changed |
| `Nfs.NfsDriver.Del` | drivers/nfs/nfs.go:95-98 | the store afterwards is the old store without the volume's key; a missing key is not an error |
| `Nfs.CreateStep` | drivers/nfs/nfs.go:104-123 | uuidgen failure → UuidgenFailed; mkdir of mntPath + id failure → MkdirFailed; both leave the store unchanged. Otherwise Create returns the id (uuidgen output without its newline) and stores under its key a record with the given spec, device mntPath + id, all flags false and empty mountpath; no other key changes |
| `Nfs.NfsDriver.Create` | drivers/nfs/nfs.go:104-123 | the new store and the result are those of `CreateStep` on the old store |
| `Nfs.DeleteStep` | drivers/nfs/nfs.go:129-144 | missing record → not-found error; failure to remove the recorded device → RemoveFailed; both leave the store unchanged. Otherwise Delete succeeds (iff record present and removal succeeded) and drops exactly that volume's key |
| `Nfs.NfsDriver.Delete` | drivers/nfs/nfs.go:129-144 | the new store and the result are those of `DeleteStep` on the old store |
| `Nfs.MountStep` | drivers/nfs/nfs.go:174-190 | missing record → not-found error with store unchanged. A failed mount of the recorded device at the path with the spec's format leaves the store unchanged. Otherwise (iff record present and mount succeeds) mounted becomes true and mountpath the requested path; spec, device, formatted and attached keep their values; no other key changes |
| `Nfs.NfsDriver.Mount` | drivers/nfs/nfs.go:174-190 | the new store and the result are those of `MountStep` on the old store |
| `Nfs.UnmountStep` | drivers/nfs/nfs.go:192-208 | the path unmounted is the recorded mountpath, not the argument. Missing record or failed unmount leaves the store unchanged. On success mounted becomes false and mountpath ""; the other fields keep their values; no other key changes |
| `Nfs.NfsDriver.Unmount` | drivers/nfs/nfs.go:192-208 | the new store and the result are those of `UnmountStep` on the old store |
| `Nfs.InitStep` | drivers/nfs/nfs.go:44-80 | a missing "uri" parameter fails with NoServerUri before anything else; Init succeeds iff uri is given, uuidgen runs, mkdir of "/mnt/" + uuid succeeds and the server mounts there as tmpfs; the driver then uses that server and mount point |
| `Nfs.Init` | drivers/nfs/nfs.go:44-80 | fails with `InitStep`'s error, or returns a new driver whose server and mount point are `InitStep`'s and whose store is the given store |
| `Nfs.NfsDriver.constructor` | drivers/nfs/nfs.go:59-62 | the driver holds the given server, mount point and store |
| `Nfs.NfsDriver.Snapshot` | drivers/nfs/nfs.go:146-148 | always fails with NotSupported and reads no driver state |
| `Nfs.NfsDriver.SnapDelete` | drivers/nfs/nfs.go:150-152 | always fails with NotSupported and reads no driver state |
| `Nfs.NfsDriver.SnapInspect` | drivers/nfs/nfs.go:154-156 | always fails with NotSupported and reads no driver state |
| `Nfs.NfsDriver.Stats` | drivers/nfs/nfs.go:158-160 | always fails with NotSupported and reads no driver state |
| `Nfs.NfsDriver.Alerts` | drivers/nfs/nfs.go:162-164 | always fails with NotSupported and reads no driver state |
| `Nfs.NfsDriver.Enumerate` | drivers/nfs/nfs.go:166-168 | always fails with NotSupported and reads no driver state |
| `Nfs.NfsDriver.SnapEnumerate` | drivers/nfs/nfs.go:170-172 | always fails with NotSupported and reads no driver state |
| `Nfs.DevicesUnderPreserved` | drivers/nfs/nfs.go:104-144 | whatever the OS does, Create, Mount, Unmount and Delete keep every record's device equal to mntPath + its volume id |
| `Nfs.NeverAttachedPreserved` | drivers/nfs/nfs.go:27-34 | no operation of the driver sets formatted or attached: a store without such records keeps none |
| `Nfs.MountedHasPathPreserved` | drivers/nfs/nfs.go:174-208 | "mounted implies a non-empty mountpath" is kept by Create, Unmount and Delete, and by Mount when the requested path is not empty |
| `Nfs.MountAtEmptyPath` | drivers/nfs/nfs.go:174-190 | Mount does not check the requested path: if the OS accepts "", the record is mounted with an empty mountpath |
| `Nfs.DeviceBelowMountPoint` | drivers/nfs/nfs.go:113-120 | the device mntPath + id lies below mntPath + "/" iff the id starts with "/" (there is no separator) |
| `Nfs.DeleteIsFinal` | drivers/nfs/nfs.go:129-144 | after a successful Delete, Mount, Unmount and Delete of that volume fail with the not-found error and change nothing |
| `Nfs.NotFoundIffAbsent` | drivers/nfs/nfs.go:174-178 | Mount, Unmount and Delete fail with the store's not-found error iff no record is stored for the volume |
| `Nfs.LifecycleRoundTrip` | drivers/nfs/nfs.go:104-208 | Create, Mount, Unmount and Delete, all succeeding, return the store to its initial value when the new key was free; in between the record is mounted at the target (and not attached), then unmounted with an empty mountpath |

## Left out

- Running `uuidgen`, `os.MkdirAll`, `os.Remove`, `syscall.Mount` and `syscall.Unmount` is not modelled; their outcomes are inputs. The mount flags and data strings passed to `syscall.Mount`, and the unmount flags, are constants and not modelled.
- Volume-id uniqueness is not claimed, because nothing in the driver enforces it. If uuidgen repeats an id, `CreateStep` overwrites the existing record.
- Init calls `os.Remove` on the mount point after a failed server mount. The source ignores that call's result, and the model does not record the call.
- The key-value store is an in-memory map. Its connectivity errors are not modelled, so `put` never fails (the source propagates a failing `put` from Create, Mount and Unmount). `del` ignores the store's error, as the source does.
- The kvdb instance is process-wide and shared. Here each driver owns a map, initialised from the store's contents at Init.
- Value (de)serialisation of records is not modelled. The model assumes that `get` returns exactly the record that `put` stored; `LookupAfterPut` and the step functions rely on this. The kvdb code that serialises values is not part of this model.
- `Inspect` (which returns no volumes and no error), `String`, `Shutdown` (logging only) and the `init` registration hook are not modelled. The registry in the volume package is not part of this model.
- `Create` ignores its locator and create-options arguments, so the model leaves them out. A nil `spec` argument is not modelled.
- The driver stores the whole spec, but reads only its `Format` (in `Mount`). `VolumeSpec` keeps the size and the format; its other fields are not modelled.
- The capability stubs' accompanying zero values (empty slices, zero stats) are dropped, and their result types are simplified. The text of `volume.ErrNotSupported` is defined in the volume package, which is not part of this model.
- `fmt.Sprintf` is modelled as plain concatenation. The pool operation's `Params` is taken as its rendered text. The nil handling of `GetUuid` is not modelled.
- Logging, per-volume locking, concurrency and timeouts are not modelled; none of them is implemented in these files.
