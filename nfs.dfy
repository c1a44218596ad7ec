/**
 * The NFS reference driver of drivers/nfs/nfs.go: volume records kept in a
 * key-value store under "OpenStorageNFSKey/<volume id>", and the
 * create / mount / unmount / delete transitions over that store.
 *
 * Every operating-system effect is an input: the output of `uuidgen` (None when
 * the command fails), and for mkdir, remove, mount and unmount a function that
 * says whether the call succeeds for the given paths.
 */
module Nfs {
  import opened Wrappers
  import opened Strings

  const NfsDBKey: string := "OpenStorageNFSKey"

  /** The parts of api.VolumeSpec the driver keeps; Mount reads the format. */
  datatype VolumeSpec = VolumeSpec(size: nat, format: string)

  /** The record persisted per volume (awsVolume in the driver). */
  datatype AwsVolume = AwsVolume(
    spec: VolumeSpec,
    formatted: bool,
    attached: bool,
    mounted: bool,
    device: string,
    mountpath: string)

  /** The contents of the key-value store. */
  type Store = map<string, AwsVolume>

  /** Errors the driver returns. */
  datatype DriverError =
    | KeyNotFound(key: string)                                 // the store has no value under key
    | UuidgenFailed                                            // running uuidgen failed
    | MkdirFailed(path: string)
    | RemoveFailed(path: string)
    | MountFailed(source: string, target: string, fsType: string)
    | UnmountFailed(target: string)
    | NoServerUri                                              // "No NFS server URI provided"
    | NotSupported                                             // volume.ErrNotSupported

  /** The store key of a volume. */
  function Key(volumeID: string): (k: string)
    ensures IsPrefix(NfsDBKey + "/", k)
    ensures VolumeIdOfKey(k) == Some(volumeID)
  {
    PrefixOfConcat(NfsDBKey + "/", volumeID);
    assert (NfsDBKey + "/" + volumeID)[|NfsDBKey| + 1..] == volumeID;
    NfsDBKey + "/" + volumeID
  }

  /** The volume a store key belongs to, if it is one of this driver's keys. */
  function VolumeIdOfKey(key: string): Option<string> {
    if IsPrefix(NfsDBKey + "/", key) then Some(key[|NfsDBKey| + 1..]) else None
  }

  /** Keys and volume ids correspond one to one. */
  lemma KeyRoundTrip(volumeID: string, key: string)
    ensures VolumeIdOfKey(Key(volumeID)) == Some(volumeID)
    ensures VolumeIdOfKey(key) == Some(volumeID) ==> Key(volumeID) == key
  {

  }

  lemma KeyInjective(a: string, b: string)
    ensures Key(a) == Key(b) <==> a == b
  {

  }

  /** What `get` reads: the stored record, or the store's not-found error. */
  function Lookup(s: Store, volumeID: string): (r: Result<AwsVolume, DriverError>)
    ensures r.Success? <==> Key(volumeID) in s
    ensures r.Success? ==> r.value == s[Key(volumeID)]
    ensures r.Failure? ==> r.error == KeyNotFound(Key(volumeID))
  {
    if Key(volumeID) in s then Success(s[Key(volumeID)]) else Failure(KeyNotFound(Key(volumeID)))
  }

  /** After a `put` for one volume, reads of every volume see the new record there and the old state elsewhere. */
  lemma LookupAfterPut(s: Store, a: string, v: AwsVolume, b: string)
    ensures Lookup(s[Key(a) := v], b) == if a == b then Success(v) else Lookup(s, b)
  {

  }

  /** After a `del` for one volume, reads of it fail and reads of every other volume are unaffected. */
  lemma LookupAfterDel(s: Store, a: string, b: string)
    ensures Lookup(s - {Key(a)}, b) == if a == b then Failure(KeyNotFound(Key(b))) else Lookup(s, b)
  {

  }

  /** `t` differs from `s` at most under `key`. */
  ghost predicate AgreeExcept(s: Store, t: Store, key: string) {
    forall k :: k != key ==> (k in s <==> k in t) && (k in s ==> s[k] == t[k])
  }

  /** The volume id Create takes from uuidgen's output: its text without the trailing newline. */
  function VolumeIdOf(uuidgenOutput: string): (id: string)
    ensures IsSuffix("\n", uuidgenOutput) ==> id + "\n" == uuidgenOutput
    ensures !IsSuffix("\n", uuidgenOutput) ==> id == uuidgenOutput
  {
    TrimSuffix(uuidgenOutput, "\n")
  }

  /** uuidgen's output line gives back the id it printed. */
  lemma VolumeIdOfLine(id: string)
    ensures VolumeIdOf(id + "\n") == id
  {

  }

  /** The record Create persists for a new volume. */
  function NewVolume(mntPath: string, volumeID: string, spec: VolumeSpec): (v: AwsVolume)
    ensures v.spec == spec && v.device == mntPath + volumeID
    ensures !v.formatted && !v.attached && !v.mounted && v.mountpath == ""
  {
    AwsVolume(spec, false, false, false, mntPath + volumeID, "")
  }

  /**
   * Create on the store `s`: name the volume after uuidgen's output, make its
   * directory mntPath + id, then store a fresh record under its key.
   */
  function CreateStep(s: Store, mntPath: string, spec: VolumeSpec, uuidgen: Option<string>, mkdirAll: string -> bool)
    : (r: (Store, Result<string, DriverError>))
    ensures uuidgen.None? ==> r == (s, Failure(UuidgenFailed))
    ensures uuidgen.Some? && !mkdirAll(mntPath + VolumeIdOf(uuidgen.value)) ==>
      r == (s, Failure(MkdirFailed(mntPath + VolumeIdOf(uuidgen.value))))
    ensures r.1.Success? <==> uuidgen.Some? && mkdirAll(mntPath + VolumeIdOf(uuidgen.value))
    ensures r.1.Success? ==>
      var id := r.1.value;
      && id == VolumeIdOf(uuidgen.value)
      && Key(id) in r.0 && AgreeExcept(s, r.0, Key(id))
      && var v := r.0[Key(id)];
      && v.spec == spec && v.device == mntPath + id
      && !v.formatted && !v.attached && !v.mounted && v.mountpath == ""
  {
    if uuidgen.None? then
      (s, Failure(UuidgenFailed))
    else
      var volumeID := VolumeIdOf(uuidgen.value);
      if !mkdirAll(mntPath + volumeID) then
        (s, Failure(MkdirFailed(mntPath + volumeID)))
      else
        (s[Key(volumeID) := NewVolume(mntPath, volumeID, spec)], Success(volumeID))
  }

  /**
   * Mount on the store `s`: mount the record's device at `mountpath` with the
   * spec's format, then record the volume as mounted there.
   */
  function MountStep(s: Store, volumeID: string, mountpath: string, mount: (string, string, string) -> bool)
    : (r: (Store, Outcome<DriverError>))
    ensures Key(volumeID) !in s ==> r == (s, Fail(KeyNotFound(Key(volumeID))))
    ensures r.1.Pass? <==>
      Key(volumeID) in s && mount(s[Key(volumeID)].device, mountpath, s[Key(volumeID)].spec.format)
    ensures r.1.Fail? ==> r.0 == s
    ensures r.1.Pass? ==>
      var old_ := s[Key(volumeID)];
      && Key(volumeID) in r.0 && AgreeExcept(s, r.0, Key(volumeID))
      && var v := r.0[Key(volumeID)];
      && v.mounted && v.mountpath == mountpath
      && v.spec == old_.spec && v.device == old_.device
      && v.formatted == old_.formatted && v.attached == old_.attached
  {
    match Lookup(s, volumeID)
    case Failure(e) => (s, Fail(e))
    case Success(v) =>
      if !mount(v.device, mountpath, v.spec.format) then
        (s, Fail(MountFailed(v.device, mountpath, v.spec.format)))
      else
        (s[Key(volumeID) := v.(mountpath := mountpath, mounted := true)], Pass)
  }

  /**
   * Unmount on the store `s`: unmount the mount path recorded for the volume
   * (the `mountpath` argument is not used), then record it as unmounted.
   */
  function UnmountStep(s: Store, volumeID: string, mountpath: string, unmount: string -> bool)
    : (r: (Store, Outcome<DriverError>))
    ensures Key(volumeID) !in s ==> r == (s, Fail(KeyNotFound(Key(volumeID))))
    ensures r.1.Pass? <==> Key(volumeID) in s && unmount(s[Key(volumeID)].mountpath)
    ensures r.1.Fail? ==> r.0 == s
    ensures r.1.Pass? ==>
      var old_ := s[Key(volumeID)];
      && Key(volumeID) in r.0 && AgreeExcept(s, r.0, Key(volumeID))
      && var v := r.0[Key(volumeID)];
      && !v.mounted && v.mountpath == ""
      && v.spec == old_.spec && v.device == old_.device
      && v.formatted == old_.formatted && v.attached == old_.attached
  {
    match Lookup(s, volumeID)
    case Failure(e) => (s, Fail(e))
    case Success(v) =>
      if !unmount(v.mountpath) then
        (s, Fail(UnmountFailed(v.mountpath)))
      else
        (s[Key(volumeID) := v.(mountpath := "", mounted := false)], Pass)
  }

  /** Delete on the store `s`: remove the record's device directory, then drop the record. */
  function DeleteStep(s: Store, volumeID: string, remove: string -> bool): (r: (Store, Outcome<DriverError>))
    ensures Key(volumeID) !in s ==> r == (s, Fail(KeyNotFound(Key(volumeID))))
    ensures r.1.Pass? <==> Key(volumeID) in s && remove(s[Key(volumeID)].device)
    ensures r.1.Fail? ==> r.0 == s
    ensures r.1.Pass? ==> Key(volumeID) !in r.0 && AgreeExcept(s, r.0, Key(volumeID))
  {
    match Lookup(s, volumeID)
    case Failure(e) => (s, Fail(e))
    case Success(v) =>
      if !remove(v.device) then (s, Fail(RemoveFailed(v.device))) else (s - {Key(volumeID)}, Pass)
  }

  /** The mount point Init picks for the server: /mnt/ followed by uuidgen's output without its newline. */
  function MntPathOf(uuidgenOutput: string): (p: string)
    ensures IsPrefix("/mnt/", p) && p[5..] == VolumeIdOf(uuidgenOutput)
  {
    PrefixOfConcat("/mnt/", VolumeIdOf(uuidgenOutput));
    "/mnt/" + TrimSuffix(uuidgenOutput, "\n")
  }

  /**
   * Init's checks and effects, in order: the "uri" parameter, uuidgen, creating
   * the mount point, mounting the server there. On success, the server and the
   * mount point of the new driver.
   */
  function InitStep(params: map<string, string>, uuidgen: Option<string>,
                    mkdirAll: string -> bool, mount: (string, string, string) -> bool)
    : (r: Result<(string, string), DriverError>)
    ensures "uri" !in params ==> r == Failure(NoServerUri)
    ensures "uri" in params && uuidgen.None? ==> r == Failure(UuidgenFailed)
    ensures r.Success? <==>
      && "uri" in params && uuidgen.Some?
      && mkdirAll(MntPathOf(uuidgen.value))
      && mount(params["uri"], MntPathOf(uuidgen.value), "tmpfs")
    ensures r.Success? ==> r.value == (params["uri"], MntPathOf(uuidgen.value))
  {
    if "uri" !in params then
      Failure(NoServerUri)
    else if uuidgen.None? then
      Failure(UuidgenFailed)
    else
      var uri, mntPath := params["uri"], MntPathOf(uuidgen.value);
      if !mkdirAll(mntPath) then
        Failure(MkdirFailed(mntPath))
      else if !mount(uri, mntPath, "tmpfs") then
        Failure(MountFailed(uri, mntPath, "tmpfs"))
      else
        Success((uri, mntPath))
  }

  /** Every record of this driver names as its device the directory mntPath + volume id. */
  ghost predicate DevicesUnder(s: Store, mntPath: string) {
    forall id :: Key(id) in s ==> s[Key(id)].device == mntPath + id
  }

  /** No record is formatted or attached: this driver never sets either flag. */
  ghost predicate NeverAttached(s: Store) {
    forall k :: k in s ==> !s[k].formatted && !s[k].attached
  }

  /** A record that says mounted also names where. */
  ghost predicate MountedHasPath(s: Store) {
    forall k :: k in s && s[k].mounted ==> s[k].mountpath != ""
  }

  /** Create, Mount, Unmount and Delete keep every device where Create put it, whatever the OS does. */
  lemma DevicesUnderPreserved(s: Store, mntPath: string, spec: VolumeSpec, uuidgen: Option<string>,
                              volumeID: string, mountpath: string, mkdirAll: string -> bool,
                              mount: (string, string, string) -> bool, unmount: string -> bool,
                              remove: string -> bool)
    requires DevicesUnder(s, mntPath)
    ensures DevicesUnder(CreateStep(s, mntPath, spec, uuidgen, mkdirAll).0, mntPath)
    ensures DevicesUnder(MountStep(s, volumeID, mountpath, mount).0, mntPath)
    ensures DevicesUnder(UnmountStep(s, volumeID, mountpath, unmount).0, mntPath)
    ensures DevicesUnder(DeleteStep(s, volumeID, remove).0, mntPath)
  {

  }

  /** Create, Mount, Unmount and Delete never set formatted or attached. */
  lemma NeverAttachedPreserved(s: Store, mntPath: string, spec: VolumeSpec, uuidgen: Option<string>,
                               volumeID: string, mountpath: string, mkdirAll: string -> bool,
                               mount: (string, string, string) -> bool, unmount: string -> bool,
                               remove: string -> bool)
    requires NeverAttached(s)
    ensures NeverAttached(CreateStep(s, mntPath, spec, uuidgen, mkdirAll).0)
    ensures NeverAttached(MountStep(s, volumeID, mountpath, mount).0)
    ensures NeverAttached(UnmountStep(s, volumeID, mountpath, unmount).0)
    ensures NeverAttached(DeleteStep(s, volumeID, remove).0)
  {
  }

  /**
   * A mounted record names its mount path, as long as Mount is never asked
   * to mount at the empty path.
   */
  lemma MountedHasPathPreserved(s: Store, mntPath: string, spec: VolumeSpec, uuidgen: Option<string>,
                                volumeID: string, mountpath: string, mkdirAll: string -> bool,
                                mount: (string, string, string) -> bool, unmount: string -> bool,
                                remove: string -> bool)
    requires MountedHasPath(s)
    ensures MountedHasPath(CreateStep(s, mntPath, spec, uuidgen, mkdirAll).0)
    ensures mountpath != "" ==> MountedHasPath(MountStep(s, volumeID, mountpath, mount).0)
    ensures MountedHasPath(UnmountStep(s, volumeID, mountpath, unmount).0)
    ensures MountedHasPath(DeleteStep(s, volumeID, remove).0)
  {
  }

  /** Mount may record a volume as mounted at the empty path when the OS accepts that target. */
  lemma MountAtEmptyPath(s: Store, volumeID: string, mount: (string, string, string) -> bool)
    requires Key(volumeID) in s
    requires mount(s[Key(volumeID)].device, "", s[Key(volumeID)].spec.format)
    ensures !MountedHasPath(MountStep(s, volumeID, "", mount).0)
  {

  }

  /**
   * The device path is mntPath + volume id with no separator: it lies below
   * mntPath + "/" exactly when the id itself starts with "/".
   */
  lemma DeviceBelowMountPoint(mntPath: string, volumeID: string)
    ensures IsPrefix(mntPath + "/", NewVolume(mntPath, volumeID, VolumeSpec(0, "")).device)
        <==> IsPrefix("/", volumeID)
  {
    var d := mntPath + volumeID;
    if IsPrefix("/", volumeID) {
      assert d[..|mntPath| + 1] == mntPath + volumeID[..1];
    }
    if IsPrefix(mntPath + "/", d) {
      assert d[|mntPath|] == (mntPath + "/")[|mntPath|];
      assert volumeID[..1] == [d[|mntPath|]];
    }
  }

  /**
   * Once Delete has succeeded, Mount, Unmount and Delete of that volume fail
   * with the store's not-found error and change nothing.
   */
  lemma DeleteIsFinal(s: Store, volumeID: string, remove: string -> bool, mountpath: string,
                      mount: (string, string, string) -> bool, unmount: string -> bool,
                      remove': string -> bool)
    requires DeleteStep(s, volumeID, remove).1.Pass?
    ensures var t := DeleteStep(s, volumeID, remove).0;
      && MountStep(t, volumeID, mountpath, mount) == (t, Fail(KeyNotFound(Key(volumeID))))
      && UnmountStep(t, volumeID, mountpath, unmount) == (t, Fail(KeyNotFound(Key(volumeID))))
      && DeleteStep(t, volumeID, remove') == (t, Fail(KeyNotFound(Key(volumeID))))
  {
  }

  /**
   * Mount, Unmount and Delete report the store's not-found error exactly when
   * no record is stored for the volume.
   */
  lemma NotFoundIffAbsent(s: Store, volumeID: string, mountpath: string,
                          mount: (string, string, string) -> bool, unmount: string -> bool,
                          remove: string -> bool)
    ensures MountStep(s, volumeID, mountpath, mount).1 == Fail(KeyNotFound(Key(volumeID))) <==> Key(volumeID) !in s
    ensures UnmountStep(s, volumeID, mountpath, unmount).1 == Fail(KeyNotFound(Key(volumeID))) <==> Key(volumeID) !in s
    ensures DeleteStep(s, volumeID, remove).1 == Fail(KeyNotFound(Key(volumeID))) <==> Key(volumeID) !in s
  {
  }

  /**
   * Create, Mount at a path, Unmount and Delete, each succeeding, leave the
   * store as it was when the new id's key was free; in between, the record is
   * mounted at that path and then unmounted, and it is never attached.
   */
  lemma LifecycleRoundTrip(s: Store, mntPath: string, spec: VolumeSpec, out: string, target: string,
                           mkdirAll: string -> bool, mount: (string, string, string) -> bool,
                           unmount: string -> bool, remove: string -> bool)
    requires Key(VolumeIdOf(out)) !in s
    requires mkdirAll(mntPath + VolumeIdOf(out))
    requires mount(mntPath + VolumeIdOf(out), target, spec.format)
    requires unmount(target)
    requires remove(mntPath + VolumeIdOf(out))
    ensures var (s1, id) := CreateStep(s, mntPath, spec, Some(out), mkdirAll);
      && id == Success(VolumeIdOf(out))
      && var (s2, e2) := MountStep(s1, id.value, target, mount);
      && e2.Pass? && s2[Key(id.value)].mounted && s2[Key(id.value)].mountpath == target
      && !s2[Key(id.value)].attached
      && var (s3, e3) := UnmountStep(s2, id.value, target, unmount);
      && e3.Pass? && !s3[Key(id.value)].mounted && s3[Key(id.value)].mountpath == ""
      && var (s4, e4) := DeleteStep(s3, id.value, remove);
      && e4.Pass? && s4 == s
  {

  }

  /** The driver: the NFS server, the local path it is mounted at, and the key-value store. */
  class NfsDriver {
    const nfsServer: string
    const mntPath: string
    var store: Store

    constructor (nfsServer: string, mntPath: string, db: Store)
      ensures this.nfsServer == nfsServer && this.mntPath == mntPath && store == db
    {
      this.nfsServer := nfsServer;
      this.mntPath := mntPath;
      store := db;
    }

    /** Reads the record of a volume. */
    method Get(volumeID: string) returns (r: Result<AwsVolume, DriverError>)
      ensures r.Success? <==> Key(volumeID) in store
      ensures r.Success? ==> r.value == store[Key(volumeID)]
      ensures r.Failure? ==> r.error == KeyNotFound(Key(volumeID))
    {
      var key := NfsDBKey + "/" + volumeID;
      if key in store {
        r := Success(store[key]);
      } else {
        r := Failure(KeyNotFound(key));
      }
    }

    /** Writes the record of a volume; no other key changes. */
    method Put(volumeID: string, v: AwsVolume)
      modifies this
      ensures store == old(store)[Key(volumeID) := v]
    {
      var key := NfsDBKey + "/" + volumeID;
      store := store[key := v];
    }

    /** Drops the record of a volume; no other key changes. A missing key is not an error. */
    method Del(volumeID: string)
      modifies this
      ensures store == old(store) - {Key(volumeID)}
    {
      var key := NfsDBKey + "/" + volumeID;
      store := store - {key};
    }

    method Create(spec: VolumeSpec, uuidgen: Option<string>, mkdirAll: string -> bool)
      returns (r: Result<string, DriverError>)
      modifies this
      ensures (store, r) == CreateStep(old(store), mntPath, spec, uuidgen, mkdirAll)
    {
      if uuidgen.None? {
        return Failure(UuidgenFailed);
      }
      var volumeID := TrimSuffix(uuidgen.value, "\n");
      if !mkdirAll(mntPath + volumeID) {
        return Failure(MkdirFailed(mntPath + volumeID));
      }
      Put(volumeID, AwsVolume(spec, false, false, false, mntPath + volumeID, ""));
      r := Success(volumeID);
    }

    method Delete(volumeID: string, remove: string -> bool) returns (err: Outcome<DriverError>)
      modifies this
      ensures (store, err) == DeleteStep(old(store), volumeID, remove)
    {
      var v := Get(volumeID);
      if v.Failure? {
        return Fail(v.error);
      }
      if !remove(v.value.device) {
        return Fail(RemoveFailed(v.value.device));
      }
      Del(volumeID);
      err := Pass;
    }

    method Mount(volumeID: string, mountpath: string, mount: (string, string, string) -> bool)
      returns (err: Outcome<DriverError>)
      modifies this
      ensures (store, err) == MountStep(old(store), volumeID, mountpath, mount)
    {
      var got := Get(volumeID);
      if got.Failure? {
        return Fail(got.error);
      }
      var v := got.value;
      if !mount(v.device, mountpath, v.spec.format) {
        return Fail(MountFailed(v.device, mountpath, v.spec.format));
      }
      v := v.(mountpath := mountpath);
      v := v.(mounted := true);
      Put(volumeID, v);
      err := Pass;
    }

    method Unmount(volumeID: string, mountpath: string, unmount: string -> bool)
      returns (err: Outcome<DriverError>)
      modifies this
      ensures (store, err) == UnmountStep(old(store), volumeID, mountpath, unmount)
    {
      var got := Get(volumeID);
      if got.Failure? {
        return Fail(got.error);
      }
      var v := got.value;
      if !unmount(v.mountpath) {
        return Fail(UnmountFailed(v.mountpath));
      }
      v := v.(mountpath := "");
      v := v.(mounted := false);
      Put(volumeID, v);
      err := Pass;
    }

    // The optional capabilities: each fails with volume.ErrNotSupported and reads no state.

    function Snapshot(volumeID: string, labels: map<string, string>): (r: Result<string, DriverError>)
      ensures r == Failure(NotSupported)
    {
      Failure(NotSupported)
    }

    function SnapDelete(snapID: string): (r: Outcome<DriverError>)
      ensures r == Fail(NotSupported)
    {
      Fail(NotSupported)
    }

    function SnapInspect(snapIDs: seq<string>): (r: Result<seq<AwsVolume>, DriverError>)
      ensures r == Failure(NotSupported)
    {
      Failure(NotSupported)
    }

    function SnapEnumerate(name: string, labels: map<string, string>): (r: Result<seq<AwsVolume>, DriverError>)
      ensures r == Failure(NotSupported)
    {
      Failure(NotSupported)
    }

    function Stats(volumeID: string): (r: Result<nat, DriverError>)
      ensures r == Failure(NotSupported)
    {
      Failure(NotSupported)
    }

    function Alerts(volumeID: string): (r: Result<seq<string>, DriverError>)
      ensures r == Failure(NotSupported)
    {
      Failure(NotSupported)
    }

    function Enumerate(name: string, labels: map<string, string>): (r: Result<seq<AwsVolume>, DriverError>)
      ensures r == Failure(NotSupported)
    {
      Failure(NotSupported)
    }
  }

  /**
   * Init: requires the "uri" parameter, picks a mount point from uuidgen,
   * creates it and mounts the server there; the new driver uses the store `db`.
   */
  method Init(params: map<string, string>, db: Store, uuidgen: Option<string>,
              mkdirAll: string -> bool, mount: (string, string, string) -> bool)
    returns (r: Result<NfsDriver, DriverError>)
    ensures r.Failure? ==> InitStep(params, uuidgen, mkdirAll, mount) == Failure(r.error)
    ensures r.Success? <==> InitStep(params, uuidgen, mkdirAll, mount).Success?
    ensures r.Success? ==>
      && fresh(r.value)
      && (r.value.nfsServer, r.value.mntPath) == InitStep(params, uuidgen, mkdirAll, mount).value
      && r.value.store == db
  {
    if "uri" !in params {
      return Failure(NoServerUri);
    }
    var uri := params["uri"];
    if uuidgen.None? {
      return Failure(UuidgenFailed);
    }
    var mntPath := "/mnt/" + TrimSuffix(uuidgen.value, "\n");
    if !mkdirAll(mntPath) {
      return Failure(MkdirFailed(mntPath));
    }
    if !mount(uri, mntPath, "tmpfs") {
      return Failure(MountFailed(uri, mntPath, "tmpfs"));
    }
    var d := new NfsDriver(uri, mntPath, db);
    r := Success(d);
  }
}
