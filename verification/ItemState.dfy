/** Sync metadata of one item (`bitboxsync/types.go`, `bitboxsync/engine_items.go`). */
module ItemState {
  import opened Prelude

  /** What the store keeps for one item. Identifiers are the map keys of the surrounding model. */
  datatype Meta = Meta(
    version: nat,
    baseVersion: nat,
    baseValue: Bytes,
    dirty: bool,
    conflict: bool,
    conflictVersion: nat,
    conflictValue: Bytes)

  /** An item that sync has never recorded. */
  const BLANK := Meta(0, 0, [], false, false, 0, [])

  predicate HasMergeBase(m: Meta) {
    m.baseVersion != 0 || |m.baseValue| != 0
  }

  /** The base argument handed to a merge. */
  function BaseOf(m: Meta): Option<Bytes> {
    if HasMergeBase(m) then Some(m.baseValue) else None
  }

  function Cleared(m: Meta): Meta {
    m.(conflict := false, conflictVersion := 0, conflictValue := [])
  }

  function Dirtied(m: Meta): Meta {
    m.(dirty := true)
  }

  function Clean(version: nat, value: Bytes): Meta {
    Meta(version, version, value, false, false, 0, [])
  }

  function DirtyOnBase(version: nat, value: Bytes): Meta {
    Meta(version, version, value, true, false, 0, [])
  }

  function Conflicted(m: Meta, version: nat, value: Bytes): Meta {
    m.(version := version, dirty := true, conflict := true, conflictVersion := version, conflictValue := value)
  }

  /** What every stored record satisfies, whatever the server answers. */
  predicate Shape(m: Meta) {
    && m.baseVersion <= m.version
    && (m.conflict ==> m.dirty && m.conflictVersion == m.version)
    && (!m.conflict ==> m.conflictVersion == 0 && m.conflictValue == [])
    && (!m.dirty ==> m.baseVersion == m.version)
  }

  /** The in-memory copy of an item record that the `markItem*` helpers update through a pointer. */
  class Item {
    var version: nat
    var baseVersion: nat
    var baseValue: Bytes
    var dirty: bool
    var conflict: bool
    var conflictVersion: nat
    var conflictValue: Bytes

    /** The record as `SaveItem` would persist it. */
    function Record(): Meta
      reads this
    {
      Meta(version, baseVersion, baseValue, dirty, conflict, conflictVersion, conflictValue)
    }

    constructor (m: Meta)
      ensures Record() == m
    {
      version, baseVersion, baseValue := m.version, m.baseVersion, m.baseValue;
      dirty, conflict := m.dirty, m.conflict;
      conflictVersion, conflictValue := m.conflictVersion, m.conflictValue;
    }

    method ClearConflict()
      modifies this
      ensures Record() == Cleared(old(Record())) && !conflict && conflictVersion == 0 && conflictValue == []
    {
      conflict := false;
      conflictVersion := 0;
      conflictValue := [];
    }

    method MarkClean(remoteVersion: nat, remoteValue: Bytes)
      modifies this
      ensures Record() == Clean(remoteVersion, remoteValue)
      ensures version == baseVersion == remoteVersion && baseValue == remoteValue && !dirty && !conflict
    {
      version := remoteVersion;
      baseVersion := remoteVersion;
      baseValue := remoteValue;
      dirty := false;
      ClearConflict();
    }

    method MarkDirty()
      modifies this
      ensures Record() == Dirtied(old(Record()))
    {
      dirty := true;
    }

    method MarkDirtyWithBase(remoteVersion: nat, remoteValue: Bytes)
      modifies this
      ensures Record() == DirtyOnBase(remoteVersion, remoteValue)
      ensures version == baseVersion == remoteVersion && baseValue == remoteValue && dirty && !conflict
    {
      version := remoteVersion;
      baseVersion := remoteVersion;
      baseValue := remoteValue;
      dirty := true;
      ClearConflict();
    }

    method MarkConflict(remoteVersion: nat, remoteValue: Bytes)
      modifies this
      ensures Record() == Conflicted(old(Record()), remoteVersion, remoteValue)
      ensures version == conflictVersion == remoteVersion && conflictValue == remoteValue && dirty && conflict
      ensures baseVersion == old(baseVersion) && baseValue == old(baseValue)
    {
      version := remoteVersion;
      dirty := true;
      conflict := true;
      conflictVersion := remoteVersion;
      conflictValue := remoteValue;
    }
  }
}
