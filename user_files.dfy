/**
 * `useUserFiles`: the list of files the user added on this device, kept in
 * memory and mirrored to one slot of the browser's local storage.
 */
module UserFiles {
  import opened Drafts

  const STORAGE_KEY: string := "figma-cursor-user-files"

  /**
   * What a storage slot holds: the JSON text of a list of drafts, or text
   * that does not parse as one (the empty text is kept apart because it is
   * falsy and is not even parsed).
   */
  datatype Stored = Saved(files: seq<Draft>) | Unparsable(raw: string)

  /** The list a fresh load would show: the saved list, or `current` when the slot is missing, empty or unparsable. */
  function Loaded(storage: map<string, Stored>, current: seq<Draft>): (r: seq<Draft>)
    ensures STORAGE_KEY in storage && storage[STORAGE_KEY].Saved? ==> r == storage[STORAGE_KEY].files
    ensures STORAGE_KEY !in storage || storage[STORAGE_KEY].Unparsable? ==> r == current
  {
    if STORAGE_KEY in storage then
      match storage[STORAGE_KEY]
      case Saved(files) => files
      case Unparsable(_) => current
    else current
  }

  class UserFileList {
    var userFiles: seq<Draft>
    var loading: bool
    /** The browser's local storage, slot by slot. */
    var storage: map<string, Stored>

    /** The list in memory is what a reload would show. */
    ghost predicate Persisted()
      reads this
    {
      Loaded(storage, []) == userFiles
    }

    /** The hook's initial state: an empty list, still loading. */
    constructor(initialStorage: map<string, Stored>)
      ensures userFiles == [] && loading && storage == initialStorage
    {
      userFiles := [];
      loading := true;
      storage := initialStorage;
    }

    /**
     * The initial load: the saved list when the slot holds one; otherwise
     * the list is left as it is. Loading ends in every case.
     */
    method Load()
      modifies this
      ensures userFiles == Loaded(storage, old(userFiles))
      ensures !loading
      ensures storage == old(storage)
    {
      if STORAGE_KEY in storage {
        match storage[STORAGE_KEY] {
          case Saved(files) =>
            userFiles := files;
          case Unparsable(_) =>
        }
      }
      loading := false;
    }

    /**
     * `addUserFile`: refused when the key is already listed (nothing is
     * written); otherwise prepended and the new list written to the slot.
     * `writeOk` says whether the write succeeded; a failed write is
     * swallowed and the list in memory changes anyway.
     */
    method AddUserFile(file: Draft, writeOk: bool)
      modifies this
      ensures userFiles == PrependNew(old(userFiles), file)
      ensures file.key in KeySet(old(userFiles)) ==> userFiles == old(userFiles) && storage == old(storage)
      ensures file.key !in KeySet(old(userFiles)) ==>
                userFiles == [file] + old(userFiles)
                && storage == (if writeOk then old(storage)[STORAGE_KEY := Saved(userFiles)] else old(storage))
      ensures UniqueKeys(old(userFiles)) ==> UniqueKeys(userFiles)
      ensures loading == old(loading)
      ensures old(Persisted()) && writeOk ==> Persisted()
    {
      if UniqueKeys(userFiles) {
        PrependNewUnique(userFiles, file);
      }
      if file.key in KeySet(userFiles) {
        return;
      }
      var updated := [file] + userFiles;
      if writeOk {
        storage := storage[STORAGE_KEY := Saved(updated)];
      }
      userFiles := updated;
    }

    /** `removeUserFile`: every entry with the key dropped, the rest kept in order, and the result written. */
    method RemoveUserFile(fileKey: string, writeOk: bool)
      modifies this
      ensures userFiles == RemoveKey(old(userFiles), fileKey)
      ensures forall d :: d in userFiles <==> d in old(userFiles) && d.key != fileKey
      ensures storage == (if writeOk then old(storage)[STORAGE_KEY := Saved(userFiles)] else old(storage))
      ensures UniqueKeys(old(userFiles)) ==> UniqueKeys(userFiles)
      ensures loading == old(loading)
      ensures writeOk ==> Persisted()
    {
      if UniqueKeys(userFiles) {
        DropKeysUnique(userFiles, {fileKey});
      }
      var updated := RemoveKey(userFiles, fileKey);
      if writeOk {
        storage := storage[STORAGE_KEY := Saved(updated)];
      }
      userFiles := updated;
    }

    /** `clearAllFiles`: the list emptied and the slot removed (`removeOk` says whether removing succeeded). */
    method ClearAllFiles(removeOk: bool)
      modifies this
      ensures userFiles == []
      ensures storage == (if removeOk then old(storage) - {STORAGE_KEY} else old(storage))
      ensures loading == old(loading)
      ensures removeOk ==> Persisted()
    {
      userFiles := [];
      if removeOk {
        storage := storage - {STORAGE_KEY};
      }
    }
  }

  /** A file added and then removed, with both writes succeeding, is gone after a reload too. */
  method AddThenRemove(list: UserFileList, file: Draft)
    requires list.Persisted()
    modifies list
    ensures file.key !in KeySet(Loaded(list.storage, []))
    ensures list.Persisted()
  {
    list.AddUserFile(file, true);
    list.RemoveUserFile(file.key, true);
  }
}
