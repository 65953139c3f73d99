/**
 * The Kiri:Moto file catalog (src/kiri/db.js): a `files` dictionary from
 * file name to record, mirrored into the key/value store under `files`, a
 * list of listeners told of every change, and the mesh blobs stored under
 * `file-<name>` (raw) and `fdec-<name>` (decimated).
 *
 * The store (`motodb`) is modelled as a synchronous map: `saved` is the
 * value under the key `files`, `blobs` the vertex arrays under the
 * `file-` and `fdec-` keys (no such key can be `files`). Listeners are
 * identities; each call of a listener is appended to the `calls` log with
 * the dictionary it was given.
 */
module KiriCatalog {
  import opened Wrappers

  /** A file record: `{deferred: mark}` or `{vertices, updated}`. */
  datatype Record = Deferred(mark: string) | Stored(vertices: real, updated: int)

  type Listener = nat
  type Handler = nat

  /** One call `listener(files)`. */
  datatype Call = Call(listener: Listener, files: map<string, Record>)

  /** What `rename` calls back with: an early refusal, or the errors of the copy step (`{}` when there are none). */
  datatype RenameReply = Refused(reason: string) | Renamed(errors: seq<string>)

  /** What `getFile` does for its caller: hand over to the deferred handler, call back with nothing, or with vertices. */
  datatype FileReply = Delegated(handler: Handler, mark: string, name: string) | NoFile | Vertices(data: seq<real>)

  /** What `putFile` calls back with: the decimated vertices, or the store's ok flag. */
  datatype PutReply = Decimated(data: seq<real>) | StoreOk(ok: bool)

  // ---------------------------------------------------------------- keys

  function FileKey(name: string): string
  {
    "file-" + name
  }

  function DecKey(name: string): string
  {
    "fdec-" + name
  }

  /** The blob keys of two names never clash, and each kind of key determines its name. */
  lemma KeysDistinct(a: string, b: string)
    ensures FileKey(a) != DecKey(b)
    ensures FileKey(a) == FileKey(b) <==> a == b
    ensures DecKey(a) == DecKey(b) <==> a == b
  {
    assert FileKey(a)[1] != DecKey(b)[1];
    if FileKey(a) == FileKey(b) {
      assert a == FileKey(a)[5..] && b == FileKey(b)[5..];
    }
    if DecKey(a) == DecKey(b) {
      assert a == DecKey(a)[5..] && b == DecKey(b)[5..];
    }
  }

  // ---------------------------------------------------------------- listeners

  ghost predicate NoDup(s: seq<Listener>)
  {
    forall i, j :: 0 <= i < j < |s| ==> s[i] != s[j]
  }

  /** The calls `notifyFileListeners` makes: every listener once, in list order, with the same dictionary. */
  function Notified(ls: seq<Listener>, files: map<string, Record>): (r: seq<Call>)
    ensures |r| == |ls|
    ensures forall i :: 0 <= i < |ls| ==> r[i] == Call(ls[i], files)
  {
    if ls == [] then [] else Notified(ls[..|ls| - 1], files) + [Call(ls[|ls| - 1], files)]
  }

  /** With no duplicate listeners no listener is notified twice. */
  lemma NotifiedOnce(ls: seq<Listener>, files: map<string, Record>)
    requires NoDup(ls)
    ensures var r := Notified(ls, files);
      forall i, j :: 0 <= i < j < |r| ==> r[i].listener != r[j].listener
  {
  }

  /** `listeners.remove(l)`: drop the first occurrence of l, if any. */
  function RemoveFirst(ls: seq<Listener>, l: Listener): (r: seq<Listener>)
    ensures l !in ls ==> r == ls
    ensures l in ls ==> |r| == |ls| - 1
    ensures multiset(r) + (if l in ls then multiset{l} else multiset{}) == multiset(ls)
  {
    if ls == [] then []
    else
      assert ls == [ls[0]] + ls[1..];
      if ls[0] == l then ls[1..]
      else [ls[0]] + RemoveFirst(ls[1..], l)
  }

  /** Removing from a list without duplicates removes l entirely, keeps every other listener, keeps the order, keeps no duplicates. */
  lemma {:induction false} RemoveFirstNoDup(ls: seq<Listener>, l: Listener)
    requires NoDup(ls)
    ensures var r := RemoveFirst(ls, l);
      && l !in r && NoDup(r)
      && (forall x :: x in r <==> x in ls && x != l)
  {
    if ls != [] && ls[0] != l {
      assert NoDup(ls[1..]) by {
        forall i, j | 0 <= i < j < |ls[1..]|
          ensures ls[1..][i] != ls[1..][j]
        {
          assert ls[1..][i] == ls[i + 1] && ls[1..][j] == ls[j + 1];
        }
      }
      RemoveFirstNoDup(ls[1..], l);
      var r := RemoveFirst(ls, l);
      var t := RemoveFirst(ls[1..], l);
      assert r == [ls[0]] + t;
      assert ls[0] !in ls[1..];
      assert forall x :: x in t ==> x in ls[1..];
    } else if ls != [] {
      assert forall x :: x in ls[1..] ==> x != l by {
        forall x | x in ls[1..]
          ensures x != l
        {
          var i :| 0 <= i < |ls[1..]| && ls[1..][i] == x;
          assert ls[i + 1] == x;
        }
      }
    }
  }

  /** Adding an absent listener and removing it again restores the list. */
  lemma {:induction false} AddThenRemove(ls: seq<Listener>, l: Listener)
    requires l !in ls
    ensures RemoveFirst(ls + [l], l) == ls
  {
    if ls != [] {
      assert (ls + [l])[1..] == ls[1..] + [l];
      AddThenRemove(ls[1..], l);
    }
  }

  // ---------------------------------------------------------------- decimation

  /** The size below which `decimate` leaves vertices alone. */
  const DecimateMin: nat := 500000

  /** `decimate`: small vertex arrays pass through, larger ones go to the worker. */
  function Decimate(vertices: seq<real>, worker: seq<real> -> seq<real>): (r: seq<real>)
    ensures |vertices| < DecimateMin ==> r == vertices
    ensures |vertices| >= DecimateMin ==> r == worker(vertices)
  {
    if |vertices| < DecimateMin then vertices else worker(vertices)
  }

  // ---------------------------------------------------------------- blobs on rename

  /** `db.get(from)` then `db.put(to, vertices)` when there was something under from. */
  function Copied(blobs: map<string, seq<real>>, from: string, to: string): map<string, seq<real>>
  {
    if from in blobs then blobs[to := blobs[from]] else blobs
  }

  /** The store after a rename's copies and removals. */
  function RenamedBlobs(blobs: map<string, seq<real>>, name: string, newname: string): map<string, seq<real>>
  {
    Copied(Copied(blobs, DecKey(name), DecKey(newname)), FileKey(name), FileKey(newname)) - {DecKey(name), FileKey(name)}
  }

  /** The errors a rename's copy step reports, in the order the two reads complete. */
  function CopyErrors(blobs: map<string, seq<real>>, name: string): seq<string>
  {
    (if DecKey(name) in blobs then [] else ["no decimation"]) + (if FileKey(name) in blobs then [] else ["no raw file"])
  }

  /**
   * After a rename to a different name, the old name has no blobs, each
   * blob it had is under the new name, and every unrelated key is as it was.
   */
  lemma RenamedBlobsMoved(blobs: map<string, seq<real>>, name: string, newname: string)
    requires newname != name
    ensures var r := RenamedBlobs(blobs, name, newname);
      && DecKey(name) !in r && FileKey(name) !in r
      && (DecKey(name) in blobs ==> DecKey(newname) in r && r[DecKey(newname)] == blobs[DecKey(name)])
      && (FileKey(name) in blobs ==> FileKey(newname) in r && r[FileKey(newname)] == blobs[FileKey(name)])
      && (DecKey(name) !in blobs && FileKey(name) !in blobs ==> CopyErrors(blobs, name) == ["no decimation", "no raw file"])
      && (forall k :: k in blobs && k != DecKey(name) && k != FileKey(name) && k != DecKey(newname) && k != FileKey(newname)
            ==> k in r && r[k] == blobs[k])
      && (forall k :: k in r ==> k in blobs || k == DecKey(newname) || k == FileKey(newname))
  {
    KeysDistinct(name, newname);
    KeysDistinct(newname, name);
    KeysDistinct(name, name);
    KeysDistinct(newname, newname);
  }

  // ---------------------------------------------------------------- the catalog

  class Catalog {
    /** The store's value under the key `files`. */
    var saved: Option<map<string, Record>>
    /** The store's vertex arrays under the `file-` and `fdec-` keys. */
    var blobs: map<string, seq<real>>
    var files: map<string, Record>
    var listeners: seq<Listener>
    var calls: seq<Call>
    var autodec: bool
    var deferredHandler: Option<Handler>

    ghost predicate Valid()
      reads this
    {
      NoDup(listeners)
    }

    /** `new Catalog(motodb, decimate)`, which ends with `refresh()`. */
    constructor(saved: Option<map<string, Record>>, blobs: map<string, seq<real>>, decimate: bool)
      ensures Valid()
      ensures this.saved == saved && this.blobs == blobs && autodec == decimate && deferredHandler == None
      ensures files == (if saved.Some? then saved.value else map[])
      ensures listeners == [] && calls == []
    {
      this.saved := saved;
      this.blobs := blobs;
      files := map[];
      listeners := [];
      calls := [];
      autodec := decimate;
      deferredHandler := None;
      if saved.Some? {
        files := saved.value;
      }
    }

    /** `refresh()`: load the stored dictionary, if there is one, and tell the listeners. */
    method Refresh()
      requires Valid()
      modifies this
      ensures Valid()
      ensures saved.Some? ==> files == saved.value && calls == old(calls) + Notified(listeners, files)
      ensures saved.None? ==> files == old(files) && calls == old(calls)
      ensures saved == old(saved) && blobs == old(blobs) && listeners == old(listeners)
      ensures autodec == old(autodec) && deferredHandler == old(deferredHandler)
    {
      if saved.Some? {
        files := saved.value;
        NotifyFileListeners();
      }
    }

    /** `addFileListener(l)`: only a new listener is added, and it is called at once with the dictionary. */
    method AddFileListener(l: Listener)
      requires Valid()
      modifies this
      ensures Valid()
      ensures l in old(listeners) ==> listeners == old(listeners) && calls == old(calls)
      ensures l !in old(listeners) ==> listeners == old(listeners) + [l] && calls == old(calls) + [Call(l, files)]
      ensures files == old(files) && saved == old(saved) && blobs == old(blobs)
      ensures autodec == old(autodec) && deferredHandler == old(deferredHandler)
    {
      if l !in listeners {
        listeners := listeners + [l];
        calls := calls + [Call(l, files)];
      }
    }

    /** `removeFileListener(l)`. */
    method RemoveFileListener(l: Listener)
      requires Valid()
      modifies this
      ensures Valid() && l !in listeners
      ensures listeners == RemoveFirst(old(listeners), l)
      ensures files == old(files) && calls == old(calls) && saved == old(saved) && blobs == old(blobs)
      ensures autodec == old(autodec) && deferredHandler == old(deferredHandler)
    {
      RemoveFirstNoDup(listeners, l);
      listeners := RemoveFirst(listeners, l);
    }

    /** `notifyFileListeners(store)`: call every listener with the dictionary, in list order. */
    method NotifyFileListeners()
      modifies this
      ensures calls == old(calls) + Notified(listeners, files)
      ensures files == old(files) && listeners == old(listeners) && saved == old(saved) && blobs == old(blobs)
      ensures autodec == old(autodec) && deferredHandler == old(deferredHandler)
    {
      var i := 0;
      while i < |listeners|
        invariant 0 <= i <= |listeners|
        invariant calls == old(calls) + Notified(listeners[..i], files)
        invariant files == old(files) && listeners == old(listeners) && saved == old(saved) && blobs == old(blobs)
        invariant autodec == old(autodec) && deferredHandler == old(deferredHandler)
      {
        assert listeners[..i + 1][..i] == listeners[..i];
        calls := calls + [Call(listeners[i], files)];
        i := i + 1;
      }
      assert listeners[..i] == listeners;
    }

    /** `saveFileList(store)`: store the dictionary under `files`, then notify. */
    method SaveFileList()
      modifies this
      ensures saved == Some(files)
      ensures calls == old(calls) + Notified(listeners, files)
      ensures files == old(files) && listeners == old(listeners) && blobs == old(blobs)
      ensures autodec == old(autodec) && deferredHandler == old(deferredHandler)
    {
      saved := Some(files);
      NotifyFileListeners();
    }

    /** `setDeferredHandler(h)`. */
    method SetDeferredHandler(h: Option<Handler>)
      modifies this
      ensures deferredHandler == h
      ensures files == old(files) && listeners == old(listeners) && calls == old(calls)
      ensures saved == old(saved) && blobs == old(blobs) && autodec == old(autodec)
    {
      deferredHandler := h;
    }

    /** `putDeferred(name, mark)`: record a deferred file, store the dictionary and tell every listener once. */
    method PutDeferred(name: string, mark: string)
      requires Valid()
      modifies this
      ensures Valid()
      ensures files == old(files)[name := Deferred(mark)]
      ensures saved == Some(files)
      ensures calls == old(calls) + Notified(listeners, files)
      ensures listeners == old(listeners) && blobs == old(blobs)
      ensures autodec == old(autodec) && deferredHandler == old(deferredHandler)
    {
      files := files[name := Deferred(mark)];
      SaveFileList();
    }

    /**
     * `putFile(name, vertices, callback)`: `ok` is what the store reports for
     * writing the raw vertices, `now` the clock, `worker` the decimation
     * worker. On success the record (a third of the array's length, at now)
     * is in the dictionary before anyone is notified.
     */
    method PutFile(name: string, vertices: seq<real>, ok: bool, now: int, worker: seq<real> -> seq<real>)
      returns (reply: PutReply)
      requires Valid()
      modifies this
      ensures Valid()
      ensures !ok ==> reply == StoreOk(false) && files == old(files) && calls == old(calls)
                      && saved == old(saved) && blobs == old(blobs)
      ensures ok ==> && files == old(files)[name := Stored(|vertices| as real / 3.0, now)]
                     && saved == Some(files)
                     && calls == old(calls) + Notified(listeners, files)
      ensures ok && autodec ==> && reply == Decimated(Decimate(vertices, worker))
                                && blobs == old(blobs)[FileKey(name) := vertices][DecKey(name) := Decimate(vertices, worker)]
      ensures ok && !autodec ==> reply == StoreOk(true) && blobs == old(blobs)[FileKey(name) := vertices]
      ensures listeners == old(listeners) && autodec == old(autodec) && deferredHandler == old(deferredHandler)
    {
      if !ok {
        return StoreOk(false);
      }
      blobs := blobs[FileKey(name) := vertices];
      files := files[name := Stored(|vertices| as real / 3.0, now)];
      SaveFileList();
      if autodec {
        var decimated := Decimate(vertices, worker);
        blobs := blobs[DecKey(name) := decimated];
        reply := Decimated(decimated);
      } else {
        reply := StoreOk(true);
      }
    }

    /**
     * `rename(name, newname, callback)`: refuse an unknown name, then an
     * empty or unchanged new name; otherwise copy both blobs to the new
     * name (noting each one missing), move the record, store and notify,
     * and remove the old blobs.
     */
    method Rename(name: string, newname: string) returns (reply: RenameReply)
      requires Valid()
      modifies this
      ensures Valid()
      ensures name !in old(files) ==> reply == Refused("no such file")
      ensures name in old(files) && (newname == "" || newname == name) ==> reply == Refused("invalid new name")
      ensures reply.Refused? ==> files == old(files) && calls == old(calls) && saved == old(saved) && blobs == old(blobs)
      ensures name in old(files) && newname != "" && newname != name ==>
        && files == (old(files) - {name})[newname := old(files)[name]]
        && saved == Some(files)
        && calls == old(calls) + Notified(listeners, files)
        && reply == Renamed(CopyErrors(old(blobs), name))
        && blobs == RenamedBlobs(old(blobs), name, newname)
      ensures listeners == old(listeners) && autodec == old(autodec) && deferredHandler == old(deferredHandler)
    {
      if name !in files {
        return Refused("no such file");
      }
      if newname == "" || newname == name {
        return Refused("invalid new name");
      }
      KeysDistinct(name, newname);
      var errors: seq<string> := [];
      var found := CopyBlob(DecKey(name), DecKey(newname));
      if !found {
        errors := errors + ["no decimation"];
      }
      found := CopyBlob(FileKey(name), FileKey(newname));
      if !found {
        errors := errors + ["no raw file"];
      }
      MoveRecord(name, newname);
      SaveFileList();
      blobs := blobs - {DecKey(name)};
      blobs := blobs - {FileKey(name)};
      assert blobs == RenamedBlobs(old(blobs), name, newname);
      reply := Renamed(errors);
    }

    /** One of rename's copy steps: read from, and when found write it under to. */
    method CopyBlob(from: string, to: string) returns (found: bool)
      modifies this
      ensures found == (from in old(blobs))
      ensures blobs == Copied(old(blobs), from, to)
      ensures files == old(files) && listeners == old(listeners) && calls == old(calls) && saved == old(saved)
      ensures autodec == old(autodec) && deferredHandler == old(deferredHandler)
    {
      found := from in blobs;
      if found {
        blobs := blobs[to := blobs[from]];
      }
    }

    /** Rename's remap: `files[newname] = files[name]; delete files[name]`. */
    method MoveRecord(name: string, newname: string)
      requires name in files && newname != name
      modifies this
      ensures files == (old(files) - {name})[newname := old(files)[name]]
      ensures blobs == old(blobs) && listeners == old(listeners) && calls == old(calls) && saved == old(saved)
      ensures autodec == old(autodec) && deferredHandler == old(deferredHandler)
    {
      var rec := files[name];
      files := files[newname := rec];
      files := files - {name};
      assert files == (old(files) - {name})[newname := old(files)[name]];
    }

    /**
     * `getFile(name, callback)`: a record with a non-empty deferred mark goes
     * to the deferred handler (or back with nothing) without touching the
     * store; otherwise the raw vertices, or with auto-decimation the
     * decimated ones, made and stored from the raw ones when missing (the
     * caller then gets the raw vertices).
     */
    method GetFile(name: string, worker: seq<real> -> seq<real>) returns (reply: FileReply)
      modifies this
      ensures name in files && files[name].Deferred? && files[name].mark != "" ==>
        && reply == (if deferredHandler.Some? then Delegated(deferredHandler.value, files[name].mark, name) else NoFile)
        && blobs == old(blobs)
      ensures !(name in files && files[name].Deferred? && files[name].mark != "") ==>
        if !autodec || DecKey(name) !in old(blobs) then
          && reply == (if FileKey(name) in old(blobs) then Vertices(old(blobs)[FileKey(name)]) else NoFile)
          && blobs == (if autodec && FileKey(name) in old(blobs)
                       then old(blobs)[DecKey(name) := Decimate(old(blobs)[FileKey(name)], worker)]
                       else old(blobs))
        else reply == Vertices(old(blobs)[DecKey(name)]) && blobs == old(blobs)
      ensures files == old(files) && listeners == old(listeners) && calls == old(calls) && saved == old(saved)
      ensures autodec == old(autodec) && deferredHandler == old(deferredHandler)
    {
      if name in files && files[name].Deferred? && files[name].mark != "" {
        if deferredHandler.Some? {
          return Delegated(deferredHandler.value, files[name].mark, name);
        }
        return NoFile;
      }
      if !autodec {
        reply := if FileKey(name) in blobs then Vertices(blobs[FileKey(name)]) else NoFile;
        return;
      }
      if DecKey(name) in blobs {
        return Vertices(blobs[DecKey(name)]);
      }
      if FileKey(name) in blobs {
        var vertices := blobs[FileKey(name)];
        blobs := blobs[DecKey(name) := Decimate(vertices, worker)];
        return Vertices(vertices);
      }
      return NoFile;
    }

    /**
     * `deleteFile(name, callback)`: an unknown name calls back false and
     * changes nothing; a known one leaves the dictionary before either blob
     * is removed, then the dictionary is stored and the listeners told, and
     * the callback gets the store's `ok` for removing the raw blob.
     */
    method DeleteFile(name: string, ok: bool) returns (reply: bool)
      requires Valid()
      modifies this
      ensures Valid()
      ensures name !in old(files) ==> !reply && files == old(files) && calls == old(calls)
                                      && saved == old(saved) && blobs == old(blobs)
      ensures name in old(files) ==>
        && reply == ok
        && files == old(files) - {name}
        && blobs == old(blobs) - {DecKey(name), FileKey(name)}
        && saved == Some(files)
        && calls == old(calls) + Notified(listeners, files)
      ensures listeners == old(listeners) && autodec == old(autodec) && deferredHandler == old(deferredHandler)
    {
      if name in files {
        files := files - {name};
        blobs := blobs - {DecKey(name)};
        blobs := blobs - {FileKey(name)};
        SaveFileList();
        return ok;
      }
      return false;
    }

    /**
     * `wipe()`: delete every file in the dictionary. Afterwards it is empty,
     * exactly the blobs of those files are gone, and, when there was a file,
     * the empty dictionary is stored and every deletion told the listeners.
     */
    method Wipe()
      requires Valid()
      modifies this
      ensures Valid()
      ensures files == map[]
      ensures blobs == old(blobs) - BlobKeys(old(files).Keys)
      ensures old(files) == map[] ==> saved == old(saved) && calls == old(calls)
      ensures old(files) != map[] ==> saved == Some(map[])
      ensures |calls| == |old(calls)| + |old(files).Keys| * |listeners| && calls[..|old(calls)|] == old(calls)
      ensures old(files) != map[] ==> |listeners| <= |calls| && calls == calls[..|calls| - |listeners|] + Notified(listeners, map[])
      ensures listeners == old(listeners) && autodec == old(autodec) && deferredHandler == old(deferredHandler)
    {
      var keys := files.Keys;
      ghost var all := keys;
      ghost var done := 0;
      while keys != {}
        invariant Wiping(all, keys, done, old(blobs), old(saved), old(calls), old(listeners), old(autodec), old(deferredHandler))
        decreases keys
      {
        var key :| key in keys;
        WipeOne(key, all, keys, done, old(blobs), old(saved), old(calls), old(listeners), old(autodec), old(deferredHandler));
        keys, done := keys - {key}, done + 1;
      }
      WipeDone(all, done, old(files), old(blobs), old(saved), old(calls), old(listeners), old(autodec), old(deferredHandler));
    }

    /** With no name left, the wiping state is the end state `wipe` promises. */
    lemma WipeDone(all: set<string>, done: nat, files0: map<string, Record>, blobs0: map<string, seq<real>>,
                   saved0: Option<map<string, Record>>, calls0: seq<Call>, listeners0: seq<Listener>,
                   autodec0: bool, handler0: Option<Handler>)
      requires all == files0.Keys && Wiping(all, {}, done, blobs0, saved0, calls0, listeners0, autodec0, handler0)
      ensures Valid() && files == map[] && blobs == blobs0 - BlobKeys(files0.Keys)
      ensures files0 == map[] ==> saved == saved0 && calls == calls0
      ensures files0 != map[] ==> saved == Some(map[])
      ensures |calls| == |calls0| + |files0.Keys| * |listeners| && calls[..|calls0|] == calls0
      ensures files0 != map[] ==> |listeners| <= |calls| && calls == calls[..|calls| - |listeners|] + Notified(listeners, map[])
      ensures listeners == listeners0 && autodec == autodec0 && deferredHandler == handler0
    {
      assert all - {} == all;
      if files0 != map[] {
        assert exists n :: n in files0;
        assert {} != all && files == map[];
        assert calls == calls[..|calls| - |listeners|] + calls[|calls| - |listeners|..];
      }
    }

    /**
     * The state `wipe` keeps between deletions: the names still to go are the
     * dictionary, the blobs of the names gone are removed, and after the first
     * deletion the dictionary is stored and the listeners were just told of it.
     */
    ghost predicate Wiping(all: set<string>, keys: set<string>, done: nat, blobs0: map<string, seq<real>>,
                           saved0: Option<map<string, Record>>, calls0: seq<Call>, listeners0: seq<Listener>,
                           autodec0: bool, handler0: Option<Handler>)
      reads this
    {
      && Valid()
      && files.Keys == keys <= all
      && blobs == blobs0 - BlobKeys(all - keys)
      && (keys == all ==> saved == saved0 && calls == calls0)
      && (keys != all ==> saved == Some(files) && |calls| >= |listeners| && calls[|calls| - |listeners|..] == Notified(listeners, files))
      && done == |all| - |keys|
      && |calls0| <= |calls| && |calls| == |calls0| + done * |listeners| && calls[..|calls0|] == calls0
      && listeners == listeners0 && autodec == autodec0 && deferredHandler == handler0
    }

    /** One deletion of `wipe`, with the name still in the dictionary. */
    method WipeOne(key: string, ghost all: set<string>, ghost keys: set<string>, ghost done: nat,
                   ghost blobs0: map<string, seq<real>>, ghost saved0: Option<map<string, Record>>,
                   ghost calls0: seq<Call>, ghost listeners0: seq<Listener>, ghost autodec0: bool, ghost handler0: Option<Handler>)
      requires key in keys && Wiping(all, keys, done, blobs0, saved0, calls0, listeners0, autodec0, handler0)
      modifies this
      ensures Wiping(all, keys - {key}, done + 1, blobs0, saved0, calls0, listeners0, autodec0, handler0)
    {
      ghost var before := calls;
      BlobKeysAdd(all - keys, key);
      assert all - (keys - {key}) == (all - keys) + {key};
      var _ := DeleteFile(key, true);
      CountStep(done, |listeners|);
      AppendParts(before, |calls0|, Notified(listeners, files));
    }
  }

  /** The blob keys of a set of names: their raw and decimated keys. */
  function BlobKeys(names: set<string>): (ks: set<string>)
    ensures forall n :: n in names ==> FileKey(n) in ks && DecKey(n) in ks
  {
    (set n | n in names :: FileKey(n)) + (set n | n in names :: DecKey(n))
  }

  lemma BlobKeysAdd(names: set<string>, n: string)
    ensures BlobKeys(names + {n}) == BlobKeys(names) + {DecKey(n), FileKey(n)}
  {
  }

  lemma AppendParts<T>(s: seq<T>, n: nat, t: seq<T>)
    requires n <= |s|
    ensures (s + t)[..n] == s[..n] && (s + t)[|s + t| - |t|..] == t
  {
  }

  lemma CountStep(d: int, l: int)
    ensures (d + 1) * l == d * l + l
  {
  }

  /** Adding a new listener and then removing it restores the listener list. */
  lemma AddRemoveRestores(ls: seq<Listener>, l: Listener)
    requires NoDup(ls) && l !in ls
    ensures NoDup(ls + [l])
    ensures RemoveFirst(ls + [l], l) == ls
  {
    AddThenRemove(ls, l);
  }
}
