/**
 The skills directory an installer works in, seen through the file-system calls it makes. Every call
 may fail. `history` records each state the directory was in, including those in the middle of a
 recursive delete, so that a contract can speak about a crash at any moment; `faults` counts the
 calls that failed for no reason of their own.
 */
module Disk {
  import opened Wrappers
  import opened JsonValues

  /** What a file holds: the text of a JSON document, or other bytes. */
  datatype Content = Raw(bytes: seq<nat>) | Document(json: Json)

  /** An entry of the directory; a sub-tree is the map from its `/`-separated paths to contents. */
  datatype Entry = NotDirectory | Directory(files: map<string, Content>)

  type Entries = map<string, Entry>

  datatype Code = EPERM | EBUSY | EACCES | OtherCode | NoCode

  class SkillsRoot {
    var entries: Entries
    ghost var history: seq<Entries>
    ghost var faults: nat

    constructor (entries: Entries)
      ensures this.entries == entries && faults == 0
    {
      this.entries := entries;
      history, faults := [], 0;
    }

    /** `lstat`, where every error means "not there" to the caller. */
    method Exists(name: string) returns (found: bool)
      modifies this`faults
      ensures found ==> name in entries
      ensures faults >= old(faults)
      ensures faults == old(faults) ==> found == (name in entries)
    {
      found := name in entries;
      if * {
        found := false;
        faults := faults + 1;
      }
    }

    method ReadFile(name: string, path: string) returns (content: Option<Content>)
      modifies this`faults
      ensures content.Some? ==> HasFile(entries, name, path) && content.value == entries[name].files[path]
      ensures faults >= old(faults)
      ensures faults == old(faults) ==> (content.Some? <==> HasFile(entries, name, path))
    {
      content := None;
      if name in entries && entries[name].Directory? && path in entries[name].files {
        content := Some(entries[name].files[path]);
      }
      if * {
        content := None;
        faults := faults + 1;
      }
    }

    /** `readdir` all the way down; None when it throws. */
    method ListFiles(name: string) returns (paths: Option<set<string>>)
      modifies this`faults
      ensures paths.Some? ==> name in entries && entries[name].Directory? && paths.value == entries[name].files.Keys
      ensures faults >= old(faults)
      ensures faults == old(faults) ==> (paths.Some? <==> name in entries && entries[name].Directory?)
    {
      paths := None;
      if name in entries && entries[name].Directory? {
        paths := Some(entries[name].files.Keys);
      }
      if * {
        paths := None;
        faults := faults + 1;
      }
    }

    /** `mkdir` of something that changes no entry of this directory. */
    method MakeParents() returns (ok: bool)
      modifies this`faults
      ensures faults >= old(faults) && (faults == old(faults) ==> ok)
    {
      ok := true;
      if * {
        ok := false;
        faults := faults + 1;
      }
    }

    /** `mkdtemp`: a new, empty directory whose name was not in use. */
    method MakeTemporary(prefix: string) returns (name: Option<string>)
      modifies this
      ensures faults >= old(faults) && (faults == old(faults) ==> name.Some?)
      ensures name.Some? ==> prefix <= name.value && name.value !in old(entries)
      ensures entries == if name.Some? then old(entries)[name.value := Directory(map[])] else old(entries)
      ensures history == old(history) + [entries]
    {
      name := None;
      if * {
        faults := faults + 1;
      } else {
        var unused := Unused(prefix, entries.Keys);
        entries := entries[unused := Directory(map[])];
        name := Some(unused);
      }
      history := history + [entries];
    }

    /** `writeFile` with flag `wx`. Failing, it may leave a part of the file behind. */
    method WriteNew(name: string, path: string, content: Content) returns (ok: bool)
      requires name in entries && entries[name].Directory?
      modifies this
      ensures faults >= old(faults)
      ensures faults == old(faults) ==> (ok <==> path !in old(entries)[name].files)
      ensures ok ==> path !in old(entries)[name].files
                     && entries == old(entries)[name := Directory(old(entries)[name].files[path := content])]
      ensures !ok ==> name in entries && entries[name].Directory? && SameElsewhere(entries, old(entries), name)
      ensures history == old(history) + [entries]
    {
      var files := entries[name].files;
      if path in files {
        ok := false;
      } else if * {
        ok := false;
        faults := faults + 1;
        var part: seq<nat> := *;
        if * { files := files[path := Raw(part)]; }
      } else {
        ok := true;
        files := files[path := content];
      }
      entries := entries[name := Directory(files)];
      history := history + [entries];
    }

    /** `rename` of a directory, which succeeds only onto nothing or onto an empty directory. */
    method Rename(source: string, target: string) returns (error: Option<Code>)
      requires source != target
      modifies this
      ensures faults >= old(faults)
      ensures faults == old(faults) ==> (error.None? <==> CanRename(old(entries), source, target))
      ensures error.None? ==> CanRename(old(entries), source, target)
      ensures entries == if error.None? then Renamed(old(entries), source, target) else old(entries)
      ensures history == old(history) + [entries]
    {
      if !CanRename(entries, source, target) {
        error := Some(OtherCode);
      } else if * {
        var code: Code := *;
        error := Some(code);
        faults := faults + 1;
      } else {
        error := None;
        entries := Renamed(entries, source, target);
      }
      history := history + [entries];
    }

    /** `rm` with `recursive` and `force`: file by file, and possibly not to the end. */
    method RemoveTree(name: string) returns (ok: bool)
      modifies this
      ensures faults >= old(faults) && (faults == old(faults) ==> ok)
      ensures if ok then entries == old(entries) - {name}
              else name in old(entries) && name in entries && SameElsewhere(entries, old(entries), name)
      ensures Extends(history, old(history))
      ensures forall k :: |old(history)| <= k < |history| ==> SameElsewhere(history[k], old(entries), name)
    {
      if name !in entries { return true; }
      ok := Empty(name);
      if !ok { return; }
      ok := false;
      if * {
        faults := faults + 1;
        return;
      }
      entries := entries - {name};
      history := history + [entries];
      ok := true;
    }

    /** Deletes the files of `name` one by one. */
    method Empty(name: string) returns (ok: bool)
      requires name in entries
      modifies this
      ensures faults >= old(faults) && (faults == old(faults) ==> ok)
      ensures name in entries && SameElsewhere(entries, old(entries), name)
      ensures Extends(history, old(history))
      ensures forall k :: |old(history)| <= k < |history| ==> SameElsewhere(history[k], old(entries), name)
    {
      if entries[name].NotDirectory? { return true; }
      var files := entries[name].files;
      while files != map[]
        invariant name in entries && SameElsewhere(entries, old(entries), name)
        invariant faults == old(faults)
        invariant Extends(history, old(history))
        invariant forall k :: |old(history)| <= k < |history| ==> SameElsewhere(history[k], old(entries), name)
        decreases |files.Keys|
      {
        if * {
          faults := faults + 1;
          return false;
        }
        assert files.Keys != {};
        var path :| path in files;
        assert (files - {path}).Keys == files.Keys - {path};
        files := files - {path};
        entries := entries[name := Directory(files)];
        history := history + [entries];
      }
      ok := true;
    }
  }

  /** The two states agree on every entry but `name`. */
  ghost predicate SameElsewhere(a: Entries, b: Entries, name: string) {
    forall k :: k != name ==> (k in a <==> k in b) && (k in a && k in b ==> a[k] == b[k])
  }

  ghost predicate Extends(later: seq<Entries>, earlier: seq<Entries>) {
    |earlier| <= |later| && later[..|earlier|] == earlier
  }

  predicate HasFile(entries: Entries, name: string, path: string) {
    name in entries && entries[name].Directory? && path in entries[name].files
  }

  predicate CanRename(entries: Entries, source: string, target: string) {
    && source in entries && entries[source].Directory?
    && (target in entries ==> entries[target] == Directory(map[]))
  }

  function Renamed(entries: Entries, source: string, target: string): Entries
    requires source in entries
  {
    (entries - {source})[target := entries[source]]
  }

  /** Some name with the given prefix that is not in use. */
  function Unused(prefix: string, used: set<string>): (name: string)
    ensures prefix <= name && name !in used
    decreases |used|
  {
    if prefix !in used then prefix
    else
      var name := Unused(prefix + "x", used - {prefix});
      name
  }
}
