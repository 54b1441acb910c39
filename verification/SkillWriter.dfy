/** Installing a skill's directory, all or nothing. */
module SkillWriter {
  import opened Wrappers
  import opened Disk
  import opened Metadata

  datatype VerifiedFile = VerifiedFile(path: string, content: Content)

  datatype ConflictCode = NOT_OURS | OTHER_SOURCE | LOCALLY_MODIFIED

  /** How a call ends: it returns, or it throws, leaving the old install in place or at the backup. */
  datatype Outcome =
    | Written(replaced: bool)
    | InvalidName
    | Conflict(code: ConflictCode)
    | Failed(restored: bool)

  predicate LowerAlphanumeric(c: char) {
    'a' <= c <= 'z' || '0' <= c <= '9'
  }

  /** Device names that Windows refuses as a file name; those with an extension cannot occur here. */
  predicate IsDeviceName(name: string) {
    || (|name| == 3 && name in ["con", "prn", "aux", "nul"])
    || (|name| == 4 && name[..3] in ["com", "lpt"] && '1' <= name[3] <= '9')
  }

  /** 1 to 64 lower-case letters, digits and hyphens, not starting with a hyphen, and no device name. */
  predicate IsSafeSkillDirName(name: string) {
    && 1 <= |name| <= 64 && LowerAlphanumeric(name[0])
    && (forall i :: 0 <= i < |name| ==> LowerAlphanumeric(name[i]) || name[i] == '-')
    && !IsDeviceName(name)
  }

  /** The ASCII codes of the digits, of the lower-case letters and of the hyphen. */
  predicate NameCode(code: int) {
    48 <= code < 58 || 97 <= code < 123 || code == 45
  }

  lemma DeviceNames(name: string)
    ensures IsDeviceName(name) <==>
              || name in {"con", "prn", "aux", "nul"}
              || exists d :: d in "123456789" && (name == "com" + [d] || name == "lpt" + [d])
  {
    if |name| == 4 {
      assert name == name[..3] + [name[3]];
      if '1' <= name[3] <= '9' {
        assert "123456789"[(name[3] - '1') as int] == name[3];
      }
    }
  }

  /** A skill's name is safe as a directory name if and only if it is short, of these characters and no device's. */
  lemma SafeNames(name: string)
    ensures IsSafeSkillDirName(name) <==>
              && 0 < |name| < 65 && name[0] != '-'
              && (forall i :: 0 <= i < |name| ==> NameCode(name[i] as int))
              && name !in {"con", "prn", "aux", "nul"}
              && (forall d :: d in "123456789" ==> name != "com" + [d] && name != "lpt" + [d])
  {
    forall i | 0 <= i < |name|
      ensures LowerAlphanumeric(name[i]) || name[i] == '-' <==> NameCode(name[i] as int)
    {}
    DeviceNames(name);
  }

  const STAGING_PREFIX := ".sourceweft-tmp-"

  /** The finished tree: the given files and the metadata file. */
  function NewTree(files: seq<VerifiedFile>, metadata: Installed): map<string, Content> {
    FileMap(files)[METADATA_FILE := Document(Serialize(metadata))]
  }

  function FileMap(files: seq<VerifiedFile>): map<string, Content>
    decreases |files|
  {
    if files == [] then map[]
    else FileMap(files[..|files| - 1])[files[|files| - 1].path := files[|files| - 1].content]
  }

  predicate BusyRename(code: Code) {
    code.EPERM? || code.EBUSY? || code.EACCES?
  }

  /** Every state since `from` is one of the two. */
  ghost predicate OneOf(history: seq<Entries>, from: nat, a: Entries, b: Entries) {
    forall k :: from <= k < |history| ==> history[k] == a || history[k] == b
  }

  /**
   `renameWithRetry`: after a busy error it tries again while it has a pause left; any other error
   stands. On platforms other than Windows there are no pauses, so there is one attempt.
   */
  method RenameWithRetry(root: SkillsRoot, source: string, target: string, pauses: nat)
    returns (error: Option<Code>, ghost attempts: nat, ghost refused: seq<Code>)
    requires source != target
    modifies root
    ensures root.faults >= old(root.faults)
    ensures root.faults == old(root.faults) ==> (error.None? <==> CanRename(old(root.entries), source, target))
    ensures error.None? ==> CanRename(old(root.entries), source, target)
    ensures root.entries == if error.None? then Renamed(old(root.entries), source, target) else old(root.entries)
    ensures 1 <= attempts <= pauses + 1
    ensures attempts == |refused| + if error.None? then 1 else 0
    ensures forall i :: 0 <= i < attempts - 1 ==> refused[i] in {EPERM, EBUSY, EACCES}
    ensures error.Some? ==> error.value == refused[|refused| - 1]
    ensures error.Some? && attempts <= pauses ==> error.value !in {EPERM, EBUSY, EACCES}
    ensures |root.history| == |old(root.history)| + attempts
    ensures Extends(root.history, old(root.history)) && OneOf(root.history, |old(root.history)|, old(root.entries), root.entries)
  {
    attempts, refused := 0, [];
    var attempt := 0;
    while true
      invariant attempt == attempts == |refused| <= pauses
      invariant forall i :: 0 <= i < |refused| ==> refused[i] in {EPERM, EBUSY, EACCES}
      invariant root.entries == old(root.entries) && root.faults >= old(root.faults)
      invariant attempt > 0 && root.faults == old(root.faults) ==> !CanRename(old(root.entries), source, target)
      invariant |root.history| == |old(root.history)| + attempts && Extends(root.history, old(root.history))
      invariant OneOf(root.history, |old(root.history)|, old(root.entries), root.entries)
      decreases pauses - attempt
    {
      error := root.Rename(source, target);
      attempts := attempts + 1;
      if error.None? { return; }
      refused := refused + [error.value];
      if attempt >= pauses || !BusyRename(error.value) { return; }
      attempt := attempt + 1;
    }
  }

  /** What every state during the call shows at `name`: the original, the new tree, or nothing at all. */
  ghost predicate Sound(h: Entries, before: Entries, name: string, backup: string, tree: map<string, Content>, replaced: bool) {
    if name in h then h[name] == Directory(tree) || (name in before && h[name] == before[name])
    else name !in before || (replaced && backup in h && h[backup] == before[name])
  }

  /** The two states agree on every entry except the three that the call works on. */
  ghost predicate SameExcept(a: Entries, b: Entries, x: string, y: string, z: string) {
    forall k :: k != x && k != y && k != z ==> (k in a <==> k in b) && (k in a && k in b ==> a[k] == b[k])
  }

  /** The checks before anything is written: may what is at `name` be replaced? */
  method CheckTarget(root: SkillsRoot, name: string, metadata: Installed, force: bool, sha256: Content -> string)
    returns (replaced: bool, refusal: Option<Outcome>)
    modifies root`faults
    ensures root.faults >= old(root.faults)
    ensures refusal.Some? ==> refusal.value.Conflict? || (refusal.value == Failed(true) && root.faults > old(root.faults))
    ensures refusal.None? && replaced ==>
              && name in root.entries && Recorded(root.entries, name).Some?
              && var m := Recorded(root.entries, name).value;
                 && m.slug == metadata.slug && m.registry == metadata.registry
                 && root.entries[name].Directory?
                 && (force || !HasLocalChanges(Changes(root.entries[name].files, m, sha256), true))
    ensures root.faults == old(root.faults) ==>
              && (refusal.None? ==> replaced == (name in root.entries))
              && refusal == if name in root.entries then Refusal(root.entries[name], metadata, force, sha256) else None
  {
    replaced := false;
    var there := root.Exists(name);
    if !there { return false, None; }
    var existing := ReadMetadata(root, name);
    if existing.None? {
      return false, Some(Conflict(NOT_OURS));
    }
    if existing.value.slug != metadata.slug || existing.value.registry != metadata.registry {
      return false, Some(Conflict(OTHER_SOURCE));
    }
    if !force {
      var changes := DetectLocalChanges(root, name, existing.value, sha256);
      if changes.None? {
        return false, Some(Failed(true));
      }
      if HasLocalChanges(changes.value, true) {
        return false, Some(Conflict(LOCALLY_MODIFIED));
      }
      var c := Changes(root.entries[name].files, existing.value, sha256);
      assert c.modified <= changes.value.modified + changes.value.missing == {};
    }
    return true, None;
  }

  /** The refusal that an entry already at the target calls for, if any. */
  function Refusal(e: Entry, metadata: Installed, force: bool, sha256: Content -> string): Option<Outcome> {
    if e.NotDirectory? || METADATA_FILE !in e.files || Parse(e.files[METADATA_FILE]).None? then Some(Conflict(NOT_OURS))
    else
      var m := Parse(e.files[METADATA_FILE]).value;
      if m.slug != metadata.slug || m.registry != metadata.registry then Some(Conflict(OTHER_SOURCE))
      else if !force && HasLocalChanges(Changes(e.files, m, sha256), true) then Some(Conflict(LOCALLY_MODIFIED))
      else None
  }

  /** The entry is an install of this tool: a directory with a readable record. */
  predicate IsOurs(e: Entry) {
    e.Directory? && METADATA_FILE in e.files && Parse(e.files[METADATA_FILE]).Some?
  }

  /** The record in it names the same slug of the same registry. */
  predicate IsSameSkill(e: Entry, metadata: Installed)
    requires IsOurs(e)
  {
    var m := Parse(e.files[METADATA_FILE]).value;
    m.slug == metadata.slug && m.registry == metadata.registry
  }

  /** Nothing recorded was edited or removed, and nothing was added that the record's object has no property for. */
  ghost predicate IsUnedited(e: Entry, sha256: Content -> string)
    requires IsOurs(e)
  {
    var m := Parse(e.files[METADATA_FILE]).value;
    && RecordedIntact(e.files, m, sha256)
    && forall q :: q in e.files && q != METADATA_FILE && q !in m.files ==> q in INHERITED
  }

  /** Which refusal belongs to which reason, and that there is no other. */
  lemma RefusalMeans(e: Entry, metadata: Installed, force: bool, sha256: Content -> string)
    ensures var refusal := Refusal(e, metadata, force, sha256);
            && (refusal == Some(Conflict(NOT_OURS)) <==> !IsOurs(e))
            && (refusal == Some(Conflict(OTHER_SOURCE)) <==> IsOurs(e) && !IsSameSkill(e, metadata))
            && (refusal == Some(Conflict(LOCALLY_MODIFIED)) <==>
                IsOurs(e) && IsSameSkill(e, metadata) && !force && !IsUnedited(e, sha256))
            && (refusal.None? <==> IsOurs(e) && IsSameSkill(e, metadata) && (force || IsUnedited(e, sha256)))
  {
    if IsOurs(e) { NoChangesMeansIntact(e.files, Parse(e.files[METADATA_FILE]).value, sha256); }
  }

  /** The bundle can be written: safe paths, none of them twice, none of them the metadata file. */
  ghost predicate Writable(files: seq<VerifiedFile>, safePath: string -> bool) {
    && (forall i :: 0 <= i < |files| ==> safePath(files[i].path) && files[i].path != METADATA_FILE)
    && (forall i, j :: 0 <= i < j < |files| ==> files[i].path != files[j].path)
  }

  lemma {:induction false} FileMapKeys(files: seq<VerifiedFile>, path: string)
    ensures path in FileMap(files) <==> exists i :: 0 <= i < |files| && files[i].path == path
    decreases |files|
  {
    if files != [] {
      var front := files[..|files| - 1];
      FileMapKeys(front, path);
      if exists i :: 0 <= i < |front| && front[i].path == path {
        var i :| 0 <= i < |front| && front[i].path == path;
        assert files[i].path == path;
      }
    }
  }

  /** One more file can be written exactly when its path is safe, not reserved and new. */
  lemma WritableStep(files: seq<VerifiedFile>, i: nat, safePath: string -> bool)
    requires i < |files| && Writable(files[..i], safePath)
    ensures var f := files[i];
            var good := safePath(f.path) && f.path != METADATA_FILE && f.path !in FileMap(files[..i]);
            (good <==> Writable(files[..i + 1], safePath)) && (!good ==> !Writable(files, safePath))
  {
    FileMapKeys(files[..i], files[i].path);
    var more := files[..i + 1];
    if files[i].path in FileMap(files[..i]) {
      var j :| 0 <= j < i && files[..i][j].path == files[i].path;
      assert more[j].path == more[i].path && files[j].path == files[i].path;
    }
    assert more[i] == files[i];
    forall j | 0 <= j < i ensures more[j] == files[..i][j] {}
  }

  /** Every state since `from` differs from `before` at most in the entry `name`. */
  ghost predicate OnlyTouched(history: seq<Entries>, from: nat, before: Entries, name: string) {
    forall k :: from <= k < |history| ==> SameElsewhere(history[k], before, name)
  }

  lemma JoinTouched(early: seq<Entries>, late: seq<Entries>, from: nat, before: Entries, e: Entries, name: string)
    requires Extends(late, early) && SameElsewhere(e, before, name)
    requires OnlyTouched(early, from, before, name) && OnlyTouched(late, |early|, e, name)
    ensures OnlyTouched(late, from, before, name)
  {
    forall k | from <= k < |late| ensures SameElsewhere(late[k], before, name) {
      if k < |early| { assert late[k] == late[..|early|][k] == early[k]; }
    }
  }

  /** One round of the loop in `writeSkillDir`: refuse an unsafe path, or write a file that must be new. */
  method StageFile(root: SkillsRoot, staging: string, file: VerifiedFile, safePath: string -> bool) returns (ok: bool)
    requires staging in root.entries && root.entries[staging].Directory?
    modifies root
    ensures root.faults >= old(root.faults)
    ensures staging in root.entries && root.entries[staging].Directory?
    ensures SameElsewhere(root.entries, old(root.entries), staging)
    ensures Extends(root.history, old(root.history)) && OnlyTouched(root.history, |old(root.history)|, old(root.entries), staging)
    ensures var files := old(root.entries)[staging].files;
            && (ok ==> safePath(file.path) && file.path != METADATA_FILE && file.path !in files
                       && root.entries[staging].files == files[file.path := file.content])
            && (root.faults == old(root.faults) ==>
                  (ok <==> safePath(file.path) && file.path != METADATA_FILE && file.path !in files))
  {
    if !safePath(file.path) || file.path == METADATA_FILE { return false; }
    ok := root.MakeParents();
    if !ok { return; }
    ok := root.WriteNew(staging, file.path, file.content);
  }

  /** Writes the files into the staging directory, in order, until one is refused. */
  method StageFiles(root: SkillsRoot, staging: string, files: seq<VerifiedFile>, safePath: string -> bool) returns (ok: bool)
    requires staging in root.entries && root.entries[staging] == Directory(map[])
    modifies root
    ensures root.faults >= old(root.faults)
    ensures staging in root.entries && root.entries[staging].Directory?
    ensures SameElsewhere(root.entries, old(root.entries), staging)
    ensures Extends(root.history, old(root.history)) && OnlyTouched(root.history, |old(root.history)|, old(root.entries), staging)
    ensures ok ==> root.entries[staging].files == FileMap(files) && Writable(files, safePath)
    ensures root.faults == old(root.faults) ==> (ok <==> Writable(files, safePath))
  {
    var i := 0;
    while i < |files|
      invariant 0 <= i <= |files| && root.faults >= old(root.faults)
      invariant staging in root.entries && root.entries[staging] == Directory(FileMap(files[..i]))
      invariant SameElsewhere(root.entries, old(root.entries), staging)
      invariant Extends(root.history, old(root.history)) && OnlyTouched(root.history, |old(root.history)|, old(root.entries), staging)
      invariant Writable(files[..i], safePath)
    {
      assert files[..i + 1][..i] == files[..i];
      ghost var h, e := root.history, root.entries;
      ok := StageFile(root, staging, files[i], safePath);
      JoinTouched(h, root.history, |old(root.history)|, old(root.entries), e, staging);
      WritableStep(files, i, safePath);
      if !ok { return; }
      i := i + 1;
    }
    assert files[..i] == files;
    ok := true;
  }

  /** Writes the files and the metadata into the staging directory. */
  method FillStaging(root: SkillsRoot, staging: string, files: seq<VerifiedFile>, metadata: Installed, safePath: string -> bool)
    returns (ok: bool)
    requires staging in root.entries && root.entries[staging] == Directory(map[])
    modifies root
    ensures root.faults >= old(root.faults)
    ensures staging in root.entries && root.entries[staging].Directory?
    ensures SameElsewhere(root.entries, old(root.entries), staging)
    ensures Extends(root.history, old(root.history)) && OnlyTouched(root.history, |old(root.history)|, old(root.entries), staging)
    ensures ok ==> root.entries[staging].files == NewTree(files, metadata) && Writable(files, safePath)
    ensures root.faults == old(root.faults) ==> (ok <==> Writable(files, safePath))
  {
    ok := StageFiles(root, staging, files, safePath);
    if !ok { return; }
    assert METADATA_FILE !in FileMap(files) by { FileMapKeys(files, METADATA_FILE); }
    ghost var h, e := root.history, root.entries;
    ok := root.WriteNew(staging, METADATA_FILE, Document(Serialize(metadata)));
    assert ok ==> root.entries[staging] == Directory(NewTree(files, metadata));
    JoinTouched(h, root.history, |old(root.history)|, old(root.entries), e, staging);
  }

  /** Every state since `from` is one that a crash may leave behind. */
  ghost predicate Crashproof(history: seq<Entries>, from: nat, before: Entries, name: string, staging: string, backup: string,
                             tree: map<string, Content>, replaced: bool)
  {
    forall k :: from <= k < |history| ==>
      Sound(history[k], before, name, backup, tree, replaced) && SameExcept(history[k], before, name, staging, backup)
  }

  lemma EitherCrashproof(history: seq<Entries>, from: nat, a: Entries, b: Entries, before: Entries, name: string, staging: string,
                         backup: string, tree: map<string, Content>, replaced: bool)
    requires OneOf(history, from, a, b)
    requires Sound(a, before, name, backup, tree, replaced) && SameExcept(a, before, name, staging, backup)
    requires Sound(b, before, name, backup, tree, replaced) && SameExcept(b, before, name, staging, backup)
    ensures Crashproof(history, from, before, name, staging, backup, tree, replaced)
  {}

  /** Moves the staged tree to where nothing was seen. */
  method Place(root: SkillsRoot, name: string, staging: string, ghost backup: string, pauses: nat, ghost tree: map<string, Content>)
    returns (outcome: Outcome)
    requires name != staging && name != backup && staging != backup
    requires staging in root.entries && root.entries[staging] == Directory(tree)
    modifies root
    ensures root.faults >= old(root.faults)
    ensures outcome == Written(false) || outcome == Failed(true)
    ensures outcome.Failed? && root.faults == old(root.faults) ==> name in old(root.entries)
    ensures outcome.Written? ==> CanRename(old(root.entries), staging, name)
    ensures Extends(root.history, old(root.history))
    ensures Crashproof(root.history, |old(root.history)|, old(root.entries), name, staging, backup, tree, false)
    ensures root.entries == if outcome.Written? then Renamed(old(root.entries), staging, name) else old(root.entries)
  {
    var error, _, _ := RenameWithRetry(root, staging, name, pauses);
    outcome := if error.None? then Written(false) else Failed(true);
  }

  /** Puts the old install back when the new one could not take its place. */
  method PutBack(root: SkillsRoot, name: string, ghost staging: string, backup: string, pauses: nat,
                 ghost tree: map<string, Content>, ghost before: Entries)
    returns (outcome: Outcome)
    requires name != staging && name != backup && staging != backup
    requires name in before && before[name].Directory? && root.entries == Renamed(before, name, backup)
    modifies root
    ensures root.faults >= old(root.faults)
    ensures outcome.Failed? && Extends(root.history, old(root.history))
    ensures Crashproof(root.history, |old(root.history)|, before, name, staging, backup, tree, true)
    ensures root.entries == if outcome == Failed(true) then before - {backup} else Renamed(before, name, backup)
  {
    ghost var e := root.entries;
    var back, _, _ := RenameWithRetry(root, backup, name, pauses);
    if back.None? {
      assert Renamed(Renamed(before, name, backup), backup, name) == before - {backup};
    }
    EitherCrashproof(root.history, |old(root.history)|, e, root.entries, before, name, staging, backup, tree, true);
    outcome := Failed(back.None?);
  }

  /** Moves the old install out of the way, and back again if the new one cannot take its place. */
  method Exchange(root: SkillsRoot, name: string, staging: string, backup: string, pauses: nat, ghost tree: map<string, Content>)
    returns (outcome: Outcome)
    requires name != staging && name != backup && staging != backup
    requires staging in root.entries && root.entries[staging] == Directory(tree)
    requires name in root.entries && root.entries[name].Directory?
    modifies root
    ensures root.faults >= old(root.faults)
    ensures outcome == Written(true) || outcome.Failed?
    ensures outcome.Failed? && root.faults == old(root.faults) ==> !CanRename(old(root.entries), name, backup)
    ensures Extends(root.history, old(root.history))
    ensures Crashproof(root.history, |old(root.history)|, old(root.entries), name, staging, backup, tree, true)
    ensures if outcome.Written? then root.entries == Renamed(Renamed(old(root.entries), name, backup), staging, name)
            else if outcome == Failed(true) then root.entries == old(root.entries) || root.entries == old(root.entries) - {backup}
            else root.entries == Renamed(old(root.entries), name, backup)
  {
    ghost var before := root.entries;
    ghost var start := |root.history|;
    var aside, _, _ := RenameWithRetry(root, name, backup, pauses);
    ghost var e1 := root.entries;
    EitherCrashproof(root.history, start, before, e1, before, name, staging, backup, tree, true);
    if aside.Some? { return Failed(true); }
    ghost var h1 := root.history;
    var placed, _, _ := RenameWithRetry(root, staging, name, pauses);
    ghost var e2 := root.entries;
    EitherCrashproof(root.history, |h1|, e1, e2, before, name, staging, backup, tree, true);
    JoinCrashproof(h1, root.history, start, before, name, staging, backup, tree, true);
    if placed.None? { return Written(true); }
    ghost var h2 := root.history;
    outcome := PutBack(root, name, staging, backup, pauses, tree, before);
    JoinCrashproof(h2, root.history, start, before, name, staging, backup, tree, true);
  }

  /** Work on the staging directory, or on the backup once the new tree is in place, spoils nothing. */
  lemma StaysCrashproof(history: seq<Entries>, from: nat, e: Entries, before: Entries, name: string, staging: string,
                        backup: string, tree: map<string, Content>, replaced: bool, x: string)
    requires name != staging && name != backup && staging != backup
    requires OnlyTouched(history, from, e, x)
    requires Sound(e, before, name, backup, tree, replaced) && SameExcept(e, before, name, staging, backup)
    requires x == staging || (x == backup && name in e && e[name] == Directory(tree))
    ensures Crashproof(history, from, before, name, staging, backup, tree, replaced)
  {
    forall k | from <= k < |history|
      ensures Sound(history[k], before, name, backup, tree, replaced) && SameExcept(history[k], before, name, staging, backup)
    {
      assert SameElsewhere(history[k], e, x);
    }
  }

  lemma JoinCrashproof(early: seq<Entries>, late: seq<Entries>, from: nat, before: Entries, name: string, staging: string,
                       backup: string, tree: map<string, Content>, replaced: bool)
    requires Extends(late, early)
    requires Crashproof(early, from, before, name, staging, backup, tree, replaced)
    requires Crashproof(late, |early|, before, name, staging, backup, tree, replaced)
    ensures Crashproof(late, from, before, name, staging, backup, tree, replaced)
  {
    forall k | from <= k < |late|
      ensures Sound(late[k], before, name, backup, tree, replaced) && SameExcept(late[k], before, name, staging, backup)
    {
      if k < |early| { assert late[k] == late[..|early|][k] == early[k]; }
    }
  }

  /** A state that agrees with `before` on the target is as good a starting point. */
  lemma RebaseCrashproof(history: seq<Entries>, from: nat, e: Entries, before: Entries, name: string, staging: string,
                         backup: string, tree: map<string, Content>, replaced: bool)
    requires name != staging && SameElsewhere(e, before, staging)
    requires Crashproof(history, from, e, name, staging, backup, tree, replaced)
    ensures Crashproof(history, from, before, name, staging, backup, tree, true)
  {
    forall k | from <= k < |history|
      ensures Sound(history[k], before, name, backup, tree, true) && SameExcept(history[k], before, name, staging, backup)
    {
      assert Sound(history[k], e, name, backup, tree, replaced);
      assert SameExcept(history[k], e, name, staging, backup);
    }
  }

  /** What a call leaves behind. */
  ghost predicate Settled(after: Entries, before: Entries, outcome: Outcome, name: string, staging: string, backup: string,
                          tree: map<string, Content>)
  {
    && SameExcept(after, before, name, staging, backup)
    && (if outcome.Written? then name in after && after[name] == Directory(tree)
        else if outcome == Failed(false) then name !in after && name in before && backup in after && after[backup] == before[name]
        else (name in after <==> name in before) && (name in before ==> after[name] == before[name]))
  }

  /** Deletes the old install once the new one is in place, or the staging directory after a failure. */
  method CleanUp(root: SkillsRoot, outcome: Outcome, name: string, staging: string, backup: string,
                 ghost tree: map<string, Content>, ghost before: Entries)
    requires name != staging && name != backup && staging != backup && staging !in before
    requires outcome.Written? || outcome.Failed?
    requires Sound(root.entries, before, name, backup, tree, true) && Settled(root.entries, before, outcome, name, staging, backup, tree)
    requires outcome.Written? ==> staging !in root.entries
    modifies root
    ensures root.faults >= old(root.faults)
    ensures Extends(root.history, old(root.history))
    ensures Crashproof(root.history, |old(root.history)|, before, name, staging, backup, tree, true)
    ensures Settled(root.entries, before, outcome, name, staging, backup, tree)
    ensures outcome.Written? ==> staging !in root.entries
    ensures outcome == Written(false) ==> root.entries == old(root.entries)
    ensures root.faults == old(root.faults) && outcome == Written(true) ==> root.entries == old(root.entries) - {backup}
    ensures root.faults == old(root.faults) && outcome.Failed? ==> root.entries == old(root.entries) - {staging}
  {
    ghost var h := root.history;
    ghost var e := root.entries;
    if outcome == Written(true) {
      var _ := root.RemoveTree(backup);
      StaysCrashproof(root.history, |h|, e, before, name, staging, backup, tree, true, backup);
    } else if outcome.Failed? {
      var _ := root.RemoveTree(staging);
      StaysCrashproof(root.history, |h|, e, before, name, staging, backup, tree, true, staging);
    }
  }

  /** Moves a filled staging directory into place, one way or the other. */
  method Swap(root: SkillsRoot, name: string, staging: string, backup: string, replaced: bool, pauses: nat,
              ghost tree: map<string, Content>, ghost before: Entries)
    returns (outcome: Outcome)
    requires name != staging && name != backup && staging != backup && staging !in before
    requires SameElsewhere(root.entries, before, staging) && staging in root.entries && root.entries[staging] == Directory(tree)
    requires replaced ==> name in before && before[name].Directory?
    modifies root
    ensures root.faults >= old(root.faults)
    ensures outcome == Written(replaced) || outcome.Failed?
    ensures Extends(root.history, old(root.history))
    ensures Crashproof(root.history, |old(root.history)|, before, name, staging, backup, tree, true)
    ensures Sound(root.entries, before, name, backup, tree, true) && Settled(root.entries, before, outcome, name, staging, backup, tree)
    ensures outcome.Written? ==> staging !in root.entries
    ensures outcome == Written(false) && name in before ==> before[name] == Directory(map[])
    ensures root.faults == old(root.faults) && replaced == (name in before) && backup !in before ==>
              && outcome == Written(replaced) && (replaced || backup !in root.entries)
              && root.entries - {backup} == before[name := Directory(tree)]
  {
    ghost var h := root.history;
    ghost var e := root.entries;
    if replaced {
      outcome := Exchange(root, name, staging, backup, pauses, tree);
    } else {
      outcome := Place(root, name, staging, backup, pauses, tree);
    }
    RebaseCrashproof(root.history, |h|, e, before, name, staging, backup, tree, replaced);
  }

  /** Moves a filled staging directory into place and cleans up. */
  method SwapAndClean(root: SkillsRoot, name: string, staging: string, backup: string, replaced: bool, pauses: nat,
                      ghost tree: map<string, Content>, ghost before: Entries)
    returns (outcome: Outcome)
    requires name != staging && name != backup && staging != backup && staging !in before
    requires SameElsewhere(root.entries, before, staging) && staging in root.entries && root.entries[staging] == Directory(tree)
    requires replaced ==> name in before && before[name].Directory?
    modifies root
    ensures root.faults >= old(root.faults)
    ensures outcome == Written(replaced) || outcome.Failed?
    ensures Extends(root.history, old(root.history))
    ensures Crashproof(root.history, |old(root.history)|, before, name, staging, backup, tree, true)
    ensures Settled(root.entries, before, outcome, name, staging, backup, tree)
    ensures outcome.Written? ==> staging !in root.entries
    ensures outcome == Written(false) && name in before ==> before[name] == Directory(map[])
    ensures root.faults == old(root.faults) && replaced == (name in before) && backup !in before ==>
              outcome == Written(replaced) && root.entries == before[name := Directory(tree)]
  {
    outcome := Swap(root, name, staging, backup, replaced, pauses, tree, before);
    ghost var h := root.history;
    CleanUp(root, outcome, name, staging, backup, tree, before);
    JoinCrashproof(h, root.history, |old(root.history)|, before, name, staging, backup, tree, true);
  }

  /** Fills the staging directory, which a crash may leave behind and nothing else. */
  method Stage(root: SkillsRoot, name: string, staging: string, ghost backup: string, files: seq<VerifiedFile>,
               metadata: Installed, safePath: string -> bool, ghost before: Entries)
    returns (ok: bool)
    requires name != staging && name != backup && staging != backup
    requires staging !in before && root.entries == before[staging := Directory(map[])]
    modifies root
    ensures root.faults >= old(root.faults)
    ensures SameElsewhere(root.entries, before, staging) && staging in root.entries
    ensures Extends(root.history, old(root.history))
    ensures Crashproof(root.history, |old(root.history)|, before, name, staging, backup, NewTree(files, metadata), true)
    ensures ok ==> root.entries[staging] == Directory(NewTree(files, metadata)) && Writable(files, safePath)
    ensures root.faults == old(root.faults) ==> (ok <==> Writable(files, safePath))
  {
    ghost var e := root.entries;
    ok := FillStaging(root, staging, files, metadata, safePath);
    StaysCrashproof(root.history, |old(root.history)|, e, before, name, staging, backup, NewTree(files, metadata), true, staging);
  }

  /** Deletes a staging directory that could not be filled. */
  method GiveUp(root: SkillsRoot, ghost name: string, staging: string, ghost backup: string, ghost tree: map<string, Content>,
                ghost before: Entries)
    returns (outcome: Outcome)
    requires name != staging && name != backup && staging != backup && staging !in before
    requires SameElsewhere(root.entries, before, staging) && staging in root.entries
    modifies root
    ensures root.faults >= old(root.faults)
    ensures outcome == Failed(true) && Extends(root.history, old(root.history))
    ensures Crashproof(root.history, |old(root.history)|, before, name, staging, backup, tree, true)
    ensures Settled(root.entries, before, outcome, name, staging, backup, tree)
    ensures root.faults == old(root.faults) ==> root.entries == before
  {
    ghost var e := root.entries;
    var _ := root.RemoveTree(staging);
    StaysCrashproof(root.history, |old(root.history)|, e, before, name, staging, backup, tree, true, staging);
    outcome := Failed(true);
  }

  /** The part of `writeSkillDir` after its checks: stage everything, move it into place, clean up. */
  method Install(root: SkillsRoot, name: string, staging: string, backup: string, files: seq<VerifiedFile>, metadata: Installed,
                 replaced: bool, safePath: string -> bool, pauses: nat, ghost before: Entries)
    returns (outcome: Outcome)
    requires name != staging && name != backup && staging != backup
    requires staging !in before && root.entries == before[staging := Directory(map[])]
    requires replaced ==> name in before && before[name].Directory?
    modifies root
    ensures root.faults >= old(root.faults)
    ensures outcome == Written(replaced) || outcome.Failed?
    ensures Extends(root.history, old(root.history))
    ensures Crashproof(root.history, |old(root.history)|, before, name, staging, backup, NewTree(files, metadata), true)
    ensures Settled(root.entries, before, outcome, name, staging, backup, NewTree(files, metadata))
    ensures outcome.Written? ==> staging !in root.entries && Writable(files, safePath)
    ensures outcome == Written(false) && name in before ==> before[name] == Directory(map[])
    ensures root.faults == old(root.faults) && replaced == (name in before) && backup !in before ==>
              if !Writable(files, safePath) then outcome == Failed(true) && root.entries == before
              else outcome == Written(replaced) && root.entries == before[name := Directory(NewTree(files, metadata))]
  {
    ghost var tree := NewTree(files, metadata);
    var filled := Stage(root, name, staging, backup, files, metadata, safePath, before);
    ghost var h := root.history;
    if filled {
      outcome := SwapAndClean(root, name, staging, backup, replaced, pauses, tree, before);
    } else {
      outcome := GiveUp(root, name, staging, backup, tree, before);
    }
    JoinCrashproof(h, root.history, |old(root.history)|, before, name, staging, backup, tree, true);
  }

  lemma StagingNames(name: string, staging: string)
    requires IsSafeSkillDirName(name) && STAGING_PREFIX <= staging
    ensures name != staging && name != staging + ".old" && staging != staging + ".old"
  {
    assert staging[0] == STAGING_PREFIX[0] == '.';
    assert |staging + ".old"| == |staging| + 4;
  }

  /** Makes the staging directory, next to the target, and installs by way of it. */
  method StageAndInstall(root: SkillsRoot, name: string, files: seq<VerifiedFile>, metadata: Installed, replaced: bool,
                         safePath: string -> bool, pauses: nat)
    returns (outcome: Outcome, ghost staging: string, ghost backup: string)
    requires IsSafeSkillDirName(name)
    requires replaced ==> name in root.entries && root.entries[name].Directory?
    modifies root
    ensures root.faults >= old(root.faults)
    ensures outcome == Written(replaced) || outcome.Failed?
    ensures STAGING_PREFIX <= staging && backup == staging + ".old"
    ensures Extends(root.history, old(root.history))
    ensures Crashproof(root.history, |old(root.history)|, old(root.entries), name, staging, backup, NewTree(files, metadata), true)
    ensures Settled(root.entries, old(root.entries), outcome, name, staging, backup, NewTree(files, metadata))
    ensures outcome.Written? ==> staging !in root.entries && Writable(files, safePath)
    ensures outcome == Written(false) && name in old(root.entries) ==> old(root.entries)[name] == Directory(map[])
    ensures root.faults == old(root.faults) && replaced == (name in old(root.entries)) && backup !in old(root.entries) ==>
              if !Writable(files, safePath) then outcome == Failed(true) && root.entries == old(root.entries)
              else outcome == Written(replaced) && root.entries == old(root.entries)[name := Directory(NewTree(files, metadata))]
  {
    staging, backup := STAGING_PREFIX, STAGING_PREFIX + ".old";
    var made := root.MakeParents();
    if !made { return Failed(true), staging, backup; }
    var temporary := root.MakeTemporary(STAGING_PREFIX);
    if temporary.None? { return Failed(true), staging, backup; }
    staging, backup := temporary.value, temporary.value + ".old";
    StagingNames(name, staging);
    outcome := InstallVia(root, name, temporary.value, temporary.value + ".old", files, metadata, replaced, safePath, pauses, old(root.entries), |old(root.history)|);
  }

  /** `Install`, counted from the moment before the staging directory was made. */
  method InstallVia(root: SkillsRoot, name: string, staging: string, backup: string, files: seq<VerifiedFile>, metadata: Installed,
                    replaced: bool, safePath: string -> bool, pauses: nat, ghost before: Entries, ghost start: nat)
    returns (outcome: Outcome)
    requires name != staging && name != backup && staging != backup
    requires staging !in before && root.entries == before[staging := Directory(map[])]
    requires replaced ==> name in before && before[name].Directory?
    requires start + 1 == |root.history| && root.history[start] == root.entries
    modifies root
    ensures root.faults >= old(root.faults)
    ensures outcome == Written(replaced) || outcome.Failed?
    ensures Extends(root.history, old(root.history))
    ensures Crashproof(root.history, start, before, name, staging, backup, NewTree(files, metadata), true)
    ensures Settled(root.entries, before, outcome, name, staging, backup, NewTree(files, metadata))
    ensures outcome.Written? ==> staging !in root.entries && Writable(files, safePath)
    ensures outcome == Written(false) && name in before ==> before[name] == Directory(map[])
    ensures root.faults == old(root.faults) && replaced == (name in before) && backup !in before ==>
              if !Writable(files, safePath) then outcome == Failed(true) && root.entries == before
              else outcome == Written(replaced) && root.entries == before[name := Directory(NewTree(files, metadata))]
  {
    ghost var h := root.history;
    outcome := Install(root, name, staging, backup, files, metadata, replaced, safePath, pauses, before);
    JoinCrashproof(h, root.history, start, before, name, staging, backup, NewTree(files, metadata), true);
  }

  /** The result is exactly what the checks say, and nothing but the new tree is left behind. */
  ghost predicate AsChecked(after: Entries, before: Entries, outcome: Outcome, name: string, files: seq<VerifiedFile>,
                            metadata: Installed, force: bool, safePath: string -> bool, sha256: Content -> string)
  {
    var refusal := if name in before then Refusal(before[name], metadata, force, sha256) else None;
    if refusal.Some? then outcome == refusal.value && after == before
    else if !Writable(files, safePath) then outcome == Failed(true) && after == before
    else outcome == Written(name in before) && after == before[name := Directory(NewTree(files, metadata))]
  }

  /**
   `writeSkillDir`. At every moment the target is what it was, or absent with the whole old install
   at the backup path, or the complete new tree; a call that throws leaves the target as it was unless
   putting the old install back failed too, and then that install is at the backup path; nothing
   else in the directory changes. Without faults the result is exactly the checks' verdict, and
   nothing but the new tree is left.
   */
  method WriteSkillDir(root: SkillsRoot, name: string, files: seq<VerifiedFile>, metadata: Installed, force: bool,
                       safePath: string -> bool, sha256: Content -> string, pauses: nat)
    returns (outcome: Outcome, ghost staging: string, ghost backup: string)
    modifies root
    ensures root.faults >= old(root.faults)
    ensures STAGING_PREFIX <= staging && backup == staging + ".old"
    ensures Extends(root.history, old(root.history))
    ensures Crashproof(root.history, |old(root.history)|, old(root.entries), name, staging, backup, NewTree(files, metadata), true)
    ensures Settled(root.entries, old(root.entries), outcome, name, staging, backup, NewTree(files, metadata))
    ensures outcome == InvalidName <==> !IsSafeSkillDirName(name)
    ensures outcome.Written? ==> staging !in root.entries && Writable(files, safePath)
    ensures outcome == Written(true) ==>
              && name in old(root.entries) && old(root.entries)[name].Directory?
              && Refusal(old(root.entries)[name], metadata, force, sha256) == None
    ensures outcome == Written(false) && name in old(root.entries) ==> old(root.entries)[name] == Directory(map[])
    ensures outcome.InvalidName? || outcome.Conflict? ==>
              root.entries == old(root.entries) && root.history == old(root.history)
    ensures root.faults == old(root.faults) && IsSafeSkillDirName(name) && backup !in old(root.entries) ==>
              AsChecked(root.entries, old(root.entries), outcome, name, files, metadata, force, safePath, sha256)
  {
    staging, backup := STAGING_PREFIX, STAGING_PREFIX + ".old";
    if !IsSafeSkillDirName(name) {
      return InvalidName, staging, backup;
    }
    var replaced, refusal := CheckTarget(root, name, metadata, force, sha256);
    if refusal.Some? { return refusal.value, staging, backup; }
    outcome, staging, backup := StageAndInstall(root, name, files, metadata, replaced, safePath, pauses);
  }
}
