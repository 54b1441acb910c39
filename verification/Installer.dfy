/** Holding a download to the registry's record, adapting SKILL.md, and installing the result. */
module Installer {
  import opened SetFacts
  import opened Wrappers
  import opened Disk
  import opened Metadata
  import opened SkillWriter

  /**
   What the installer uses of other packages: the hash, the byte length, the path check, the key under
   which two paths would be the same file of a case-insensitive disk, and the SKILL.md adapter.
   */
  datatype Tools = Tools(
    sha256: Content -> string,
    size: Content -> int,
    safePath: string -> bool,
    fold: string -> string,
    adapt: (Content, string, string) -> Adaptation)

  /** What becomes of a SKILL.md: its metadata suits the loader, or is rewritten, or cannot be. */
  datatype Adaptation = Suitable | Rewritten(content: Content) | Unsuitable

  datatype ManifestFile = ManifestFile(path: string, sizeBytes: int, contentHash: string)

  datatype Problem =
    | TooManyFiles
    | BundleTooLarge
    | FileTooLarge(path: string)
    | UnsafePath(path: string)
    | ReservedName(path: string)
    | CaseCollision(path: string, other: string)
    | MissingSkillMd
    | Missing(path: string)
    | SizeMismatch(path: string)
    | HashMismatch(path: string)

  const MAX_FILES := 20_000
  const MAX_FILE_BYTES := 64 * 1024 * 1024
  const MAX_BUNDLE_BYTES := 256 * 1024 * 1024
  const SKILL_MD := "SKILL.md"

  function TotalSize(manifest: seq<ManifestFile>): int
    decreases |manifest|
  {
    if manifest == [] then 0
    else TotalSize(manifest[..|manifest| - 1]) + manifest[|manifest| - 1].sizeBytes
  }

  /** A record worth downloading for; two equal paths pass here, and are stopped when writing. */
  ghost predicate GoodRecord(manifest: seq<ManifestFile>, t: Tools) {
    && |manifest| <= MAX_FILES
    && TotalSize(manifest) <= MAX_BUNDLE_BYTES
    && (forall i :: 0 <= i < |manifest| ==> GoodFile(manifest[i], t))
    && (forall i, j :: 0 <= i < j < |manifest| && t.fold(manifest[i].path) == t.fold(manifest[j].path) ==>
          manifest[i].path == manifest[j].path)
    && (exists i :: 0 <= i < |manifest| && manifest[i].path == SKILL_MD)
  }

  predicate GoodFile(f: ManifestFile, t: Tools) {
    f.sizeBytes <= MAX_FILE_BYTES && t.safePath(f.path) && f.path != METADATA_FILE
  }

  /** The pairs `findCaseCollisions` reports: each path against the first kept one with its key. */
  method FindCaseCollisions(manifest: seq<ManifestFile>, t: Tools) returns (collisions: seq<(string, string)>)
    ensures collisions == [] <==>
            forall i, j :: 0 <= i < j < |manifest| && t.fold(manifest[i].path) == t.fold(manifest[j].path) ==>
              manifest[i].path == manifest[j].path
    ensures forall c :: c in collisions ==> c.0 != c.1 && t.fold(c.0) == t.fold(c.1)
  {
    collisions := [];
    var seen: map<string, string> := map[];
    for k := 0 to |manifest|
      invariant forall key :: key in seen ==> t.fold(seen[key]) == key && exists i :: 0 <= i < k && manifest[i].path == seen[key]
      invariant forall i :: 0 <= i < k ==> t.fold(manifest[i].path) in seen
      invariant collisions == [] ==> forall i :: 0 <= i < k ==> seen[t.fold(manifest[i].path)] == manifest[i].path
      invariant collisions != [] ==>
                  exists i, j :: 0 <= i < j < k && t.fold(manifest[i].path) == t.fold(manifest[j].path) && manifest[i].path != manifest[j].path
      invariant forall c :: c in collisions ==> c.0 != c.1 && t.fold(c.0) == t.fold(c.1)
    {
      var path := manifest[k].path;
      var key := t.fold(path);
      if key in seen && seen[key] != path {
        ghost var i :| 0 <= i < k && manifest[i].path == seen[key];
        assert t.fold(manifest[i].path) == t.fold(manifest[k].path) && manifest[i].path != manifest[k].path;
        collisions := collisions + [(seen[key], path)];
      } else {
        seen := seen[key := path];
      }
    }
  }

  /** `checkManifest`: no problem is found exactly in a good record. */
  method CheckManifest(manifest: seq<ManifestFile>, t: Tools) returns (problems: seq<Problem>)
    ensures problems == [] <==> GoodRecord(manifest, t)
  {
    problems := if |manifest| > MAX_FILES then [TooManyFiles] else [];
    var total := 0;
    for k := 0 to |manifest|
      invariant total == TotalSize(manifest[..k])
    {
      assert manifest[..k + 1][..k] == manifest[..k];
      total := total + manifest[k].sizeBytes;
    }
    assert manifest[..|manifest|] == manifest;
    if total > MAX_BUNDLE_BYTES { problems := problems + [BundleTooLarge]; }
    var skillMd := false;
    for k := 0 to |manifest|
      invariant problems == [] <==>
                  && |manifest| <= MAX_FILES && TotalSize(manifest) <= MAX_BUNDLE_BYTES
                  && forall i :: 0 <= i < k ==> GoodFile(manifest[i], t)
      invariant skillMd <==> exists i :: 0 <= i < k && manifest[i].path == SKILL_MD
    {
      var file := manifest[k];
      if file.sizeBytes > MAX_FILE_BYTES { problems := problems + [FileTooLarge(file.path)]; }
      if !t.safePath(file.path) {
        problems := problems + [UnsafePath(file.path)];
      } else if file.path == METADATA_FILE {
        problems := problems + [ReservedName(file.path)];
      }
      skillMd := skillMd || file.path == SKILL_MD;
    }
    var collisions := FindCaseCollisions(manifest, t);
    problems := problems + seq(|collisions|, i requires 0 <= i < |collisions| => CaseCollision(collisions[i].0, collisions[i].1));
    if !skillMd { problems := problems + [MissingSkillMd]; }
  }

  /** The download delivered this file with the recorded size and hash. */
  predicate Delivered(f: ManifestFile, downloaded: map<string, Content>, t: Tools) {
    && f.path in downloaded
    && t.size(downloaded[f.path]) == f.sizeBytes
    && t.sha256(downloaded[f.path]) == f.contentHash
  }

  /** `verifyFiles`: the recorded files, in order, exactly when record and download have no problem. */
  method VerifyFiles(manifest: seq<ManifestFile>, downloaded: map<string, Content>, t: Tools)
    returns (r: Result<seq<VerifiedFile>, seq<Problem>>)
    ensures r.Ok? <==> GoodRecord(manifest, t) && forall i :: 0 <= i < |manifest| ==> Delivered(manifest[i], downloaded, t)
    ensures r.Ok? ==> |r.value| == |manifest|
    ensures r.Ok? ==> forall i :: 0 <= i < |manifest| ==> r.value[i] == VerifiedFile(manifest[i].path, downloaded[manifest[i].path])
    ensures r.Err? ==> r.error != []
  {
    var problems := CheckManifest(manifest, t);
    var verified: seq<VerifiedFile> := [];
    for k := 0 to |manifest|
      invariant problems == [] <==> GoodRecord(manifest, t) && forall i :: 0 <= i < k ==> Delivered(manifest[i], downloaded, t)
      invariant problems == [] ==> |verified| == k
      invariant problems == [] ==> forall i :: 0 <= i < k ==> verified[i] == VerifiedFile(manifest[i].path, downloaded[manifest[i].path])
    {
      var file := manifest[k];
      if file.path !in downloaded {
        problems := problems + [Missing(file.path)];
      } else if t.size(downloaded[file.path]) != file.sizeBytes {
        problems := problems + [SizeMismatch(file.path)];
      } else if t.sha256(downloaded[file.path]) != file.contentHash {
        problems := problems + [HashMismatch(file.path)];
      } else {
        verified := verified + [VerifiedFile(file.path, downloaded[file.path])];
      }
    }
    r := if problems == [] then Ok(verified) else Err(problems);
  }

  // ---------------------------------------------------------------------------------------------
  // The name under which the original SKILL.md is kept.

  function Decimal(n: nat): (s: string)
    ensures s != [] && forall i :: 0 <= i < |s| ==> '0' <= s[i] <= '9'
  {
    if n < 10 then ['0' + (n as char)] else Decimal(n / 10) + ['0' + ((n % 10) as char)]
  }

  /** Different numbers are written differently. */
  lemma {:induction false} DecimalInjective(m: nat, n: nat)
    requires Decimal(m) == Decimal(n)
    ensures m == n
    decreases m
  {
    var s, t := Decimal(m), Decimal(n);
    assert s[|s| - 1] == t[|t| - 1];
    assert m % 10 == n % 10;
    if m >= 10 && n >= 10 {
      assert s[..|s| - 1] == Decimal(m / 10) && t[..|t| - 1] == Decimal(n / 10);
      DecimalInjective(m / 10, n / 10);
    }
  }

  const BACKUP_PREFIX := ".sourceweft-original-"

  /** The candidates after the first two: the digest and a growing number. */
  function Candidate(digest: string, suffix: nat): string {
    BACKUP_PREFIX + digest + "-" + Decimal(suffix) + ".md"
  }

  lemma CandidateInjective(digest: string, m: nat, n: nat)
    requires Candidate(digest, m) == Candidate(digest, n)
    ensures m == n
  {
    var head := BACKUP_PREFIX + digest + "-";
    var c, d := Candidate(digest, m), Candidate(digest, n);
    assert c == head + Decimal(m) + ".md" && d == head + Decimal(n) + ".md";
    assert c[|head|..|c| - 3] == Decimal(m);
    assert d[|head|..|d| - 3] == Decimal(n);
    DecimalInjective(m, n);
  }

  function Lower(c: char): char {
    if 'A' <= c <= 'Z' then c - 'A' + 'a' else c
  }

  function LowerCase(s: string): (r: string)
    ensures |r| == |s|
  {
    seq(|s|, i requires 0 <= i < |s| => Lower(s[i]))
  }

  /** The same character, or the two cases of one ASCII letter. */
  predicate SameLetter(a: char, b: char) {
    || a == b
    || (65 <= a as int < 91 && b as int == a as int + 32)
    || (65 <= b as int < 91 && a as int == b as int + 32)
  }

  lemma LetterCases(a: char, b: char)
    ensures Lower(a) == Lower(b) <==> SameLetter(a, b)
  {}

  /** Two names fold to one exactly if they differ in the case of ASCII letters at most. */
  lemma FoldsTogether(s: string, t: string)
    ensures LowerCase(s) == LowerCase(t) <==> |s| == |t| && forall i :: 0 <= i < |s| ==> SameLetter(s[i], t[i])
  {
    if |s| == |t| {
      forall i | 0 <= i < |s| ensures LowerCase(s)[i] == LowerCase(t)[i] <==> SameLetter(s[i], t[i]) {
        LetterCases(s[i], t[i]);
      }
    }
  }

  predicate IsHex(s: string) {
    |s| == 64 && forall i :: 0 <= i < |s| ==> '0' <= s[i] <= '9' || 'a' <= s[i] <= 'f'
  }

  /** The part of a path before its first slash. */
  function FirstSegment(path: string): string {
    if path == "" || path[0] == '/' then "" else [path[0]] + FirstSegment(path[1..])
  }

  lemma CandidateIsLower(digest: string, n: nat)
    requires IsHex(digest)
    ensures LowerCase(Candidate(digest, n)) == Candidate(digest, n)
  {
    var c := Candidate(digest, n);
    var head := BACKUP_PREFIX + digest + "-";
    assert c == head + Decimal(n) + ".md";
    forall i | 0 <= i < |c| ensures Lower(c[i]) == c[i] {
      if i < |BACKUP_PREFIX| {
        assert c[i] == BACKUP_PREFIX[i];
      } else if i < |BACKUP_PREFIX| + 64 {
        assert c[i] == digest[i - |BACKUP_PREFIX|];
      } else if i < |head| {
      } else if i < |head| + |Decimal(n)| {
        assert c[i] == Decimal(n)[i - |head|];
      }
    }
  }

  /** No hexadecimal digit and no letter of the prefix is a slash, so the name is one segment. */
  predicate IsBackupName(backup: string, digest: string)
    requires IsHex(digest)
  {
    BACKUP_PREFIX <= backup && '/' !in backup
  }

  lemma BackupNames(digest: string, n: nat)
    requires IsHex(digest)
    ensures IsBackupName(BACKUP_PREFIX + digest[..12] + ".md", digest)
    ensures IsBackupName(BACKUP_PREFIX + digest + ".md", digest)
    ensures IsBackupName(Candidate(digest, n), digest)
  {
    NoSlash(BACKUP_PREFIX + digest[..12] + ".md", BACKUP_PREFIX, digest[..12], ".md");
    NoSlash(BACKUP_PREFIX + digest + ".md", BACKUP_PREFIX, digest, ".md");
    NoSlash(BACKUP_PREFIX + digest + "-", BACKUP_PREFIX, digest, "-");
    NoSlash(Candidate(digest, n), BACKUP_PREFIX + digest + "-", Decimal(n), ".md");
  }

  lemma NoSlash(s: string, a: string, b: string, c: string)
    requires s == a + b + c && '/' !in a && '/' !in b && '/' !in c
    ensures '/' !in s && a <= s
  {}

  lemma {:induction false} OneSegment(s: string)
    requires '/' !in s
    ensures FirstSegment(s) == s
    decreases |s|
  {
    if s != "" {
      OneSegment(s[1..]);
    }
  }

  /** Such a name is no path of the bundle and not the metadata file. */
  lemma {:induction false} NewName(files: seq<VerifiedFile>, backup: string)
    requires BACKUP_PREFIX <= backup && '/' !in backup
    requires forall i :: 0 <= i < |files| ==> LowerCase(FirstSegment(files[i].path)) != LowerCase(backup)
    ensures backup != METADATA_FILE && forall i :: 0 <= i < |files| ==> files[i].path != backup
  {
    OneSegment(backup);
    assert backup[11] == BACKUP_PREFIX[11] == '-' && METADATA_FILE[11] == '.';
  }

  /**
   The search for a backup name. It ends after at most one more numbered candidate than there are
   entries, and the name differs from the first segment of every bundle path, whatever the case.
   */
  method BackupName(digest: string, taken: set<string>) returns (backup: string, ghost tried: nat)
    requires IsHex(digest)
    ensures LowerCase(backup) !in taken && IsBackupName(backup, digest)
    ensures tried <= |taken| + 1
    ensures backup == BACKUP_PREFIX + digest[..12] + ".md" || backup == BACKUP_PREFIX + digest + ".md"
            || exists n :: 1 <= n <= |taken| + 1 && backup == Candidate(digest, n)
  {
    backup := BACKUP_PREFIX + digest[..12] + ".md";
    tried := 0;
    if backup in taken { backup := BACKUP_PREFIX + digest + ".md"; }
    var suffix := 1;
    ghost var refuted: set<string> := {};
    while LowerCase(backup) in taken
      invariant 1 <= suffix && tried == suffix - 1
      invariant refuted <= taken && |refuted| == if suffix == 1 then 0 else suffix - 2
      invariant forall c :: c in refuted ==> exists n :: 1 <= n < suffix - 1 && c == Candidate(digest, n)
      invariant if suffix == 1 then backup == BACKUP_PREFIX + digest[..12] + ".md" || backup == BACKUP_PREFIX + digest + ".md"
                else backup == Candidate(digest, suffix - 1)
      decreases |taken| + 1 - suffix
    {
      if suffix > 1 {
        CandidateIsLower(digest, suffix - 1);
        if backup in refuted {
          var n :| 1 <= n < suffix - 1 && backup == Candidate(digest, n);
          CandidateInjective(digest, n, suffix - 1);
        }
        refuted := refuted + {backup};
      }
      SubsetSize(refuted, taken);
      backup := Candidate(digest, suffix);
      suffix := suffix + 1;
      tried := tried + 1;
    }
    SubsetSize(refuted, taken);
    BackupNames(digest, suffix - 1);
  }

  // ---------------------------------------------------------------------------------------------

  datatype Prepared = Prepared(files: seq<VerifiedFile>, sourceFiles: Option<map<string, string>>, originalSkillMd: Option<string>)

  function Hashes(files: seq<VerifiedFile>, sha256: Content -> string): map<string, string>
    decreases |files|
  {
    if files == [] then map[]
    else
      var f := files[|files| - 1];
      Hashes(files[..|files| - 1], sha256)[f.path := sha256(f.content)]
  }

  ghost predicate DistinctPaths(files: seq<VerifiedFile>) {
    forall i, j :: 0 <= i < j < |files| ==> files[i].path != files[j].path
  }

  /** Every file of `files` is in `kept` byte for byte, SKILL.md possibly under the name `original`. */
  ghost predicate OriginalsKept(files: seq<VerifiedFile>, kept: seq<VerifiedFile>, original: Option<string>) {
    forall i :: 0 <= i < |files| ==>
      || files[i] in kept
      || (files[i].path == SKILL_MD && original.Some? && VerifiedFile(original.value, files[i].content) in kept)
  }

  /** The bundle with its SKILL.md rewritten and the original appended under another name. */
  function WithOriginal(files: seq<VerifiedFile>, rewritten: Content, backup: string, original: Content): seq<VerifiedFile> {
    seq(|files|, i requires 0 <= i < |files| =>
          if files[i].path == SKILL_MD then VerifiedFile(SKILL_MD, rewritten) else files[i])
    + [VerifiedFile(backup, original)]
  }

  lemma WithOriginalKeepsAll(files: seq<VerifiedFile>, rewritten: Content, backup: string, k: nat)
    requires DistinctPaths(files) && k < |files| && files[k].path == SKILL_MD
    ensures OriginalsKept(files, WithOriginal(files, rewritten, backup, files[k].content), Some(backup))
  {
    var kept := WithOriginal(files, rewritten, backup, files[k].content);
    assert kept[|files|] == VerifiedFile(backup, files[k].content);
    forall i | 0 <= i < |files| && files[i].path != SKILL_MD ensures files[i] in kept {
      assert kept[i] == files[i];
    }
  }

  /** The content of the first file called SKILL.md. */
  function SkillMd(files: seq<VerifiedFile>): (content: Option<Content>)
    ensures content.None? <==> forall i :: 0 <= i < |files| ==> files[i].path != SKILL_MD
    ensures content.Some? ==> VerifiedFile(SKILL_MD, content.value) in files
  {
    if files == [] then None else if files[0].path == SKILL_MD then Some(files[0].content) else SkillMd(files[1..])
  }

  lemma {:induction false} SkillMdAt(files: seq<VerifiedFile>, k: nat)
    requires k < |files| && files[k].path == SKILL_MD
    requires forall i :: 0 <= i < k ==> files[i].path != SKILL_MD
    ensures SkillMd(files) == Some(files[k].content)
    decreases k
  {
    if k > 0 { SkillMdAt(files[1..], k - 1); }
  }

  /** The same files but for the rewritten SKILL.md, and behind them one under a name that no bundle path uses. */
  ghost predicate Adapted(files: seq<VerifiedFile>, p: Prepared, rewritten: Content, sha256: Content -> string) {
    && p.originalSkillMd.Some? && p.originalSkillMd.value != METADATA_FILE
    && (forall i :: 0 <= i < |files| ==> LowerCase(FirstSegment(files[i].path)) != LowerCase(p.originalSkillMd.value))
    && (forall i :: 0 <= i < |files| ==> files[i].path != p.originalSkillMd.value)
    && |p.files| == |files| + 1 && p.files[|files|].path == p.originalSkillMd.value
    && SkillMd(files) == Some(p.files[|files|].content)
    && (forall i :: 0 <= i < |files| ==> p.files[i].path == files[i].path)
    && (forall i :: 0 <= i < |files| ==>
          p.files[i] == if files[i].path != SKILL_MD then files[i] else VerifiedFile(SKILL_MD, rewritten))
    && p.sourceFiles == Some(Hashes(files, sha256))
  }

  function FirstSegments(files: seq<VerifiedFile>): (taken: set<string>)
    ensures forall i :: 0 <= i < |files| ==> LowerCase(FirstSegment(files[i].path)) in taken
  {
    set i | 0 <= i < |files| :: LowerCase(FirstSegment(files[i].path))
  }

  lemma {:induction false} WithOriginalIsAdapted(files: seq<VerifiedFile>, p: Prepared, backup: string, original: Content, rewritten: Content,
                              sha256: Content -> string)
    requires BACKUP_PREFIX <= backup && '/' !in backup && LowerCase(backup) !in FirstSegments(files)
    requires SkillMd(files) == Some(original)
    requires p == Prepared(WithOriginal(files, rewritten, backup, original), Some(Hashes(files, sha256)), Some(backup))
    ensures Adapted(files, p, rewritten, sha256)
  {
    NewName(files, backup);
  }

  /** Keeps the original SKILL.md under a new name beside the rewritten one. */
  method KeepOriginal(files: seq<VerifiedFile>, k: nat, rewritten: Content, sha256: Content -> string) returns (p: Prepared)
    requires k < |files| && files[k].path == SKILL_MD && IsHex(sha256(files[k].content))
    requires SkillMd(files) == Some(files[k].content)
    ensures Adapted(files, p, rewritten, sha256)
    ensures DistinctPaths(files) ==> OriginalsKept(files, p.files, p.originalSkillMd)
  {
    var taken := FirstSegments(files);
    var backup, _ := BackupName(sha256(files[k].content), taken);
    if DistinctPaths(files) { WithOriginalKeepsAll(files, rewritten, backup, k); }
    p := Prepared(WithOriginal(files, rewritten, backup, files[k].content), Some(Hashes(files, sha256)), Some(backup));
    WithOriginalIsAdapted(files, p, backup, files[k].content, rewritten, sha256);
  }

  /** What is to be written for these files: themselves, or themselves adapted. */
  ghost predicate PreparedFrom(files: seq<VerifiedFile>, p: Prepared, a: Adaptation, sha256: Content -> string) {
    if a.Rewritten? then Adapted(files, p, a.content, sha256) else p == Prepared(files, None, None)
  }

  /**
   `prepareInstalledFiles`; None when it throws, which is exactly when there is no SKILL.md or the first one
   cannot be adapted. Nothing is lost: what is not installed as it came is kept under a new name.
   */
  method PrepareInstalledFiles(files: seq<VerifiedFile>, name: string, description: string, t: Tools)
    returns (r: Option<Prepared>)
    requires forall c :: IsHex(t.sha256(c))
    ensures r.Some? <==> SkillMd(files).Some? && !t.adapt(SkillMd(files).value, name, description).Unsuitable?
    ensures r.Some? ==> PreparedFrom(files, r.value, t.adapt(SkillMd(files).value, name, description), t.sha256)
    ensures r.Some? && DistinctPaths(files) ==> OriginalsKept(files, r.value.files, r.value.originalSkillMd)
  {
    var k := 0;
    while k < |files| && files[k].path != SKILL_MD
      invariant 0 <= k <= |files|
      invariant forall i :: 0 <= i < k ==> files[i].path != SKILL_MD
    {
      k := k + 1;
    }
    if k == |files| { return None; }
    SkillMdAt(files, k);
    var adaptation := t.adapt(files[k].content, name, description);
    match adaptation
    case Unsuitable => r := None;
    case Suitable => r := Some(Prepared(files, None, None));
    case Rewritten(content) =>
      var p := KeepOriginal(files, k, content, t.sha256);
      r := Some(p);
  }

  // ---------------------------------------------------------------------------------------------

  const INSTALL_FORMAT_VERSION := 1

  /** A skill as the registry answers it; `source` is None when it is not pinned to a GitHub commit. */
  datatype Skill = Skill(
    name: string, slug: string, version: string, installRef: Option<string>, license: Option<string>,
    description: string, source: Option<Pinned>, files: seq<ManifestFile>)

  datatype Pinned = Pinned(repoUrl: string, commitSha: string, subpath: string)

  datatype InstallResult =
    | Unchanged(metadata: Installed)
    | Installation(metadata: Installed, replaced: bool)
    | Unsupported
    | CannotRead
    | BadDownload
    | NotVerified(problems: seq<Problem>)
    | NotWritten(outcome: Outcome)

  /** What is at the target is this skill, this commit, and its recorded files are unedited. */
  ghost predicate UpToDate(entries: Entries, skill: Skill, registry: string, t: Tools) {
    && skill.source.Some?
    && Recorded(entries, skill.name).Some?
    && var m := Recorded(entries, skill.name).value;
       && m.slug == skill.slug && m.registry == registry && m.commitSha == skill.source.value.commitSha
       && m.version == skill.version
       && m.installFormatVersion.Some? && m.installFormatVersion.value >= INSTALL_FORMAT_VERSION
       && RecordedIntact(entries[skill.name].files, m, t.sha256)
  }

  function MetadataFor(skill: Skill, registry: string, p: Prepared, t: Tools, now: string): Installed
    requires skill.source.Some?
  {
    Installed(Some(INSTALL_FORMAT_VERSION), p.sourceFiles, p.originalSkillMd, registry, skill.slug, skill.installRef,
              skill.version, Some(skill.source.value.repoUrl), skill.source.value.commitSha, skill.source.value.subpath,
              skill.license, Hashes(p.files, t.sha256), now)
  }

  lemma {:induction false} HashesOf(files: seq<VerifiedFile>, sha256: Content -> string)
    ensures Hashes(files, sha256).Keys == FileMap(files).Keys
    ensures forall p :: p in Hashes(files, sha256) ==> Hashes(files, sha256)[p] == sha256(FileMap(files)[p])
    decreases |files|
  {
    if files != [] { HashesOf(files[..|files| - 1], sha256); }
  }

  /** Right after an install nothing counts as a local change. */
  lemma {:induction false} FreshInstallHasNoChanges(skill: Skill, registry: string, p: Prepared, t: Tools, now: string)
    requires skill.source.Some? && Writable(p.files, t.safePath)
    ensures var m := MetadataFor(skill, registry, p, t, now);
            && Changes(NewTree(p.files, m), m, t.sha256) == LocalChanges({}, {}, {})
            && RecordedIntact(NewTree(p.files, m), m, t.sha256) && NothingElse(NewTree(p.files, m), m)
  {
    var m := MetadataFor(skill, registry, p, t, now);
    HashesOf(p.files, t.sha256);
    FileMapKeys(p.files, METADATA_FILE);
    var c := Changes(NewTree(p.files, m), m, t.sha256);
    assert c.modified == {} && c.missing == {} && c.added == {};
  }

  /** Hence a directory just installed is up to date for the same answer of the registry. */
  lemma {:induction false} FreshInstallIsUpToDate(entries: Entries, skill: Skill, registry: string, p: Prepared, t: Tools, now: string)
    requires skill.source.Some? && Writable(p.files, t.safePath)
    requires skill.name in entries && entries[skill.name] == Directory(NewTree(p.files, MetadataFor(skill, registry, p, t, now)))
    ensures UpToDate(entries, skill, registry, t)
  {
    var m := MetadataFor(skill, registry, p, t, now);
    FreshInstallHasNoChanges(skill, registry, p, t, now);
    ParseSerialize(m);
    assert Recorded(entries, skill.name) == Some(m);
  }

  /** The content of `name` in `entries` is what was downloaded, SKILL.md perhaps under another name. */
  ghost predicate OnDisk(entries: Entries, name: string, manifest: seq<ManifestFile>, downloaded: map<string, Content>, original: Option<string>) {
    && name in entries && entries[name].Directory?
    && forall i :: 0 <= i < |manifest| ==>
         && manifest[i].path in downloaded
         && (|| Holds(entries[name].files, manifest[i].path, downloaded[manifest[i].path])
             || (manifest[i].path == SKILL_MD && original.Some? && Holds(entries[name].files, original.value, downloaded[SKILL_MD])))
  }

  predicate Holds(files: map<string, Content>, path: string, content: Content) {
    path in files && files[path] == content
  }

  lemma {:induction false} FileMapHolds(files: seq<VerifiedFile>, f: VerifiedFile)
    requires DistinctPaths(files) && f in files
    ensures Holds(FileMap(files), f.path, f.content)
    decreases |files|
  {
    var front := files[..|files| - 1];
    if f != files[|files| - 1] {
      FileMapHolds(front, f);
      var i :| 0 <= i < |front| && front[i] == f;
      assert files[i].path != files[|files| - 1].path;
    }
  }

  lemma {:induction false} InstalledOnDisk(entries: Entries, name: string, manifest: seq<ManifestFile>, downloaded: map<string, Content>,
                        verified: seq<VerifiedFile>, p: Prepared, m: Installed, t: Tools)
    requires |verified| == |manifest|
    requires forall i :: 0 <= i < |manifest| ==>
               manifest[i].path in downloaded && verified[i] == VerifiedFile(manifest[i].path, downloaded[manifest[i].path])
    requires Writable(p.files, t.safePath)
    requires DistinctPaths(verified) ==> OriginalsKept(verified, p.files, p.originalSkillMd)
    requires |p.files| >= |verified| && forall i :: 0 <= i < |verified| ==> p.files[i].path == verified[i].path
    requires name in entries && entries[name] == Directory(NewTree(p.files, m))
    ensures OnDisk(entries, name, manifest, downloaded, p.originalSkillMd)
  {
    assert DistinctPaths(verified);
    forall i | 0 <= i < |manifest|
      ensures || Holds(entries[name].files, manifest[i].path, downloaded[manifest[i].path])
              || (manifest[i].path == SKILL_MD && p.originalSkillMd.Some?
                  && Holds(entries[name].files, p.originalSkillMd.value, downloaded[SKILL_MD]))
    {
      FileMapKeys(p.files, METADATA_FILE);
      if verified[i] in p.files {
        FileMapHolds(p.files, verified[i]);
        assert manifest[i].path != METADATA_FILE;
      } else {
        FileMapHolds(p.files, VerifiedFile(p.originalSkillMd.value, verified[i].content));
      }
    }
  }

  /** The record is this install's, field by field, and tells where the original SKILL.md and what came with it are. */
  ghost predicate RecordsInstall(entries: Entries, skill: Skill, registry: string, downloaded: map<string, Content>, now: string, t: Tools) {
    && skill.source.Some? && SKILL_MD in downloaded
    && Recorded(entries, skill.name).Some?
    && var m, files := Recorded(entries, skill.name).value, entries[skill.name].files;
       && m.registry == registry && m.slug == skill.slug && m.installRef == skill.installRef && m.version == skill.version
       && m.repoUrl == Some(skill.source.value.repoUrl) && m.commitSha == skill.source.value.commitSha
       && m.subpath == skill.source.value.subpath && m.license == skill.license && m.installedAt == now
       && m.installFormatVersion == Some(INSTALL_FORMAT_VERSION)
       && (forall q :: q in m.files <==> q in files && q != METADATA_FILE)
       && (forall q :: q in m.files ==> m.files[q] == t.sha256(files[q]))
       && RecordsOriginal(m, files, skill, downloaded, t)
  }

  /** The hash of every file that came, and of nothing else. */
  ghost predicate HashesArrived(hashes: map<string, string>, manifest: seq<ManifestFile>, downloaded: map<string, Content>,
                                sha256: Content -> string)
  {
    && (forall i :: 0 <= i < |manifest| ==>
          && manifest[i].path in downloaded && manifest[i].path in hashes
          && hashes[manifest[i].path] == sha256(downloaded[manifest[i].path]))
    && forall q :: q in hashes ==> exists i :: 0 <= i < |manifest| && manifest[i].path == q
  }

  /** Exactly when SKILL.md was rewritten, the record has the original's name on disk and the hashes of all that came. */
  ghost predicate RecordsOriginal(m: Installed, files: map<string, Content>, skill: Skill, downloaded: map<string, Content>, t: Tools)
    requires SKILL_MD in downloaded
  {
    var a := t.adapt(downloaded[SKILL_MD], skill.name, skill.description);
    if a.Rewritten? then
      && m.originalSkillMd.Some? && m.originalSkillMd.value != SKILL_MD
      && Holds(files, m.originalSkillMd.value, downloaded[SKILL_MD]) && Holds(files, SKILL_MD, a.content)
      && m.sourceFiles.Some?
      && HashesArrived(m.sourceFiles.value, skill.files, downloaded, t.sha256)
    else m.originalSkillMd.None? && m.sourceFiles.None?
  }

  lemma {:induction false} HashedFrom(files: seq<VerifiedFile>, sha256: Content -> string, q: string) returns (i: nat)
    requires q in Hashes(files, sha256)
    ensures i < |files| && files[i].path == q
    decreases |files|
  {
    var n := |files| - 1;
    if files[n].path == q { i := n; } else { i := HashedFrom(files[..n], sha256, q); }
  }

  lemma {:induction false} HashesOfDownloaded(manifest: seq<ManifestFile>, downloaded: map<string, Content>, files: seq<VerifiedFile>, sha256: Content -> string)
    requires |files| == |manifest| && DistinctPaths(files)
    requires forall i :: 0 <= i < |manifest| ==>
               manifest[i].path in downloaded && files[i] == VerifiedFile(manifest[i].path, downloaded[manifest[i].path])
    ensures HashesArrived(Hashes(files, sha256), manifest, downloaded, sha256)
  {
    var hashes := Hashes(files, sha256);
    HashesOf(files, sha256);
    forall i | 0 <= i < |manifest| ensures manifest[i].path in hashes && hashes[manifest[i].path] == sha256(downloaded[manifest[i].path]) {
      FileMapHolds(files, files[i]);
    }
    forall q | q in hashes ensures exists i :: 0 <= i < |manifest| && manifest[i].path == q {
      var i := HashedFrom(files, sha256, q);
      assert manifest[i].path == q;
    }
  }

  lemma {:induction false} OriginalOnDisk(files: seq<VerifiedFile>, p: Prepared, rewritten: Content, sha256: Content -> string, k: nat)
    requires Adapted(files, p, rewritten, sha256) && DistinctPaths(p.files) && k < |files| && files[k].path == SKILL_MD
    ensures Holds(FileMap(p.files), SKILL_MD, rewritten)
    ensures Holds(FileMap(p.files), p.originalSkillMd.value, SkillMd(files).value) && p.originalSkillMd.value != SKILL_MD
  {
    assert p.files[k] == VerifiedFile(SKILL_MD, rewritten);
    FileMapHolds(p.files, p.files[k]);
    FileMapHolds(p.files, p.files[|files|]);
  }

  lemma {:induction false} RecordedFiles(skill: Skill, registry: string, p: Prepared, t: Tools, now: string)
    requires skill.source.Some? && Writable(p.files, t.safePath)
    ensures var m := MetadataFor(skill, registry, p, t, now);
            && (forall q :: q in m.files <==> q in NewTree(p.files, m) && q != METADATA_FILE)
            && (forall q :: q in m.files ==> m.files[q] == t.sha256(NewTree(p.files, m)[q]))
  {
    HashesOf(p.files, t.sha256);
    FileMapKeys(p.files, METADATA_FILE);
  }

  lemma {:induction false} SkillMdAmong(files: seq<VerifiedFile>) returns (k: nat)
    requires SkillMd(files).Some?
    ensures k < |files| && files[k].path == SKILL_MD
    decreases |files|
  {
    if files[0].path == SKILL_MD {
      k := 0;
    } else {
      k := SkillMdAmong(files[1..]);
      k := k + 1;
    }
  }

  lemma {:induction false} OriginalRecorded(skill: Skill, registry: string, downloaded: map<string, Content>, verified: seq<VerifiedFile>, p: Prepared,
                         t: Tools, now: string)
    requires skill.source.Some? && |verified| == |skill.files|
    requires forall i :: 0 <= i < |skill.files| ==>
               skill.files[i].path in downloaded && verified[i] == VerifiedFile(skill.files[i].path, downloaded[skill.files[i].path])
    requires Writable(p.files, t.safePath) && SKILL_MD in downloaded && SkillMd(verified) == Some(downloaded[SKILL_MD])
    requires PreparedFrom(verified, p, t.adapt(downloaded[SKILL_MD], skill.name, skill.description), t.sha256)
    ensures var m := MetadataFor(skill, registry, p, t, now); RecordsOriginal(m, NewTree(p.files, m), skill, downloaded, t)
  {
    var a := t.adapt(downloaded[SKILL_MD], skill.name, skill.description);
    if a.Rewritten? {
      forall i, j | 0 <= i < j < |verified| ensures verified[i].path != verified[j].path {
        assert p.files[i].path != p.files[j].path;
      }
      HashesOfDownloaded(skill.files, downloaded, verified, t.sha256);
      var k := SkillMdAmong(verified);
      OriginalOnDisk(verified, p, a.content, t.sha256, k);
    }
  }

  /** What a successful install leaves on record. */
  lemma {:induction false} InstallIsRecorded(entries: Entries, skill: Skill, registry: string, downloaded: map<string, Content>,
                          verified: seq<VerifiedFile>, p: Prepared, t: Tools, now: string)
    requires skill.source.Some? && |verified| == |skill.files|
    requires forall i :: 0 <= i < |skill.files| ==>
               skill.files[i].path in downloaded && verified[i] == VerifiedFile(skill.files[i].path, downloaded[skill.files[i].path])
    requires Writable(p.files, t.safePath) && SKILL_MD in downloaded && SkillMd(verified) == Some(downloaded[SKILL_MD])
    requires PreparedFrom(verified, p, t.adapt(downloaded[SKILL_MD], skill.name, skill.description), t.sha256)
    requires skill.name in entries && entries[skill.name] == Directory(NewTree(p.files, MetadataFor(skill, registry, p, t, now)))
    ensures RecordsInstall(entries, skill, registry, downloaded, now, t)
    ensures Recorded(entries, skill.name) == Some(MetadataFor(skill, registry, p, t, now))
  {
    var m := MetadataFor(skill, registry, p, t, now);
    ParseSerialize(m);
    assert Recorded(entries, skill.name) == Some(m);
    RecordedFiles(skill, registry, p, t, now);
    OriginalRecorded(skill, registry, downloaded, verified, p, t, now);
  }

  /** Looks at what is installed: None unless it can be left as it is; `thrown` if it cannot be listed. */
  method CheckUnchanged(root: SkillsRoot, skill: Skill, registry: string, t: Tools)
    returns (existing: Option<Installed>, thrown: bool)
    requires skill.source.Some?
    modifies root`faults
    ensures root.faults >= old(root.faults)
    ensures existing.Some? ==> UpToDate(root.entries, skill, registry, t) && existing == Recorded(root.entries, skill.name)
    ensures root.faults == old(root.faults) ==>
              !thrown && (existing.Some? <==> UpToDate(root.entries, skill, registry, t))
  {
    thrown := false;
    existing := ReadMetadata(root, skill.name);
    if existing.None? { return; }
    var m := existing.value;
    var format := if m.installFormatVersion.Some? then m.installFormatVersion.value else 0;
    if m.slug != skill.slug || m.registry != registry || m.commitSha != skill.source.value.commitSha
       || m.version != skill.version || format < INSTALL_FORMAT_VERSION
    {
      return None, false;
    }
    var changes := DetectLocalChanges(root, skill.name, m, t.sha256);
    NoChangesMeansIntact(root.entries[skill.name].files, m, t.sha256);
    if changes.None? { return None, true; }
    if HasLocalChanges(changes.value, false) { return None, false; }
    var c := Changes(root.entries[skill.name].files, m, t.sha256);
    assert c.modified <= changes.value.modified + changes.value.missing == {};
  }

  /** What an installation needs, whatever is on disk. */
  ghost predicate Acceptable(skill: Skill, downloaded: Option<map<string, Content>>, t: Tools) {
    && IsSafeSkillDirName(skill.name) && skill.source.Some? && GoodRecord(skill.files, t)
    && downloaded.Some?
    && (forall i :: 0 <= i < |skill.files| ==> Delivered(skill.files[i], downloaded.value, t))
    && SKILL_MD in downloaded.value && !t.adapt(downloaded.value[SKILL_MD], skill.name, skill.description).Unsuitable?
  }

  function OutcomeOf(r: InstallResult): Outcome
    requires r.Installation? || r.NotWritten?
  {
    if r.Installation? then Written(r.replaced) else r.outcome
  }

  /** No path is recorded twice, and the name for the original SKILL.md, if one is needed, is a safe one. */
  ghost predicate CanBeWritten(manifest: seq<ManifestFile>, p: Prepared, t: Tools) {
    && (forall i, j :: 0 <= i < j < |manifest| ==> manifest[i].path != manifest[j].path)
    && (p.originalSkillMd.Some? ==> t.safePath(p.originalSkillMd.value))
  }

  /**
   All or nothing: at every moment, and so after a crash, the target is the old install, or absent with the whole
   old install at `backup`, or complete; in the end it is complete, or what it was, or the whole old install is at
   `backup`.
   */
  ghost predicate Wrote(after: Entries, history: seq<Entries>, before: Entries, earlier: seq<Entries>, r: InstallResult,
                        skill: Skill, registry: string, p: Prepared, now: string, t: Tools, staging: string, backup: string)
  {
    && skill.source.Some?
    && (r.Installation? || (r.NotWritten? && (r.outcome.Conflict? || r.outcome.Failed?)))
    && STAGING_PREFIX <= staging && backup == staging + ".old" && Extends(history, earlier)
    && var m := MetadataFor(skill, registry, p, t, now);
       && Crashproof(history, |earlier|, before, skill.name, staging, backup, NewTree(p.files, m), true)
       && Settled(after, before, OutcomeOf(r), skill.name, staging, backup, NewTree(p.files, m))
       && (r.Installation? ==> r.metadata == m && Writable(p.files, t.safePath))
       && (r.NotWritten? && r.outcome.Conflict? ==> after == before && history == earlier)
  }

  /** The last step: `writeSkillDir` with the metadata for what was prepared. */
  method Write(root: SkillsRoot, skill: Skill, registry: string, force: bool, ghost downloaded: map<string, Content>,
               ghost verified: seq<VerifiedFile>, p: Prepared, now: string, t: Tools, pauses: nat)
    returns (r: InstallResult, ghost staging: string, ghost backup: string)
    requires skill.source.Some? && IsSafeSkillDirName(skill.name)
    requires |verified| == |skill.files|
    requires forall i :: 0 <= i < |skill.files| ==>
               skill.files[i].path in downloaded && verified[i] == VerifiedFile(skill.files[i].path, downloaded[skill.files[i].path])
    requires DistinctPaths(verified) ==> OriginalsKept(verified, p.files, p.originalSkillMd)
    requires |p.files| >= |verified| && forall i :: 0 <= i < |verified| ==> p.files[i].path == verified[i].path
    requires SKILL_MD in downloaded && SkillMd(verified) == Some(downloaded[SKILL_MD])
    requires PreparedFrom(verified, p, t.adapt(downloaded[SKILL_MD], skill.name, skill.description), t.sha256)
    modifies root
    ensures root.faults >= old(root.faults)
    ensures Wrote(root.entries, root.history, old(root.entries), old(root.history), r, skill, registry, p, now, t, staging, backup)
    ensures root.faults == old(root.faults) && backup !in old(root.entries) ==>
              AsChecked(root.entries, old(root.entries), OutcomeOf(r), skill.name, p.files,
                        MetadataFor(skill, registry, p, t, now), force, t.safePath, t.sha256)
    ensures r.Installation? ==>
              && OnDisk(root.entries, skill.name, skill.files, downloaded, p.originalSkillMd)
              && RecordsInstall(root.entries, skill, registry, downloaded, now, t)
              && Recorded(root.entries, skill.name) == Some(r.metadata)
              && UpToDate(root.entries, skill, registry, t)
              && !HasLocalChanges(Changes(root.entries[skill.name].files, r.metadata, t.sha256), true)
  {
    var m := MetadataFor(skill, registry, p, t, now);
    var outcome;
    outcome, staging, backup := WriteSkillDir(root, skill.name, p.files, m, force, t.safePath, t.sha256, pauses);
    if !outcome.Written? { return NotWritten(outcome), staging, backup; }
    FreshInstallHasNoChanges(skill, registry, p, t, now);
    FreshInstallIsUpToDate(root.entries, skill, registry, p, t, now);
    InstalledOnDisk(root.entries, skill.name, skill.files, downloaded, verified, p, m, t);
    InstallIsRecorded(root.entries, skill, registry, downloaded, verified, p, t, now);
    r := Installation(m, outcome.replaced);
  }

  /**
   What is written out of a good record has safe names, so it can be written when no path is recorded twice
   and the name for the original SKILL.md, if one is needed, is a safe one.
   */
  lemma {:induction false} PreparedIsWritable(manifest: seq<ManifestFile>, p: Prepared, t: Tools)
    requires GoodRecord(manifest, t)
    requires |p.files| == |manifest| + (if p.originalSkillMd.Some? then 1 else 0)
    requires forall i :: 0 <= i < |manifest| ==> p.files[i].path == manifest[i].path
    requires p.originalSkillMd.Some? ==>
               && p.files[|manifest|].path == p.originalSkillMd.value && p.originalSkillMd.value != METADATA_FILE
               && forall i :: 0 <= i < |manifest| ==> manifest[i].path != p.originalSkillMd.value
    ensures Writable(p.files, t.safePath) <==> CanBeWritten(manifest, p, t)
  {
    if Writable(p.files, t.safePath) {
      forall i, j | 0 <= i < j < |manifest| ensures manifest[i].path != manifest[j].path {
        assert p.files[i].path != p.files[j].path;
      }
      if p.originalSkillMd.Some? { assert t.safePath(p.files[|manifest|].path); }
    } else {
      forall i | 0 <= i < |manifest| ensures t.safePath(p.files[i].path) && p.files[i].path != METADATA_FILE {
        assert GoodFile(manifest[i], t);
      }
    }
  }

  lemma {:induction false} SkillMdOf(files: seq<VerifiedFile>, k: nat)
    requires k < |files| && files[k].path == SKILL_MD
    requires forall f :: f in files && f.path == SKILL_MD ==> f == files[k]
    ensures SkillMd(files) == Some(files[k].content)
  {
    assert SkillMd(files).Some?;
  }

  /** The files that arrived, of a good record. */
  method Arrived(skill: Skill, downloaded: map<string, Content>, t: Tools) returns (r: Result<seq<VerifiedFile>, seq<Problem>>)
    requires GoodRecord(skill.files, t)
    ensures r.Ok? <==> forall i :: 0 <= i < |skill.files| ==> Delivered(skill.files[i], downloaded, t)
    ensures r.Ok? ==> |r.value| == |skill.files|
    ensures r.Ok? ==> forall i :: 0 <= i < |skill.files| ==>
                        && skill.files[i].path in downloaded
                        && r.value[i] == VerifiedFile(skill.files[i].path, downloaded[skill.files[i].path])
    ensures r.Ok? ==> SKILL_MD in downloaded && SkillMd(r.value) == Some(downloaded[SKILL_MD])
  {
    r := VerifyFiles(skill.files, downloaded, t);
    if r.Ok? {
      ghost var k :| 0 <= k < |skill.files| && skill.files[k].path == SKILL_MD;
      assert Delivered(skill.files[k], downloaded, t);
      forall i | 0 <= i < |skill.files| ensures skill.files[i].path in downloaded { assert Delivered(skill.files[i], downloaded, t); }
      SkillMdOf(r.value, k);
    }
  }

  /** Everything before the last step. */
  method Prepare(skill: Skill, downloaded: map<string, Content>, t: Tools)
    returns (r: Result<(seq<VerifiedFile>, Prepared), InstallResult>)
    requires forall c :: IsHex(t.sha256(c))
    requires IsSafeSkillDirName(skill.name) && skill.source.Some? && GoodRecord(skill.files, t)
    ensures r.Ok? <==> Acceptable(skill, Some(downloaded), t)
    ensures r.Err? ==> r.error.NotVerified? || r.error.Unsupported?
    ensures r.Ok? ==>
              && |r.value.0| == |skill.files|
              && (forall i :: 0 <= i < |skill.files| ==>
                    skill.files[i].path in downloaded && r.value.0[i] == VerifiedFile(skill.files[i].path, downloaded[skill.files[i].path]))
              && (DistinctPaths(r.value.0) ==> OriginalsKept(r.value.0, r.value.1.files, r.value.1.originalSkillMd))
              && |r.value.1.files| >= |r.value.0|
              && (forall i :: 0 <= i < |r.value.0| ==> r.value.1.files[i].path == r.value.0[i].path)
              && (Writable(r.value.1.files, t.safePath) <==> CanBeWritten(skill.files, r.value.1, t))
              && SKILL_MD in downloaded && SkillMd(r.value.0) == Some(downloaded[SKILL_MD])
              && PreparedFrom(r.value.0, r.value.1, t.adapt(downloaded[SKILL_MD], skill.name, skill.description), t.sha256)
  {
    var verified := Arrived(skill, downloaded, t);
    if verified.Err? { return Err(NotVerified(verified.error)); }
    var files := verified.value;
    var prepared := PrepareInstalledFiles(files, skill.name, skill.description, t);
    if prepared.None? { return Err(Unsupported); }
    PreparedIsWritable(skill.files, prepared.value, t);
    r := Ok((files, prepared.value));
  }

  /**
   `installFromRegistry`. `downloaded` is what the download would deliver, None if it throws; `used` tells
   whether it was asked for, and `prepared` is what was to be written, None when it did not come to that.
   An up-to-date skill is left alone: nothing is downloaded, and no state of the directory is added to its
   history. Otherwise only a good record whose every file arrived with its recorded size and hash is
   written, all or nothing, and if it is, every one of those files is on disk with its original bytes and
   the directory is up to date. Without faults exactly the checks decide.
   */
  method InstallFromRegistry(root: SkillsRoot, skill: Skill, registry: string, force: bool,
                             downloaded: Option<map<string, Content>>, now: string, t: Tools, pauses: nat)
    returns (r: InstallResult, used: bool, ghost prepared: Option<Prepared>, ghost staging: string, ghost backup: string)
    requires forall c :: IsHex(t.sha256(c))
    modifies root
    ensures root.faults >= old(root.faults) && Extends(root.history, old(root.history))
    ensures prepared.Some? <==> r.Installation? || r.NotWritten?
    ensures prepared.None? ==> root.entries == old(root.entries) && root.history == old(root.history)
    ensures r.Unchanged? ==> !used && UpToDate(root.entries, skill, registry, t)
    ensures prepared.Some? ==>
              && used && Acceptable(skill, downloaded, t)
              && (Writable(prepared.value.files, t.safePath) <==> CanBeWritten(skill.files, prepared.value, t))
    ensures root.faults == old(root.faults) ==>
              var upToDate := UpToDate(old(root.entries), skill, registry, t);
              && (used <==> IsSafeSkillDirName(skill.name) && skill.source.Some? && GoodRecord(skill.files, t) && !upToDate)
              && (r.Unchanged? <==> IsSafeSkillDirName(skill.name) && GoodRecord(skill.files, t) && upToDate)
              && (prepared.Some? <==> Acceptable(skill, downloaded, t) && !upToDate)
    ensures prepared.Some? ==>
              Wrote(root.entries, root.history, old(root.entries), old(root.history), r, skill, registry, prepared.value, now, t,
                    staging, backup)
    ensures prepared.Some? && root.faults == old(root.faults) && backup !in old(root.entries) ==>
              AsChecked(root.entries, old(root.entries), OutcomeOf(r), skill.name, prepared.value.files,
                        MetadataFor(skill, registry, prepared.value, t, now), force, t.safePath, t.sha256)
    ensures r.Installation? ==>
              && OnDisk(root.entries, skill.name, skill.files, downloaded.value, prepared.value.originalSkillMd)
              && RecordsInstall(root.entries, skill, registry, downloaded.value, now, t)
              && Recorded(root.entries, skill.name) == Some(r.metadata)
              && UpToDate(root.entries, skill, registry, t)
              && !HasLocalChanges(Changes(root.entries[skill.name].files, r.metadata, t.sha256), true)
  {
    used, prepared, staging, backup := false, None, "", "";
    if !IsSafeSkillDirName(skill.name) || skill.source.None? { r := Unsupported; return; }
    var problems := CheckManifest(skill.files, t);
    if problems != [] { r := NotVerified(problems); return; }
    var existing, thrown := CheckUnchanged(root, skill, registry, t);
    if thrown { r := CannotRead; return; }
    if existing.Some? { r := Unchanged(existing.value); return; }
    used := true;
    if downloaded.None? { r := BadDownload; return; }
    var ready := Prepare(skill, downloaded.value, t);
    if ready.Err? { r := ready.error; return; }
    prepared := Some(ready.value.1);
    r, staging, backup := Write(root, skill, registry, force, downloaded.value, ready.value.0, ready.value.1, now, t, pauses);
  }

  /** What `Installation` leaves, for the same answer of the registry: then nothing is downloaded and nothing written. */
  method InstallAgain(root: SkillsRoot, skill: Skill, registry: string, force: bool, downloaded: Option<map<string, Content>>,
                      now: string, t: Tools, pauses: nat)
    returns (r: InstallResult, used: bool)
    requires forall c :: IsHex(t.sha256(c))
    requires IsSafeSkillDirName(skill.name) && GoodRecord(skill.files, t) && UpToDate(root.entries, skill, registry, t)
    modifies root
    ensures root.faults >= old(root.faults) && Extends(root.history, old(root.history))
    ensures root.faults == old(root.faults) ==>
              r.Unchanged? && !used && root.entries == old(root.entries) && root.history == old(root.history)
  {
    ghost var prepared, staging, backup;
    r, used, prepared, staging, backup := InstallFromRegistry(root, skill, registry, force, downloaded, now, t, pauses);
  }

  /**
   Installing twice. If the first call installs and no call to the file system fails for no reason, the second
   call downloads nothing and writes nothing: the directory is the one the first call wrote, at its own time
   `now`, and all that the directory ever was since the start are states of the first call.
   */
  method InstallTwice(root: SkillsRoot, skill: Skill, registry: string, force: bool, first: map<string, Content>,
                      second: Option<map<string, Content>>, now: string, later: string, t: Tools, pauses: nat)
    returns (a: InstallResult, b: InstallResult, downloadedAgain: bool, ghost prepared: Option<Prepared>, ghost staging: string,
             ghost backup: string)
    requires forall c :: IsHex(t.sha256(c))
    modifies root
    ensures root.faults == old(root.faults) && a.Installation? ==>
              && b.Unchanged? && !downloadedAgain && prepared.Some? && skill.source.Some?
              && OnDisk(root.entries, skill.name, skill.files, first, prepared.value.originalSkillMd)
              && RecordsInstall(root.entries, skill, registry, first, now, t)
              && Wrote(root.entries, root.history, old(root.entries), old(root.history), a, skill, registry, prepared.value, now, t,
                       staging, backup)
              && (backup !in old(root.entries) ==>
                  AsChecked(root.entries, old(root.entries), OutcomeOf(a), skill.name, prepared.value.files,
                            MetadataFor(skill, registry, prepared.value, t, now), force, t.safePath, t.sha256))
  {
    var used;
    a, used, prepared, staging, backup := InstallFromRegistry(root, skill, registry, force, Some(first), now, t, pauses);
    if a.Installation? {
      b, downloadedAgain := InstallAgain(root, skill, registry, force, second, later, t, pauses);
    } else {
      ghost var p, s, o;
      b, downloadedAgain, p, s, o := InstallFromRegistry(root, skill, registry, force, second, later, t, pauses);
    }
  }
}
