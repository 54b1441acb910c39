/** The record an installed skill keeps of where it came from, and how a directory differs from it. */
module Metadata {
  import opened Wrappers
  import opened JsonValues
  import opened Disk

  const METADATA_FILE := ".sourceweft.json"

  /** `schema` is always 1 and `installedVia` always "cli", so they are not fields here. */
  datatype Installed = Installed(
    installFormatVersion: Option<int>,
    sourceFiles: Option<map<string, string>>,
    originalSkillMd: Option<string>,
    registry: string,
    slug: string,
    installRef: Option<string>,
    version: string,
    repoUrl: Option<string>,
    commitSha: string,
    subpath: string,
    license: Option<string>,
    files: map<string, string>,
    installedAt: string)

  function Strings(m: map<string, string>): Json {
    JObject(map k | k in m :: JString(m[k]))
  }

  function Nullable(s: Option<string>): Json {
    if s.Some? then JString(s.value) else JNull
  }

  function Source(m: Installed): Json {
    JObject(map["repoUrl" := Nullable(m.repoUrl), "commitSha" := JString(m.commitSha), "subpath" := JString(m.subpath)])
  }

  function Required(m: Installed): map<string, Json> {
    map["schema" := JNumber(1), "registry" := JString(m.registry), "slug" := JString(m.slug),
        "version" := JString(m.version), "source" := Source(m),
        "license" := Nullable(m.license), "files" := Strings(m.files),
        "installedAt" := JString(m.installedAt), "installedVia" := JString("cli")]
  }

  /** One property that is left out when its value is undefined. */
  function Optional(key: string, value: Option<Json>): map<string, Json> {
    if value.Some? then map[key := value.value] else map[]
  }

  function OptionalStrings(m: Option<map<string, string>>): Option<Json> {
    if m.Some? then Some(Strings(m.value)) else None
  }

  function OptionalNumber(n: Option<int>): Option<Json> {
    if n.Some? then Some(JNumber(n.value)) else None
  }

  function OptionalText(s: Option<string>): Option<Json> {
    if s.Some? then Some(JString(s.value)) else None
  }

  /** The object `serializeMetadata` prints. */
  function Serialize(m: Installed): Json {
    JObject(Required(m)
            + Optional("installFormatVersion", OptionalNumber(m.installFormatVersion))
            + Optional("sourceFiles", OptionalStrings(m.sourceFiles))
            + Optional("originalSkillMd", OptionalText(m.originalSkillMd))
            + Optional("installRef", OptionalText(m.installRef)))
  }

  /** A property of an object; None stands for `undefined`. */
  function Field(j: Json, key: string): Option<Json> {
    if j.JObject? && key in j.fields then Some(j.fields[key]) else None
  }

  predicate IsString(j: Option<Json>) {
    j.Some? && j.value.JString?
  }

  predicate IsNullableString(j: Option<Json>) {
    j.Some? && (j.value.JString? || j.value.JNull?)
  }

  predicate IsStringRecord(j: Option<Json>) {
    j.Some? && j.value.JObject? && forall k :: k in j.value.fields ==> j.value.fields[k].JString?
  }

  function OptionalString(j: Option<Json>): Option<string> {
    if IsString(j) then Some(j.value.s) else None
  }

  function Record(j: Json): map<string, string>
    requires IsStringRecord(Some(j))
  {
    map k | k in j.fields :: j.fields[k].s
  }

  /** The shape checks of `parseMetadata`. */
  predicate HasShape(j: Json) {
    && j.JObject?
    && Field(j, "schema") == Some(JNumber(1))
    && IsString(Field(j, "registry")) && IsString(Field(j, "slug")) && IsString(Field(j, "version"))
    && Field(j, "source").Some? && Field(j, "source").value.JObject?
    && IsString(Field(Field(j, "source").value, "commitSha"))
    && IsString(Field(Field(j, "source").value, "subpath"))
    && IsNullableString(Field(Field(j, "source").value, "repoUrl"))
    && IsNullableString(Field(j, "license"))
    && IsStringRecord(Field(j, "files"))
    && IsString(Field(j, "installedAt"))
    && Field(j, "installedVia") == Some(JString("cli"))
  }

  function Parse(content: Content): Option<Installed> {
    if content.Raw? || !HasShape(content.json) then None
    else
      var j := content.json;
      var source := Field(j, "source").value;
      var version := Field(j, "installFormatVersion");
      Some(Installed(
             if version.Some? && version.value.JNumber? then Some(version.value.n) else None,
             if IsStringRecord(Field(j, "sourceFiles")) then Some(Record(Field(j, "sourceFiles").value)) else None,
             OptionalString(Field(j, "originalSkillMd")),
             Field(j, "registry").value.s, Field(j, "slug").value.s,
             OptionalString(Field(j, "installRef")),
             Field(j, "version").value.s,
             OptionalString(Field(source, "repoUrl")),
             Field(source, "commitSha").value.s, Field(source, "subpath").value.s,
             OptionalString(Field(j, "license")),
             Record(Field(j, "files").value),
             Field(j, "installedAt").value.s))
  }

  lemma RecordOfStrings(m: map<string, string>)
    ensures IsStringRecord(Some(Strings(m))) && Record(Strings(m)) == m
  {}

  lemma RecordOfStringsBack(j: Json)
    requires IsStringRecord(Some(j))
    ensures Strings(Record(j)) == j
  {}

  /** Looking a key up in required properties extended by four optional ones. */
  lemma Layered(r: map<string, Json>, ka: string, a: Option<Json>, kb: string, b: Option<Json>,
                kc: string, c: Option<Json>, kd: string, d: Option<Json>)
    requires ka != kb && ka != kc && ka != kd && kb != kc && kb != kd && kc != kd
    requires ka !in r && kb !in r && kc !in r && kd !in r
    ensures var j := JObject(r + Optional(ka, a) + Optional(kb, b) + Optional(kc, c) + Optional(kd, d));
            && Field(j, ka) == a && Field(j, kb) == b && Field(j, kc) == c && Field(j, kd) == d
            && forall k :: k in r ==> Field(j, k) == Some(r[k])
  {}

  lemma SerializedFields(m: Installed)
    ensures Field(Serialize(m), "installFormatVersion") == OptionalNumber(m.installFormatVersion)
    ensures Field(Serialize(m), "sourceFiles") == OptionalStrings(m.sourceFiles)
    ensures Field(Serialize(m), "originalSkillMd") == OptionalText(m.originalSkillMd)
    ensures Field(Serialize(m), "installRef") == OptionalText(m.installRef)
    ensures forall k :: k in Required(m) ==> Field(Serialize(m), k) == Some(Required(m)[k])
  {
    Layered(Required(m), "installFormatVersion", OptionalNumber(m.installFormatVersion),
            "sourceFiles", OptionalStrings(m.sourceFiles), "originalSkillMd", OptionalText(m.originalSkillMd),
            "installRef", OptionalText(m.installRef));
  }

  /** The fields `parseMetadata` looks at, for an object `j` that carries the record `m`. */
  ghost predicate Carries(j: Json, m: Installed) {
    && j.JObject?
    && Field(j, "schema") == Some(JNumber(1)) && Field(j, "installedVia") == Some(JString("cli"))
    && Field(j, "registry") == Some(JString(m.registry)) && Field(j, "slug") == Some(JString(m.slug))
    && Field(j, "version") == Some(JString(m.version)) && Field(j, "source") == Some(Source(m))
    && Field(j, "license") == Some(Nullable(m.license)) && Field(j, "files") == Some(Strings(m.files))
    && Field(j, "installedAt") == Some(JString(m.installedAt))
    && Field(j, "installFormatVersion") == OptionalNumber(m.installFormatVersion)
    && Field(j, "sourceFiles") == OptionalStrings(m.sourceFiles)
    && Field(j, "originalSkillMd") == OptionalText(m.originalSkillMd)
    && Field(j, "installRef") == OptionalText(m.installRef)
  }

  ghost predicate SaysSource(source: Option<Json>, m: Installed) {
    && source.Some? && source.value.JObject?
    && Field(source.value, "repoUrl") == Some(Nullable(m.repoUrl))
    && Field(source.value, "commitSha") == Some(JString(m.commitSha))
    && Field(source.value, "subpath") == Some(JString(m.subpath))
  }

  /** `j` says `m`: the properties a record must have, and of the optional ones those that have the right type. */
  ghost predicate Says(j: Json, m: Installed) {
    && j.JObject?
    && Field(j, "schema") == Some(JNumber(1)) && Field(j, "installedVia") == Some(JString("cli"))
    && Field(j, "registry") == Some(JString(m.registry)) && Field(j, "slug") == Some(JString(m.slug))
    && Field(j, "version") == Some(JString(m.version)) && Field(j, "installedAt") == Some(JString(m.installedAt))
    && Field(j, "license") == Some(Nullable(m.license)) && Field(j, "files") == Some(Strings(m.files))
    && SaysSource(Field(j, "source"), m)
    && (forall n :: m.installFormatVersion == Some(n) <==> Field(j, "installFormatVersion") == Some(JNumber(n)))
    && (forall f :: m.sourceFiles == Some(f) <==> Field(j, "sourceFiles") == Some(Strings(f)))
    && (forall t :: m.originalSkillMd == Some(t) <==> Field(j, "originalSkillMd") == Some(JString(t)))
    && (forall t :: m.installRef == Some(t) <==> Field(j, "installRef") == Some(JString(t)))
  }

  lemma ReadIsSaid(j: Json, m: Installed)
    requires Parse(Document(j)) == Some(m)
    ensures Says(j, m)
  {
    RecordOfStringsBack(Field(j, "files").value);
    if IsStringRecord(Field(j, "sourceFiles")) {
      RecordOfStringsBack(Field(j, "sourceFiles").value);
    }
    forall f ensures m.sourceFiles == Some(f) <==> Field(j, "sourceFiles") == Some(Strings(f)) {
      RecordOfStrings(f);
    }
  }

  lemma SaidIsRead(j: Json, m: Installed)
    requires Says(j, m)
    ensures Parse(Document(j)) == Some(m)
  {
    RecordOfStrings(m.files);
    SameText(j, "originalSkillMd", m.originalSkillMd);
    SameText(j, "installRef", m.installRef);
    SameVersion(j, m);
    SameFiles(j, m);
  }

  lemma SameVersion(j: Json, m: Installed)
    requires Says(j, m)
    ensures m.installFormatVersion == (var v := Field(j, "installFormatVersion");
                                       if v.Some? && v.value.JNumber? then Some(v.value.n) else None)
  {
    var v := Field(j, "installFormatVersion");
    if v.Some? && v.value.JNumber? {
      assert m.installFormatVersion == Some(v.value.n);
    }
    if m.installFormatVersion.Some? {
      assert v == Some(JNumber(m.installFormatVersion.value));
    }
  }

  lemma SameFiles(j: Json, m: Installed)
    requires Says(j, m)
    ensures m.sourceFiles == (var f := Field(j, "sourceFiles"); if IsStringRecord(f) then Some(Record(f.value)) else None)
  {
    var f := Field(j, "sourceFiles");
    if IsStringRecord(f) {
      RecordOfStringsBack(f.value);
      assert m.sourceFiles == Some(Record(f.value));
    } else if m.sourceFiles.Some? {
      assert f == Some(Strings(m.sourceFiles.value));
      RecordOfStrings(m.sourceFiles.value);
      assert false;
    }
  }

  lemma SameText(j: Json, key: string, t: Option<string>)
    requires forall s :: t == Some(s) <==> Field(j, key) == Some(JString(s))
    ensures OptionalString(Field(j, key)) == t
  {
    if IsString(Field(j, key)) {
      assert t == Some(Field(j, key).value.s);
    }
  }

  /** A record is read if and only if the document says just that record; other properties do not matter. */
  lemma ParseMeans(content: Content, m: Installed)
    ensures Parse(content) == Some(m) <==> content.Document? && Says(content.json, m)
  {
    if content.Document? {
      if Parse(content) == Some(m) { ReadIsSaid(content.json, m); }
      if Says(content.json, m) { SaidIsRead(content.json, m); }
    }
  }

  /** The optional properties hide none of the required ones. */
  lemma RequiredLookup(m: Installed, key: string)
    requires key in Required(m)
    ensures Field(Serialize(m), key) == Some(Required(m)[key])
  {
    SerializedFields(m);
  }

  lemma SerializeCarries(m: Installed)
    ensures Carries(Serialize(m), m)
  {
    CarriesConstants(m);
    CarriesTexts(m);
    SerializedFields(m);
  }

  lemma CarriesConstants(m: Installed)
    ensures var j := Serialize(m);
            Field(j, "schema") == Some(JNumber(1)) && Field(j, "installedVia") == Some(JString("cli"))
            && Field(j, "source") == Some(Source(m)) && Field(j, "license") == Some(Nullable(m.license))
            && Field(j, "files") == Some(Strings(m.files))
  {
    RequiredLookup(m, "schema");
    RequiredLookup(m, "installedVia");
    RequiredLookup(m, "source");
    RequiredLookup(m, "license");
    RequiredLookup(m, "files");
  }

  lemma CarriesTexts(m: Installed)
    ensures var j := Serialize(m);
            Field(j, "registry") == Some(JString(m.registry)) && Field(j, "slug") == Some(JString(m.slug))
            && Field(j, "version") == Some(JString(m.version)) && Field(j, "installedAt") == Some(JString(m.installedAt))
  {
    RequiredLookup(m, "registry");
    RequiredLookup(m, "slug");
    RequiredLookup(m, "version");
    RequiredLookup(m, "installedAt");
  }

  lemma ParseCarried(j: Json, m: Installed)
    requires Carries(j, m)
    ensures Parse(Document(j)) == Some(m)
  {
    RecordOfStrings(m.files);
    if m.sourceFiles.Some? { RecordOfStrings(m.sourceFiles.value); }
  }

  /** Reading back what was written gives the same record, whatever optional fields it has. */
  lemma ParseSerialize(m: Installed)
    ensures Parse(Document(Serialize(m))) == Some(m)
  {
    SerializeCarries(m);
    ParseCarried(Serialize(m), m);
  }

  // ---------------------------------------------------------------------------------------------

  /** The property names every JavaScript object inherits, for which `in` is true of any record. */
  const INHERITED: set<string> := {
    "constructor", "__defineGetter__", "__defineSetter__", "hasOwnProperty", "__lookupGetter__",
    "__lookupSetter__", "isPrototypeOf", "propertyIsEnumerable", "toString", "valueOf", "__proto__",
    "toLocaleString"
  }

  datatype LocalChanges = LocalChanges(modified: set<string>, missing: set<string>, added: set<string>)

  predicate HasLocalChanges(c: LocalChanges, includeAdded: bool) {
    c.modified != {} || c.missing != {} || (includeAdded && c.added != {})
  }

  /** The recorded files are all there, with the recorded hashes. */
  ghost predicate RecordedIntact(files: map<string, Content>, m: Installed, sha256: Content -> string) {
    forall p :: p in m.files ==> p in files && sha256(files[p]) == m.files[p]
  }

  /** Besides its own record the directory holds only recorded files. */
  ghost predicate NothingElse(files: map<string, Content>, m: Installed) {
    forall p :: p in files ==> p == METADATA_FILE || p in m.files
  }

  /** What `detectLocalChanges` finds in a directory it can read. */
  function Changes(files: map<string, Content>, m: Installed, sha256: Content -> string): LocalChanges {
    LocalChanges(
      set p | p in m.files && p in files && sha256(files[p]) != m.files[p],
      set p | p in m.files && p !in files,
      set p | p in files && p != METADATA_FILE && p !in m.files && p !in INHERITED)
  }

  /**
   Which file is reported as what: a recorded one whose content has another hash, a recorded one that is not there, and
   one that is there without being recorded or having a name that all objects inherit.
   */
  lemma ChangesMean(files: map<string, Content>, m: Installed, sha256: Content -> string, p: string)
    ensures var c := Changes(files, m, sha256);
            && (p in c.missing <==> p in m.files && p !in files)
            && (p in c.added <==> p in files && p != METADATA_FILE && p !in m.files && p !in INHERITED)
            && (p in c.modified <==> p in m.files && p in files && m.files[p] != sha256(files[p]))
            && (p in files && p in m.files && p !in c.modified ==> sha256(files[p]) == m.files[p])
  {}

  /**
   `detectLocalChanges`; None when it throws because the directory cannot be listed. A file that
   cannot be read counts as missing, so a fault can only add to what is reported.
   */
  method DetectLocalChanges(root: SkillsRoot, dir: string, m: Installed, sha256: Content -> string)
    returns (r: Option<LocalChanges>)
    modifies root`faults
    ensures root.faults >= old(root.faults)
    ensures r.Some? ==>
              && dir in root.entries && root.entries[dir].Directory?
              && var c := Changes(root.entries[dir].files, m, sha256);
                 && r.value.added == c.added && r.value.modified <= c.modified
                 && c.missing <= r.value.missing <= m.files.Keys
                 && c.modified <= r.value.modified + r.value.missing
    ensures root.faults == old(root.faults) ==>
              && (r.Some? <==> dir in root.entries && root.entries[dir].Directory?)
              && (r.Some? ==> r.value == Changes(root.entries[dir].files, m, sha256))
  {
    var modified, missing := {}, {};
    var todo := m.files.Keys;
    while todo != {}
      invariant todo <= m.files.Keys && root.faults >= old(root.faults)
      invariant modified <= m.files.Keys && missing <= m.files.Keys
      invariant forall p :: p in modified ==>
                  HasFile(root.entries, dir, p) && sha256(root.entries[dir].files[p]) != m.files[p]
      invariant forall p :: p in m.files && p !in todo && !HasFile(root.entries, dir, p) ==> p in missing
      invariant forall p :: p in m.files && p !in todo && p !in missing && p !in modified ==>
                  HasFile(root.entries, dir, p) && sha256(root.entries[dir].files[p]) == m.files[p]
      invariant root.faults == old(root.faults) ==> forall p :: p in missing ==> !HasFile(root.entries, dir, p)
      decreases todo
    {
      var p :| p in todo;
      todo := todo - {p};
      var bytes := root.ReadFile(dir, p);
      if bytes.None? {
        missing := missing + {p};
      } else if sha256(bytes.value) != m.files[p] {
        modified := modified + {p};
      }
    }
    var listed := root.ListFiles(dir);
    if listed.None? { return None; }
    var added := set p | p in listed.value && p != METADATA_FILE && p !in m.files && p !in INHERITED;
    r := Some(LocalChanges(modified, missing, added));
  }

  /** `readMetadata`: None for anything that cannot be read as a record of ours. */
  method ReadMetadata(root: SkillsRoot, dir: string) returns (m: Option<Installed>)
    modifies root`faults
    ensures root.faults >= old(root.faults)
    ensures m.Some? ==> HasFile(root.entries, dir, METADATA_FILE) && m == Parse(root.entries[dir].files[METADATA_FILE])
    ensures root.faults == old(root.faults) ==> m == Recorded(root.entries, dir)
  {
    var content := root.ReadFile(dir, METADATA_FILE);
    m := if content.Some? then Parse(content.value) else None;
  }

  function Recorded(entries: Entries, dir: string): Option<Installed> {
    if HasFile(entries, dir, METADATA_FILE) then Parse(entries[dir].files[METADATA_FILE]) else None
  }

  /**
   No change is reported exactly when the recorded files are intact and every unrecorded file has a
   name that all JavaScript objects inherit; leaving added files out, when the recorded ones are intact.
   */
  lemma NoChangesMeansIntact(files: map<string, Content>, m: Installed, sha256: Content -> string)
    ensures !HasLocalChanges(Changes(files, m, sha256), false) <==> RecordedIntact(files, m, sha256)
    ensures !HasLocalChanges(Changes(files, m, sha256), true) <==>
              && RecordedIntact(files, m, sha256)
              && forall p :: p in files && p != METADATA_FILE && p !in m.files ==> p in INHERITED
    ensures (forall p :: p in files ==> p !in INHERITED) ==>
              (!HasLocalChanges(Changes(files, m, sha256), true) <==> RecordedIntact(files, m, sha256) && NothingElse(files, m))
  {
    var c := Changes(files, m, sha256);
    if c.modified == {} && c.missing == {} {
      forall p | p in m.files ensures p in files && sha256(files[p]) == m.files[p] {
        assert p !in c.modified && p !in c.missing;
      }
    }
    if c.added == {} {
      forall p | p in files && p != METADATA_FILE && p !in m.files ensures p in INHERITED {
        assert p !in c.added;
      }
    }
  }

  /** The proviso is needed: an extra file called `toString` goes unreported. */
  lemma InheritedNameGoesUnreported(sha256: Content -> string)
    ensures var m := Installed(None, None, None, "r", "s", None, "v", None, "c", "", None, map[], "t");
            var files := map["toString" := Raw([])];
            !HasLocalChanges(Changes(files, m, sha256), true) && !NothingElse(files, m)
  {
    var m := Installed(None, None, None, "r", "s", None, "v", None, "c", "", None, map[], "t");
    var files: map<string, Content> := map["toString" := Raw([])];
    assert "toString" in files && "toString" != METADATA_FILE by { assert |"toString"| != |METADATA_FILE|; }
    assert Changes(files, m, sha256) == LocalChanges({}, {}, {});
  }
}
