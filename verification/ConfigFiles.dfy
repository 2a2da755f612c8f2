/** The configuration files of a service: one consolidated config map, and a volume with its mount for
    each directory that a file is mounted in. Here: when every mounted path shows exactly the content
    of its file. A string is taken as its sequence of characters. */
module ConfigFiles {
  import opened Entities

  datatype ConfigFile = ConfigFile(id: string, mountPath: string, content: string)

  datatype KeyToPath = KeyToPath(key: string, path: string)

  datatype Volume = Volume(name: string, configMap: string, items: seq<KeyToPath>)

  datatype VolumeMount = VolumeMount(name: string, mountPath: string)

  datatype ConfigMap = ConfigMap(name: string, data: map<string, string>)

  // ---------- Paths and names ----------

  /** The position of the last slash, or -1. */
  function LastSlash(s: string): (i: int)
    ensures -1 <= i < |s|
    ensures i >= 0 ==> s[i] == '/'
    ensures forall j | i < j < |s| :: s[j] != '/'
  {
    if s == "" then -1
    else if s[|s| - 1] == '/' then |s| - 1
    else LastSlash(s[..|s| - 1])
  }

  /** The directory, with its slash, and the name of the file. */
  function GetConfigMapPath(mountPath: string): (string, string) {
    var index := LastSlash(mountPath);
    if index == -1 then ("/", mountPath) else (mountPath[..index + 1], mountPath[index + 1..])
  }

  function Dir(file: ConfigFile): string {
    GetConfigMapPath(file.mountPath).0
  }

  function Base(file: ConfigFile): string {
    GetConfigMapPath(file.mountPath).1
  }

  predicate IsSpace(c: char) {
    c in {' ', '\t', '\n', '\r'} || c as int in {0x0B, 0x0C}
  }

  function TrimLeft(s: string): string {
    if s != "" && IsSpace(s[0]) then TrimLeft(s[1..]) else s
  }

  function TrimRight(s: string): string {
    if s != "" && IsSpace(s[|s| - 1]) then TrimRight(s[..|s| - 1]) else s
  }

  function TrimSpace(s: string): string {
    TrimRight(TrimLeft(s))
  }

  predicate LabelChar(c: char) {
    c == '-' || 'a' <= c <= 'z' || '0' <= c <= '9'
  }

  /** Characters that no label may have are taken out, slashes within a path among them. */
  function ReformatLabel(s: string): string {
    if s == "" then ""
    else if LabelChar(s[0]) then [s[0]] + ReformatLabel(s[1..])
    else ReformatLabel(s[1..])
  }

  /** Without the slash at either end; undefined if there is no character left to look at. */
  function CreateVolumeName(name: string): Option<string> {
    if name == "" then Some("")
    else
      var trimmed := TrimSpace(name);
      if trimmed == "" then None
      else
        var tail := if trimmed[0] == '/' then trimmed[1..] else trimmed;
        if tail == "" then None
        else Some(ReformatLabel(if tail[|tail| - 1] == '/' then tail[..|tail| - 1] else tail))
  }

  ghost predicate Blank(s: string) {
    forall c | c in s :: IsSpace(c)
  }

  lemma {:induction false} TrimLeftKeepsEnd(s: string)
    requires s != "" && !IsSpace(s[|s| - 1])
    ensures TrimLeft(s) != "" && TrimLeft(s)[|TrimLeft(s)| - 1] == s[|s| - 1]
    ensures |TrimLeft(s)| == 1 <==> Blank(s[..|s| - 1])
  {
    if IsSpace(s[0]) {
      TrimLeftKeepsEnd(s[1..]);
      assert s[..|s| - 1] == [s[0]] + s[1..][..|s| - 2];
    } else if |s| > 1 {
      assert s[0] in s[..|s| - 1];
    }
  }

  /** A directory has no volume name exactly if nothing but white space precedes its slash - as for
      every file in the root directory, and every mount path without a slash. */
  lemma VolumeNameDefined(file: ConfigFile)
    ensures var dir := Dir(file);
            && dir != "" && dir[|dir| - 1] == '/'
            && (CreateVolumeName(dir) == None <==> Blank(dir[..|dir| - 1]))
  {
    var dir := Dir(file);
    TrimLeftKeepsEnd(dir);
    assert TrimSpace(dir) == TrimLeft(dir);
  }

  lemma {:induction false} LabelOfBoth(a: string, b: string)
    ensures ReformatLabel(a + b) == ReformatLabel(a) + ReformatLabel(b)
  {
    if a == "" {
      assert a + b == b;
    } else {
      assert (a + b)[1..] == a[1..] + b;
      LabelOfBoth(a[1..], b);
    }
  }

  lemma LabelOfOne(c: char)
    ensures ReformatLabel([c]) == if c == '-' || 'a' <= c <= 'z' || '0' <= c <= '9' then [c] else ""
  {
    assert [c][1..] == "";
  }

  lemma {:induction false} TrimLeftKeepsLabel(s: string)
    ensures ReformatLabel(TrimLeft(s)) == ReformatLabel(s)
  {
    if s != "" && IsSpace(s[0]) {
      TrimLeftKeepsLabel(s[1..]);
    }
  }

  lemma {:induction false} TrimRightKeepsLabel(s: string)
    ensures ReformatLabel(TrimRight(s)) == ReformatLabel(s)
  {
    if s != "" && IsSpace(s[|s| - 1]) {
      TrimRightKeepsLabel(s[..|s| - 1]);
      assert s == s[..|s| - 1] + [s[|s| - 1]];
      LabelOfBoth(s[..|s| - 1], [s[|s| - 1]]);
      LabelOfOne(s[|s| - 1]);
    }
  }

  /** If a directory has a volume name, it is the directory without everything but small letters, digits
      and hyphens - not with hyphens for its slashes. */
  lemma NameIsLabel(file: ConfigFile)
    requires VolumeName(file).Some?
    ensures VolumeName(file).value == ReformatLabel(Dir(file))
  {
    var dir := Dir(file);
    var trimmed := TrimSpace(dir);
    TrimLeftKeepsLabel(dir);
    TrimRightKeepsLabel(TrimLeft(dir));
    VolumeNameDefined(file);
    var tail := if trimmed[0] == '/' then trimmed[1..] else trimmed;
    assert ReformatLabel(tail) == ReformatLabel(trimmed);
    if tail[|tail| - 1] == '/' {
      assert tail == tail[..|tail| - 1] + "/";
      LabelOfBoth(tail[..|tail| - 1], "/");
      LabelOfOne('/');
    }
  }

  lemma {:induction false} LabelIsKept(s: string)
    requires forall c | c in s :: c == '-' || 'a' <= c <= 'z' || '0' <= c <= '9'
    ensures ReformatLabel(s) == s
  {
    if s != "" {
      assert s[0] in s && forall c | c in s[1..] :: c in s;
      LabelIsKept(s[1..]);
      assert s == [s[0]] + s[1..];
    }
  }

  /** A directory between two slashes that is a label already is named as it is. */
  lemma PlainDirectoryKeepsName(middle: string, base: string)
    requires middle != "" && forall c | c in middle :: c == '-' || 'a' <= c <= 'z' || '0' <= c <= '9'
    requires '/' !in base
    ensures VolumeName(ConfigFile("", "/" + middle + "/" + base, "")) == Some(middle)
  {
    NameBetweenSlashes(middle, base);
    LabelIsKept(middle);
  }

  /** A mount path with a slash is its directory followed by its file name, and no other directory
      and file name make it up. */
  lemma PathIsDirAndBase(file: ConfigFile, dir: string, base: string)
    requires LastSlash(file.mountPath) >= 0
    requires dir != "" && dir[|dir| - 1] == '/' && '/' !in base
    ensures Dir(file) + Base(file) == file.mountPath && '/' !in Base(file)
    ensures dir + base == file.mountPath <==> dir == Dir(file) && base == Base(file)
  {
    if dir + base == file.mountPath {
      assert file.mountPath[|dir| - 1] == '/';
      assert forall j | |dir| <= j < |file.mountPath| :: file.mountPath[j] == base[j - |dir|];
      assert LastSlash(file.mountPath) == |dir| - 1;
      assert file.mountPath[..|dir|] == dir && file.mountPath[|dir|..] == base;
    }
  }

  // ---------- Volumes ----------

  datatype Volumes = Volumes(volumes: seq<Volume>, mounts: seq<VolumeMount>)

  function VolumeName(file: ConfigFile): Option<string> {
    CreateVolumeName(Dir(file))
  }

  predicate Named(file: ConfigFile, name: string) {
    VolumeName(file) == Some(name)
  }

  function Item(file: ConfigFile): KeyToPath {
    KeyToPath(file.id, Base(file))
  }

  /** The items of the files that go into the volume of this name, in order. */
  function ItemsOf(files: seq<ConfigFile>, name: string): seq<KeyToPath> {
    if files == [] then []
    else
      var last := files[|files| - 1];
      ItemsOf(files[..|files| - 1], name) + if Named(last, name) then [Item(last)] else []
  }

  /** `k` is the first file that goes into the volume of this name. */
  predicate IsFirst(files: seq<ConfigFile>, name: string, k: nat) {
    k < |files| && Named(files[k], name) && forall j | 0 <= j < k :: !Named(files[j], name)
  }

  /** The directory of the first file that goes into the volume of this name. */
  function FirstDir(files: seq<ConfigFile>, name: string): Option<string> {
    if files == [] then None
    else
      var before, last := FirstDir(files[..|files| - 1], name), files[|files| - 1];
      if before.Some? then before else if Named(last, name) then Some(Dir(last)) else None
  }

  lemma {:induction false} FirstDirIsFirst(files: seq<ConfigFile>, name: string)
    ensures FirstDir(files, name) == None <==> forall file | file in files :: !Named(file, name)
    ensures FirstDir(files, name).Some? ==>
              exists k: nat :: IsFirst(files, name, k) && FirstDir(files, name).value == Dir(files[k])
  {
    if files != [] {
      var before, n := files[..|files| - 1], |files| - 1;
      assert files == before + [files[n]];
      FirstDirIsFirst(before, name);
      if FirstDir(before, name).Some? {
        var k: nat :| IsFirst(before, name, k) && FirstDir(before, name).value == Dir(before[k]);
        assert IsFirst(files, name, k);
      } else if Named(files[n], name) {
        assert IsFirst(files, name, n);
      }
    }
  }

  /** The i-th volume has exactly its files' items and is mounted at the directory of its first file. */
  ghost predicate Collects(out: Volumes, i: nat, files: seq<ConfigFile>, configMap: string)
    requires i < |out.volumes| && i < |out.mounts|
  {
    var name := out.volumes[i].name;
    && out.mounts[i].name == name
    && out.volumes[i] == Volume(name, configMap, ItemsOf(files, name))
    && FirstDir(files, name) == Some(out.mounts[i].mountPath)
  }

  predicate HasVolume(volumes: seq<Volume>, name: string) {
    exists i :: 0 <= i < |volumes| && volumes[i].name == name
  }

  /** One volume with its mount for each name that occurs. */
  ghost predicate Groups(out: Volumes, files: seq<ConfigFile>, configMap: string) {
    && |out.mounts| == |out.volumes|
    && (forall i | 0 <= i < |out.volumes| :: Collects(out, i, files, configMap))
    && (forall i, j | 0 <= i < j < |out.volumes| :: out.volumes[i].name != out.volumes[j].name)
    && (forall file | file in files :: VolumeName(file).Some? && HasVolume(out.volumes, VolumeName(file).value))
  }

  method GenerateAllVolumes(configMap: string, files: seq<ConfigFile>) returns (out: Option<Volumes>)
    ensures out == None <==> exists file :: file in files && VolumeName(file) == None
    ensures out.Some? ==> Groups(out.value, files, configMap)
  {
    var vs := Volumes([], []);
    var pathAdded: set<string> := {};
    for k := 0 to |files|
      invariant Groups(vs, files[..k], configMap)
      invariant forall name :: name in pathAdded <==> HasVolume(vs.volumes, name)
    {
      var (path, file) := GetConfigMapPath(files[k].mountPath);
      var clearPath := CreateVolumeName(path);
      if clearPath == None {
        assert files[k] in files && VolumeName(files[k]) == None;
        return None;
      }
      var item := KeyToPath(files[k].id, file);
      if clearPath.value !in pathAdded {
        NewVolume(vs, files, k, configMap, clearPath.value);
        VolumeAdded(vs.volumes, Volume(clearPath.value, configMap, [item]));
        vs := Volumes(vs.volumes + [Volume(clearPath.value, configMap, [item])], vs.mounts + [VolumeMount(clearPath.value, path)]);
        pathAdded := pathAdded + {clearPath.value};
      } else {
        var i := FindVolume(vs.volumes, clearPath.value);
        MoreItems(vs, files, k, configMap, i);
        VolumeKept(vs.volumes, i, vs.volumes[i].(items := vs.volumes[i].items + [item]));
        vs := vs.(volumes := vs.volumes[i := vs.volumes[i].(items := vs.volumes[i].items + [item])]);
      }
    }
    assert files[..|files|] == files;
    return Some(vs);
  }

  /** The inner loop of GenerateAllVolumes. */
  method FindVolume(volumes: seq<Volume>, name: string) returns (i: nat)
    requires HasVolume(volumes, name)
    ensures i < |volumes| && volumes[i].name == name
  {
    i := 0;
    while volumes[i].name != name
      invariant i < |volumes|
      invariant forall j | 0 <= j < i :: volumes[j].name != name
      decreases |volumes| - i
    {
      i := i + 1;
    }
  }

  lemma VolumeAdded(volumes: seq<Volume>, v: Volume)
    ensures forall name :: HasVolume(volumes + [v], name) <==> HasVolume(volumes, name) || name == v.name
  {
    var after := volumes + [v];
    assert after[|volumes|] == v;
    forall name | HasVolume(volumes, name)
      ensures HasVolume(after, name)
    {
      var i :| 0 <= i < |volumes| && volumes[i].name == name;
      assert after[i].name == name;
    }
  }

  lemma VolumeKept(volumes: seq<Volume>, i: nat, v: Volume)
    requires i < |volumes| && volumes[i].name == v.name
    ensures forall name :: HasVolume(volumes[i := v], name) <==> HasVolume(volumes, name)
  {
    var after := volumes[i := v];
    forall name | HasVolume(volumes, name)
      ensures HasVolume(after, name)
    {
      var j :| 0 <= j < |volumes| && volumes[j].name == name;
      assert after[j].name == name;
    }
  }

  /** A file of another name changes nothing about a volume. */
  lemma StillCollects(vs: Volumes, after: Volumes, i: nat, files: seq<ConfigFile>, k: nat, configMap: string)
    requires k < |files| && i < |vs.volumes| && i < |vs.mounts| && i < |after.volumes| && i < |after.mounts|
    requires Collects(vs, i, files[..k], configMap) && !Named(files[k], vs.volumes[i].name)
    requires after.volumes[i] == vs.volumes[i] && after.mounts[i] == vs.mounts[i]
    ensures Collects(after, i, files[..k + 1], configMap)
  {
    var before, now := files[..k], files[..k + 1];
    assert now[..k] == before;
  }

  lemma NewVolume(vs: Volumes, files: seq<ConfigFile>, k: nat, configMap: string, name: string)
    requires k < |files| && Groups(vs, files[..k], configMap) && Named(files[k], name)
    requires !HasVolume(vs.volumes, name)
    ensures Groups(Volumes(vs.volumes + [Volume(name, configMap, [Item(files[k])])],
                           vs.mounts + [VolumeMount(name, Dir(files[k]))]),
                   files[..k + 1], configMap)
  {
    var v := Volume(name, configMap, [Item(files[k])]);
    var after := Volumes(vs.volumes + [v], vs.mounts + [VolumeMount(name, Dir(files[k]))]);
    var before, now := files[..k], files[..k + 1];
    assert now == before + [files[k]];
    forall i | 0 <= i < |vs.volumes|
      ensures Collects(after, i, now, configMap) && vs.volumes[i].name != name
    {
      StillCollects(vs, after, i, files, k, configMap);
    }
    FirstCollects(after, |vs.volumes|, files, k, configMap, name);
    VolumeAdded(vs.volumes, v);
  }

  lemma FirstCollects(after: Volumes, i: nat, files: seq<ConfigFile>, k: nat, configMap: string, name: string)
    requires k < |files| && Named(files[k], name) && forall file | file in files[..k] :: !Named(file, name)
    requires i < |after.volumes| && after.volumes[i] == Volume(name, configMap, [Item(files[k])])
    requires i < |after.mounts| && after.mounts[i] == VolumeMount(name, Dir(files[k]))
    ensures Collects(after, i, files[..k + 1], configMap)
  {
    var now := files[..k + 1];
    assert now[..k] == files[..k];
    NoItems(files[..k], name);
    FirstDirIsFirst(files[..k], name);
  }

  lemma {:induction false} NoItems(files: seq<ConfigFile>, name: string)
    requires forall file | file in files :: !Named(file, name)
    ensures ItemsOf(files, name) == []
  {
    if files != [] {
      NoItems(files[..|files| - 1], name);
    }
  }

  lemma MoreItems(vs: Volumes, files: seq<ConfigFile>, k: nat, configMap: string, i: nat)
    requires k < |files| && Groups(vs, files[..k], configMap)
    requires i < |vs.volumes| && Named(files[k], vs.volumes[i].name)
    ensures Groups(vs.(volumes := vs.volumes[i := vs.volumes[i].(items := vs.volumes[i].items + [Item(files[k])])]),
                   files[..k + 1], configMap)
  {
    var v := vs.volumes[i].(items := vs.volumes[i].items + [Item(files[k])]);
    var after := vs.(volumes := vs.volumes[i := v]);
    var before, now := files[..k], files[..k + 1];
    assert now == before + [files[k]];
    forall n | 0 <= n < |after.volumes|
      ensures Collects(after, n, now, configMap)
    {
      if n == i {
        OneMoreCollects(vs, after, i, files, k, configMap);
      } else {
        StillCollects(vs, after, n, files, k, configMap);
      }
    }
    VolumeKept(vs.volumes, i, v);
    assert forall n | 0 <= n < |vs.volumes| :: after.volumes[n].name == vs.volumes[n].name;
    assert HasVolume(vs.volumes, vs.volumes[i].name);
  }

  lemma OneMoreCollects(vs: Volumes, after: Volumes, i: nat, files: seq<ConfigFile>, k: nat, configMap: string)
    requires k < |files| && i < |vs.volumes| && i < |vs.mounts| && i < |after.volumes| && i < |after.mounts|
    requires Collects(vs, i, files[..k], configMap) && Named(files[k], vs.volumes[i].name)
    requires after.volumes[i] == vs.volumes[i].(items := vs.volumes[i].items + [Item(files[k])])
    requires after.mounts[i] == vs.mounts[i]
    ensures Collects(after, i, files[..k + 1], configMap)
  {
    var before, now := files[..k], files[..k + 1];
    assert now[..k] == before;
  }

  // ---------- The config map ----------

  /** The content of the last file that bears the identifier. */
  function LastContent(files: seq<ConfigFile>, id: string): Option<string> {
    if files == [] then None
    else
      var last := files[|files| - 1];
      if last.id == id then Some(last.content) else LastContent(files[..|files| - 1], id)
  }

  lemma {:induction false} LastContentIsLast(files: seq<ConfigFile>, id: string)
    ensures LastContent(files, id) == None <==> forall file | file in files :: file.id != id
    ensures LastContent(files, id).Some? ==>
              exists i :: 0 <= i < |files| && files[i].id == id && files[i].content == LastContent(files, id).value
                          && forall j | i < j < |files| :: files[j].id != id
  {
    if files != [] {
      var before, n := files[..|files| - 1], |files| - 1;
      assert files == before + [files[n]];
      LastContentIsLast(before, id);
      if files[n].id != id && LastContent(before, id).Some? {
        var i :| 0 <= i < n && before[i].id == id && before[i].content == LastContent(before, id).value
                 && forall j | i < j < n :: before[j].id != id;
        assert files[i].id == id && forall j | i < j < |files| :: files[j].id != id;
      }
    }
  }

  /** Each identifier has the content of the last file that bears it. */
  ghost predicate Consolidates(data: map<string, string>, files: seq<ConfigFile>) {
    forall id :: if id in data then LastContent(files, id) == Some(data[id]) else LastContent(files, id) == None
  }

  method GenerateConsolidateConfigMap(name: string, files: seq<ConfigFile>) returns (configMap: Option<ConfigMap>)
    ensures configMap == None <==> files == []
    ensures configMap.Some? ==> configMap.value.name == name && Consolidates(configMap.value.data, files)
  {
    if |files| == 0 {
      return None;
    }
    var binaryData: map<string, string> := map[];
    for k := 0 to |files|
      invariant Consolidates(binaryData, files[..k])
    {
      assert files[..k + 1][..k] == files[..k];
      binaryData := binaryData[files[k].id := files[k].content];
    }
    assert files[..|files|] == files;
    return Some(ConfigMap(name, binaryData));
  }

  // ---------- What is mounted where ----------

  /** In the container, the path shows the content: through a mount, the volume of its name, one of
      that volume's items and the config map. */
  ghost predicate Shows(out: Volumes, configMap: ConfigMap, path: string, content: string) {
    exists m, v, item ::
      && m in out.mounts && v in out.volumes && item in v.items
      && v.name == m.name && v.configMap == configMap.name
      && m.mountPath + item.path == path
      && item.key in configMap.data && configMap.data[item.key] == content
  }

  /** Files are told apart by their identifiers and by where they are mounted. */
  ghost predicate Distinct(files: seq<ConfigFile>) {
    forall i, j | 0 <= i < j < |files| ::
      files[i].id != files[j].id && files[i].mountPath != files[j].mountPath
  }

  /** No two directories in use are cleaned to one name. */
  ghost predicate NamesTellDirectories(files: seq<ConfigFile>) {
    forall c, d | c in files && d in files && VolumeName(c) == VolumeName(d) :: Dir(c) == Dir(d)
  }

  lemma {:induction false} ItemsAreFiles(files: seq<ConfigFile>, name: string, item: KeyToPath)
    ensures item in ItemsOf(files, name) <==> exists file :: file in files && Named(file, name) && Item(file) == item
  {
    if files != [] {
      var last := files[|files| - 1];
      assert files == files[..|files| - 1] + [last];
      ItemsAreFiles(files[..|files| - 1], name, item);
    }
  }

  lemma VolumeOf(out: Volumes, files: seq<ConfigFile>, configMap: string, file: ConfigFile) returns (i: nat)
    requires Groups(out, files, configMap) && file in files
    ensures i < |out.volumes| && Named(file, out.volumes[i].name) && Collects(out, i, files, configMap)
  {
    assert HasVolume(out.volumes, VolumeName(file).value);
    i :| 0 <= i < |out.volumes| && out.volumes[i].name == VolumeName(file).value;
  }

  lemma ContentOf(data: map<string, string>, files: seq<ConfigFile>, file: ConfigFile)
    requires Consolidates(data, files) && file in files
    ensures file.id in data && LastContent(files, file.id) == Some(data[file.id])
  {
    LastContentIsLast(files, file.id);
  }

  /** The path of a file whose directory is the one its volume is mounted at shows what its identifier
      stands for. */
  lemma ShownIfMounted(out: Volumes, configMap: ConfigMap, files: seq<ConfigFile>, file: ConfigFile, i: nat)
    requires Groups(out, files, configMap.name) && Consolidates(configMap.data, files)
    requires file in files && i < |out.volumes| && Named(file, out.volumes[i].name) && out.mounts[i].mountPath == Dir(file)
    ensures LastContent(files, file.id).Some? && Shows(out, configMap, file.mountPath, LastContent(files, file.id).value)
  {
    assert Collects(out, i, files, configMap.name);
    ItemsAreFiles(files, out.volumes[i].name, Item(file));
    ContentOf(configMap.data, files, file);
    VolumeNameDefined(file);
    PathIsDirAndBase(file, Dir(file), Base(file));
    assert out.mounts[i] in out.mounts && out.volumes[i] in out.volumes && Item(file) in out.volumes[i].items;
  }

  /** What shows at a path does so through one volume, which is mounted once. */
  lemma ShownThrough(out: Volumes, configMap: ConfigMap, files: seq<ConfigFile>, path: string, content: string)
    returns (i: nat, item: KeyToPath)
    requires Groups(out, files, configMap.name) && Shows(out, configMap, path, content)
    ensures i < |out.volumes| && Collects(out, i, files, configMap.name)
    ensures item in ItemsOf(files, out.volumes[i].name) && out.mounts[i].mountPath + item.path == path
    ensures item.key in configMap.data && configMap.data[item.key] == content
  {
    var m, v, it :|
      && m in out.mounts && v in out.volumes && it in v.items
      && v.name == m.name && v.configMap == configMap.name
      && m.mountPath + it.path == path
      && it.key in configMap.data && configMap.data[it.key] == content;
    i :| 0 <= i < |out.mounts| && out.mounts[i] == m;
    item := it;
    var n :| 0 <= n < |out.volumes| && out.volumes[n] == v;
    SameVolume(out, files, configMap.name, i, n);
  }

  lemma SameVolume(out: Volumes, files: seq<ConfigFile>, configMap: string, i: nat, n: nat)
    requires Groups(out, files, configMap) && i < |out.mounts| && n < |out.volumes|
    requires out.mounts[i].name == out.volumes[n].name
    ensures i == n && Collects(out, n, files, configMap)
  {
    assert Collects(out, i, files, configMap);
  }

  /** A path within a mounted directory belongs to that directory. */
  lemma MountedDir(file: ConfigFile, first: ConfigFile, g: ConfigFile)
    requires VolumeName(file).Some? && Dir(first) + Base(g) == file.mountPath
    ensures Dir(first) == Dir(file) && Base(g) == Base(file)
  {
    VolumeNameDefined(first);
    VolumeNameDefined(file);
    PathIsDirAndBase(file, Dir(first), Base(g));
  }

  /** Whatever a file's path shows is what the identifier of a file of the same name in the same volume
      stands for, and the volume is mounted at the file's directory. */
  lemma ShownBy(out: Volumes, configMap: ConfigMap, files: seq<ConfigFile>, file: ConfigFile, content: string)
    returns (g: ConfigFile, i: nat)
    requires Groups(out, files, configMap.name) && Consolidates(configMap.data, files)
    requires file in files && Shows(out, configMap, file.mountPath, content)
    ensures g in files && VolumeName(g) == VolumeName(file) && Base(g) == Base(file) && LastContent(files, g.id) == Some(content)
    ensures i < |out.volumes| && Named(file, out.volumes[i].name) && out.mounts[i].mountPath == Dir(file)
  {
    var item;
    i, item := ShownThrough(out, configMap, files, file.mountPath, content);
    var name := out.volumes[i].name;
    ItemsAreFiles(files, name, item);
    g :| g in files && Named(g, name) && Item(g) == item;
    ContentOf(configMap.data, files, g);
    FirstDirIsFirst(files, name);
    var k: nat :| IsFirst(files, name, k) && out.mounts[i].mountPath == Dir(files[k]);
    MountedDir(file, files[k], g);
  }

  /** Every mounted path shows the content of its file, and nothing else. */
  ghost predicate KeepsMeaning(out: Volumes, configMap: ConfigMap, files: seq<ConfigFile>) {
    forall file, content | file in files :: Shows(out, configMap, file.mountPath, content) <==> content == file.content
  }

  /** Whatever files are mounted at one path, the identifiers of all of them stand for the content that
      each of them has. */
  ghost predicate Agree(files: seq<ConfigFile>) {
    forall f, g | f in files && g in files && f.mountPath == g.mountPath :: LastContent(files, g.id) == Some(f.content)
  }

  /** The generated volumes and config map keep the meaning of the files exactly if the directories in
      use are cleaned to different names and the files agree. */
  lemma FilesKeepTheirMeaning(out: Volumes, configMap: ConfigMap, files: seq<ConfigFile>)
    requires Groups(out, files, configMap.name) && Consolidates(configMap.data, files)
    ensures KeepsMeaning(out, configMap, files) <==> NamesTellDirectories(files) && Agree(files)
  {
    if NamesTellDirectories(files) && Agree(files) {
      forall file, content | file in files
        ensures Shows(out, configMap, file.mountPath, content) <==> content == file.content
      {
        ShownWhenTold(out, configMap, files, file, content);
      }
    }
    if KeepsMeaning(out, configMap, files) {
      forall c, d | c in files && d in files && VolumeName(c) == VolumeName(d)
        ensures Dir(c) == Dir(d)
      {
        BothShown(out, configMap, files, c, d);
      }
      forall f, g | f in files && g in files && f.mountPath == g.mountPath
        ensures LastContent(files, g.id) == Some(f.content)
      {
        var i := MountedWhenTold(out, configMap.name, files, g);
        ShownIfMounted(out, configMap, files, g, i);
      }
    }
  }

  /** Files with different identifiers and mount paths agree, so the names of directories decide. */
  lemma DistinctFilesKeepTheirMeaning(out: Volumes, configMap: ConfigMap, files: seq<ConfigFile>)
    requires Groups(out, files, configMap.name) && Consolidates(configMap.data, files) && Distinct(files)
    ensures KeepsMeaning(out, configMap, files) <==> NamesTellDirectories(files)
  {
    FilesKeepTheirMeaning(out, configMap, files);
    forall f, g | f in files && g in files && f.mountPath == g.mountPath
      ensures LastContent(files, g.id) == Some(f.content)
    {
      var i :| 0 <= i < |files| && files[i] == f;
      var j :| 0 <= j < |files| && files[j] == g;
      LastContentIsLast(files, g.id);
    }
  }

  lemma SamePath(g: ConfigFile, file: ConfigFile)
    requires VolumeName(file).Some? && VolumeName(g).Some? && Dir(g) == Dir(file) && Base(g) == Base(file)
    ensures g.mountPath == file.mountPath
  {
    VolumeNameDefined(g);
    VolumeNameDefined(file);
    PathIsDirAndBase(g, Dir(g), Base(g));
    PathIsDirAndBase(file, Dir(file), Base(file));
  }

  lemma MountedWhenTold(out: Volumes, configMap: string, files: seq<ConfigFile>, file: ConfigFile) returns (i: nat)
    requires Groups(out, files, configMap) && NamesTellDirectories(files) && file in files
    ensures i < |out.volumes| && Named(file, out.volumes[i].name) && out.mounts[i].mountPath == Dir(file)
  {
    i := VolumeOf(out, files, configMap, file);
    FirstDirIsFirst(files, out.volumes[i].name);
    var k: nat :| IsFirst(files, out.volumes[i].name, k) && out.mounts[i].mountPath == Dir(files[k]);
    assert files[k] in files;
  }

  lemma ShownWhenTold(out: Volumes, configMap: ConfigMap, files: seq<ConfigFile>, file: ConfigFile, content: string)
    requires Groups(out, files, configMap.name) && Consolidates(configMap.data, files)
    requires NamesTellDirectories(files) && Agree(files) && file in files
    ensures Shows(out, configMap, file.mountPath, content) <==> content == file.content
  {
    if content == file.content {
      var i := MountedWhenTold(out, configMap.name, files, file);
      ShownIfMounted(out, configMap, files, file, i);
    } else if Shows(out, configMap, file.mountPath, content) {
      var g, _ := ShownBy(out, configMap, files, file, content);
      SamePath(g, file);
    }
  }

  lemma BothShown(out: Volumes, configMap: ConfigMap, files: seq<ConfigFile>, c: ConfigFile, d: ConfigFile)
    requires Groups(out, files, configMap.name) && Consolidates(configMap.data, files)
    requires c in files && d in files && VolumeName(c) == VolumeName(d)
    requires Shows(out, configMap, c.mountPath, c.content) && Shows(out, configMap, d.mountPath, d.content)
    ensures Dir(c) == Dir(d)
  {
    var _, i := ShownBy(out, configMap, files, c, c.content);
    var _, j := ShownBy(out, configMap, files, d, d.content);
    assert i == j;
  }

  // ---------- Each file in one item ----------

  /** How many of the first `k` files go into the volume of this name. */
  function Place(files: seq<ConfigFile>, name: string, k: nat): nat
    requires k <= |files|
  {
    |ItemsOf(files[..k], name)|
  }

  /** The items of the first files come first. */
  lemma {:induction false} ItemsPrefix(files: seq<ConfigFile>, name: string, k: nat)
    requires k <= |files|
    ensures ItemsOf(files[..k], name) <= ItemsOf(files, name)
    decreases |files|
  {
    if k == |files| {
      assert files[..k] == files;
    } else {
      assert files[..|files| - 1][..k] == files[..k];
      ItemsPrefix(files[..|files| - 1], name, k);
    }
  }

  lemma ItemsOfOneMore(files: seq<ConfigFile>, name: string, k: nat)
    requires k < |files|
    ensures ItemsOf(files[..k + 1], name) == ItemsOf(files[..k], name) + if Named(files[k], name) then [Item(files[k])] else []
  {
    assert files[..k + 1][..k] == files[..k];
  }

  lemma PlacesGrow(files: seq<ConfigFile>, name: string, k: nat, l: nat)
    requires k < l <= |files| && Named(files[k], name)
    ensures Place(files, name, k) < Place(files, name, l)
  {
    ItemsOfOneMore(files, name, k);
    assert files[..l][..k + 1] == files[..k + 1];
    ItemsPrefix(files[..l], name, k + 1);
  }

  lemma ItemAtPlace(files: seq<ConfigFile>, name: string, k: nat)
    requires k < |files| && Named(files[k], name)
    ensures Place(files, name, k) < |ItemsOf(files, name)| && ItemsOf(files, name)[Place(files, name, k)] == Item(files[k])
  {
    ItemsOfOneMore(files, name, k);
    ItemsPrefix(files, name, k + 1);
  }

  /** Each file is in exactly one volume, at a place there that no other file has. */
  lemma EachFileOnce(out: Volumes, files: seq<ConfigFile>, configMap: string, k: nat) returns (i: nat)
    requires Groups(out, files, configMap) && k < |files|
    ensures i < |out.volumes| && Named(files[k], out.volumes[i].name)
    ensures forall m: nat | m < |out.volumes| && Named(files[k], out.volumes[m].name) :: m == i
    ensures var place := Place(files, out.volumes[i].name, k);
            && place < |out.volumes[i].items| && out.volumes[i].items[place] == Item(files[k])
            && forall l: nat | l < |files| && Named(files[l], out.volumes[i].name) && Place(files, out.volumes[i].name, l) == place ::
                 l == k
  {
    i := VolumeOf(out, files, configMap, files[k]);
    var name := out.volumes[i].name;
    ItemAtPlace(files, name, k);
    forall l: nat | l < |files| && Named(files[l], name) && l != k
      ensures Place(files, name, l) != Place(files, name, k)
    {
      if l < k {
        PlacesGrow(files, name, l, k);
      } else {
        PlacesGrow(files, name, k, l);
      }
    }
  }

  lemma LastItem(before: seq<KeyToPath>, items: seq<KeyToPath>, named: bool, item: KeyToPath, j: nat)
    requires items == before + (if named then [item] else []) && |before| <= j < |items|
    ensures named && j == |before| && items[j] == item
  {
  }

  /** And every item is the one of a file. */
  lemma {:induction false} EachItemIsAFile(files: seq<ConfigFile>, name: string, n: nat, items: seq<KeyToPath>, j: nat)
    returns (k: nat)
    requires n <= |files| && items == ItemsOf(files[..n], name) && j < |items|
    ensures k < n && Named(files[k], name) && Place(files, name, k) == j && items[j] == Item(files[k])
  {
    if n == 0 {
      assert false;
    }
    var before := ItemsOf(files[..n - 1], name);
    ItemsOfOneMore(files, name, n - 1);
    if j < |before| {
      k := EachItemIsAFile(files, name, n - 1, before, j);
    } else {
      k := n - 1;
      LastItem(before, items, Named(files[k], name), Item(files[k]), j);
    }
  }

  // ---------- Inputs at which it fails ----------

  /** A file in the root directory, and a mount path without a slash, have no volume name. */
  lemma RootHasNoName()
    ensures VolumeName(ConfigFile("id", "/f", "")) == None && VolumeName(ConfigFile("id", "f", "")) == None
  {
    assert "/f"[..1] == "/" && "f"[..0] == "";
    assert Dir(ConfigFile("id", "/f", "")) == "/";
    VolumeNameDefined(ConfigFile("id", "/f", ""));
    VolumeNameDefined(ConfigFile("id", "f", ""));
  }

  /** A directory between two slashes is named by the label characters in it. */
  lemma NameBetweenSlashes(middle: string, base: string)
    requires middle != "" && '/' !in base
    ensures var file := ConfigFile("", "/" + middle + "/" + base, "");
            VolumeName(file) == Some(ReformatLabel(middle)) && Dir(file) == "/" + middle + "/"
  {
    var dir := "/" + middle + "/";
    var file := ConfigFile("", dir + base, "");
    assert "/" + middle + "/" + base == dir + base;
    assert file.mountPath[|dir| - 1] == '/';
    assert LastSlash(file.mountPath) >= |dir| - 1;
    PathIsDirAndBase(file, dir, base);
    assert dir[0] == '/' && !IsSpace(dir[0]) && !IsSpace(dir[|dir| - 1]);
    assert TrimSpace(dir) == dir;
    assert dir[1..] == middle + "/";
    assert dir[1..][..|middle|] == middle;
  }

  lemma LabelOfDotted()
    ensures ReformatLabel("a.b") == ReformatLabel("ab") == "ab"
  {
    assert "a.b"[1..] == ".b" && ".b"[1..] == "b" && "b"[1..] == "" && "ab"[1..] == "b";
  }

  /** Two files whose directories are both cleaned to `ab`: one of them is not mounted. */
  lemma CollidingDirectories(out: Volumes, configMap: ConfigMap, c: ConfigFile, d: ConfigFile)
    requires c.mountPath == "/" + "a.b" + "/" + "x" && d.mountPath == "/" + "ab" + "/" + "x" && c.id != d.id
    requires Groups(out, [c, d], configMap.name) && Consolidates(configMap.data, [c, d])
    ensures !KeepsMeaning(out, configMap, [c, d])
  {
    NameBetweenSlashes("a.b", "x");
    NameBetweenSlashes("ab", "x");
    LabelOfDotted();
    assert VolumeName(c) == VolumeName(d) == Some("ab");
    assert |Dir(c)| == 5 && |Dir(d)| == 4;
    assert [c, d][0] == c && [c, d][1] == d;
    FilesKeepTheirMeaning(out, configMap, [c, d]);
  }
}
