/** Volumes and mounts of a Pod, and what it means that a file or directory named in a
    config is backed by a Secret. */
module Mounts {
  datatype Item = Item(key: string, path: string)
  datatype Part = Part(secret: string, items: seq<Item>)

  /** A whole Secret shows every key as a file of that name. */
  datatype Source = NoSecret | WholeSecret(secret: string) | SecretItems(part: Part) | Projected(parts: seq<Part>)

  datatype Volume = Volume(name: string, source: Source)
  datatype Mount = Mount(volume: string, dir: string)
  datatype Pod = Pod(volumes: seq<Volume>, mounts: seq<Mount>)

  datatype File = File(secret: string, key: string, name: string)

  function PartFiles(p: Part): set<File> {
    set i | 0 <= i < |p.items| :: File(p.secret, p.items[i].key, p.items[i].path)
  }

  function PartsFiles(parts: seq<Part>): set<File> {
    if parts == [] then {} else PartFiles(parts[0]) + PartsFiles(parts[1..])
  }

  function SourceFiles(s: Source): set<File> {
    match s
    case SecretItems(p) => PartFiles(p)
    case Projected(ps) => PartsFiles(ps)
    case _ => {}
  }

  /** The file `name` of the volume is the Secret's `key` and nothing else. */
  ghost predicate Serves(s: Source, secret: string, key: string, name: string) {
    if s.WholeSecret? then s.secret == secret && key == name
    else File(secret, key, name) in SourceFiles(s)
         && forall f :: f in SourceFiles(s) && f.name == name ==> f == File(secret, key, name)
  }

  /** A volume and its mount are both there. */
  ghost predicate Mounted(pod: Pod, volume: string, dir: string, s: Source) {
    Volume(volume, s) in pod.volumes && Mount(volume, dir) in pod.mounts
  }

  ghost predicate BackedFile(pod: Pod, path: string, secret: string, key: string) {
    exists volume, dir, s, name :: Mounted(pod, volume, dir, s) && FileOf(dir, s, name, path, secret, key)
  }

  ghost predicate FileOf(dir: string, s: Source, name: string, path: string, secret: string, key: string) {
    path == dir + "/" + name && '/' !in name && Serves(s, secret, key, name)
  }

  ghost predicate BackedDir(pod: Pod, dir: string, secret: string) {
    exists volume :: Mounted(pod, volume, dir, WholeSecret(secret))
  }

  ghost predicate NoRepeats(s: seq<string>) {
    forall i, j :: 0 <= i < j < |s| ==> s[i] != s[j]
  }

  function VolumeNames(vs: seq<Volume>): seq<string> { seq(|vs|, i requires 0 <= i < |vs| => vs[i].name) }
  function MountDirs(ms: seq<Mount>): seq<string> { seq(|ms|, i requires 0 <= i < |ms| => ms[i].dir) }

  /** No volume name and no mount directory is used twice: the API server refuses the rest,
      and which volume backs a directory is never in doubt. */
  ghost predicate Unambiguous(pod: Pod) {
    NoRepeats(VolumeNames(pod.volumes)) && NoRepeats(MountDirs(pod.mounts))
  }

  // ---------- Appending ----------

  datatype Placement = Placement(volume: string, dir: string, source: Source)

  /** Volumes and mounts appended in order. */
  function PlaceEach(pod: Pod, ps: seq<Placement>): Pod {
    Pod(pod.volumes + seq(|ps|, i requires 0 <= i < |ps| => Volume(ps[i].volume, ps[i].source)),
        pod.mounts + seq(|ps|, i requires 0 <= i < |ps| => Mount(ps[i].volume, ps[i].dir)))
  }

  lemma PlacementIsMounted(pod: Pod, ps: seq<Placement>, i: nat)
    requires i < |ps|
    ensures Mounted(PlaceEach(pod, ps), ps[i].volume, ps[i].dir, ps[i].source)
  {
    var after := PlaceEach(pod, ps);
    assert after.volumes[|pod.volumes| + i] == Volume(ps[i].volume, ps[i].source);
    assert after.mounts[|pod.mounts| + i] == Mount(ps[i].volume, ps[i].dir);
  }

  lemma PlaceOneMore(pod: Pod, ps: seq<Placement>, p: Placement)
    ensures var before, after := PlaceEach(pod, ps), PlaceEach(pod, ps + [p]);
            && after.volumes == before.volumes + [Volume(p.volume, p.source)]
            && after.mounts == before.mounts + [Mount(p.volume, p.dir)]
  {
  }

  function NewNames(ps: seq<Placement>): seq<string> { seq(|ps|, i requires 0 <= i < |ps| => ps[i].volume) }
  function NewDirs(ps: seq<Placement>): seq<string> { seq(|ps|, i requires 0 <= i < |ps| => ps[i].dir) }

  /** No volume name and no directory is placed twice. */
  ghost predicate Apart(ps: seq<Placement>) {
    NoRepeats(NewNames(ps)) && NoRepeats(NewDirs(ps))
  }

  ghost predicate Disjoint(a: seq<string>, b: seq<string>) {
    forall i, j :: 0 <= i < |a| && 0 <= j < |b| ==> a[i] != b[j]
  }

  /** New volumes and directories, each used once. */
  ghost predicate AllNew(pod: Pod, ps: seq<Placement>) {
    && NoRepeats(NewNames(ps)) && Disjoint(VolumeNames(pod.volumes), NewNames(ps))
    && NoRepeats(NewDirs(ps)) && Disjoint(MountDirs(pod.mounts), NewDirs(ps))
  }

  lemma NoRepeatsSplit(a: seq<string>, b: seq<string>)
    ensures NoRepeats(a + b) <==> NoRepeats(a) && NoRepeats(b) && Disjoint(a, b)
  {
    var s := a + b;
    if NoRepeats(s) {
      forall i, j | 0 <= i < j < |a| ensures a[i] != a[j] { assert s[i] == a[i] && s[j] == a[j]; }
      forall i, j | 0 <= i < j < |b| ensures b[i] != b[j] { assert s[|a| + i] == b[i] && s[|a| + j] == b[j]; }
      forall i, j | 0 <= i < |a| && 0 <= j < |b| ensures a[i] != b[j] { assert s[i] == a[i] && s[|a| + j] == b[j]; }
    }
  }

  /** Placing more keeps a Pod unambiguous exactly when all that is placed is new. */
  lemma NewIsUnambiguous(pod: Pod, ps: seq<Placement>)
    requires Unambiguous(pod)
    ensures Unambiguous(PlaceEach(pod, ps)) <==> AllNew(pod, ps)
  {
    var after := PlaceEach(pod, ps);
    assert VolumeNames(after.volumes) == VolumeNames(pod.volumes) + NewNames(ps);
    assert MountDirs(after.mounts) == MountDirs(pod.mounts) + NewDirs(ps);
    NoRepeatsSplit(VolumeNames(pod.volumes), NewNames(ps));
    NoRepeatsSplit(MountDirs(pod.mounts), NewDirs(ps));
  }

  // ---------- Directories in use ----------

  ghost predicate MountsAt(pod: Pod, dir: string) {
    exists i :: 0 <= i < |pod.mounts| && pod.mounts[i].dir == dir
  }

  ghost predicate HasDir(ps: seq<Placement>, dir: string) {
    exists i :: 0 <= i < |ps| && ps[i].dir == dir
  }

  lemma HasDirSplit(a: seq<Placement>, b: seq<Placement>, dir: string)
    ensures HasDir(a + b, dir) <==> HasDir(a, dir) || HasDir(b, dir)
  {
    if HasDir(a, dir) {
      var i :| 0 <= i < |a| && a[i].dir == dir;
      assert (a + b)[i].dir == dir;
    }
    if HasDir(b, dir) {
      var i :| 0 <= i < |b| && b[i].dir == dir;
      assert (a + b)[|a| + i].dir == dir;
    }
  }

  lemma MountsAtSplit(start: Pod, ps: seq<Placement>, dir: string)
    ensures MountsAt(PlaceEach(start, ps), dir) <==> MountsAt(start, dir) || HasDir(ps, dir)
  {
    var after := PlaceEach(start, ps);
    if MountsAt(start, dir) {
      var i :| 0 <= i < |start.mounts| && start.mounts[i].dir == dir;
      assert after.mounts[i].dir == dir;
    }
    if HasDir(ps, dir) {
      var i :| 0 <= i < |ps| && ps[i].dir == dir;
      assert after.mounts[|start.mounts| + i].dir == dir;
    }
  }
}
