// Choosing the partition that holds a directory, by the longest mount point that is a prefix of its path.
module MountPoint {
  import opened Text

  datatype Partition = Partition(mountpoint: string, device: string)

  /** bestPartition before the search: no mount point at all. */
  const NO_PARTITION := Partition("", "")

  predicate Holds(p: Partition, dir: string) {
    HasPrefix(dir, p.mountpoint) && p.mountpoint != ""
  }

  /** What the search is for: no partition that holds the directory has a longer mount point. */
  predicate IsBest(best: Partition, partitions: seq<Partition>, dir: string) {
    && (forall p :: p in partitions && Holds(p, dir) ==> |p.mountpoint| <= |best.mountpoint|)
    && (best == NO_PARTITION || (best in partitions && Holds(best, dir)))
  }

  /** The loop of getPartitionFreeSpace. */
  method FindPartition(partitions: seq<Partition>, dir: string) returns (best: Partition)
    ensures IsBest(best, partitions, dir)
    ensures best == NO_PARTITION <==> forall p :: p in partitions ==> !Holds(p, dir)
    ensures best == First(partitions, dir, best.mountpoint)
  {
    var longest := 0;
    best := NO_PARTITION;
    for i := 0 to |partitions|
      invariant longest == |best.mountpoint|
      invariant IsBest(best, partitions[..i], dir)
      invariant best == First(partitions[..i], dir, best.mountpoint)
    {
      var p := partitions[i];
      assert partitions[..i + 1] == partitions[..i] + [p];
      FirstOfMore(partitions[..i], p, dir, best.mountpoint);
      if HasPrefix(dir, p.mountpoint) && |p.mountpoint| > longest {
        assert forall q :: q in partitions[..i] ==> q.mountpoint != p.mountpoint || !Holds(q, dir);
        NoneBefore(partitions[..i], dir, p.mountpoint);
        FirstOfMore(partitions[..i], p, dir, p.mountpoint);
        best := p;
        longest := |p.mountpoint|;
      }
    }
    assert partitions[..|partitions|] == partitions;
  }

  /** The first partition mounted at a mount point that holds the directory. */
  function First(partitions: seq<Partition>, dir: string, mountpoint: string): Partition {
    if partitions == [] then NO_PARTITION
    else if Holds(partitions[0], dir) && partitions[0].mountpoint == mountpoint then partitions[0]
    else First(partitions[1..], dir, mountpoint)
  }

  lemma {:induction false} FirstOfMore(partitions: seq<Partition>, p: Partition, dir: string, mountpoint: string)
    ensures First(partitions + [p], dir, mountpoint)
         == if First(partitions, dir, mountpoint) != NO_PARTITION then First(partitions, dir, mountpoint)
            else if Holds(p, dir) && p.mountpoint == mountpoint then p else NO_PARTITION
  {
    if partitions == [] {
      assert [p][1..] == [];
    } else {
      assert (partitions + [p])[1..] == partitions[1..] + [p];
      if !(Holds(partitions[0], dir) && partitions[0].mountpoint == mountpoint) {
        FirstOfMore(partitions[1..], p, dir, mountpoint);
      }
    }
  }

  lemma {:induction false} NoneBefore(partitions: seq<Partition>, dir: string, mountpoint: string)
    requires forall q :: q in partitions ==> q.mountpoint != mountpoint || !Holds(q, dir)
    ensures First(partitions, dir, mountpoint) == NO_PARTITION
  {
    if partitions != [] { NoneBefore(partitions[1..], dir, mountpoint); }
  }

  /** Mount points that are prefixes of one path are determined by their length. */
  lemma SameLengthSameMount(p: string, q: string, dir: string)
    requires HasPrefix(dir, p) && HasPrefix(dir, q) && |p| == |q|
    ensures p == q
  {
    assert p == dir[..|p|] && q == dir[..|q|];
  }

  /** The chosen mount point does not depend on the order of the partitions. */
  lemma OrderDoesNotMatter(a: seq<Partition>, b: seq<Partition>, dir: string, bestOfA: Partition, bestOfB: Partition)
    requires multiset(a) == multiset(b)
    requires IsBest(bestOfA, a, dir) && IsBest(bestOfB, b, dir)
    requires bestOfA == NO_PARTITION <==> forall p :: p in a ==> !Holds(p, dir)
    requires bestOfB == NO_PARTITION <==> forall p :: p in b ==> !Holds(p, dir)
    ensures bestOfA.mountpoint == bestOfB.mountpoint
  {
    assert forall p :: p in a <==> p in b by {
      assert forall p :: p in a <==> p in multiset(a);
      assert forall p :: p in b <==> p in multiset(b);
    }
    if bestOfA != NO_PARTITION {
      SameLengthSameMount(bestOfA.mountpoint, bestOfB.mountpoint, dir);
    }
  }

  // ---- Where the path really is ----

  /** The directory is the mount point or below it. */
  predicate IsUnder(dir: string, mountpoint: string) {
    && HasPrefix(dir, mountpoint)
    && (|dir| == |mountpoint| || dir[|mountpoint|] == '/' || (mountpoint != "" && mountpoint[|mountpoint| - 1] == '/'))
  }

  /** The partition of a directory: the longest mount point that it is under. */
  predicate IsPartitionOf(p: Partition, partitions: seq<Partition>, dir: string) {
    && p in partitions && IsUnder(dir, p.mountpoint) && p.mountpoint != ""
    && forall q :: q in partitions && IsUnder(dir, q.mountpoint) ==> |q.mountpoint| <= |p.mountpoint|
  }

  /** A mount point that only shares characters with the path, and is longer than every one that the path is under. */
  predicate Misleads(p: Partition, partitions: seq<Partition>, dir: string) {
    && p in partitions && Holds(p, dir) && !IsUnder(dir, p.mountpoint)
    && forall q :: q in partitions && IsUnder(dir, q.mountpoint) ==> |q.mountpoint| < |p.mountpoint|
  }

  /**
   * The search finds the partition of the directory if and only if some mount point is a prefix of
   * its path and none misleads; "/data" misleads for "/database".
   */
  lemma FoundIsPartitionOf(best: Partition, partitions: seq<Partition>, dir: string)
    requires IsBest(best, partitions, dir)
    requires best == NO_PARTITION <==> forall p :: p in partitions ==> !Holds(p, dir)
    ensures IsPartitionOf(best, partitions, dir)
       <==> (exists p :: p in partitions && Holds(p, dir)) && !exists p :: Misleads(p, partitions, dir)
  {
    if best != NO_PARTITION {
      if IsUnder(dir, best.mountpoint) {
        forall q | q in partitions && IsUnder(dir, q.mountpoint)
          ensures |q.mountpoint| <= |best.mountpoint|
        {
          if q.mountpoint != "" { assert Holds(q, dir); }
        }
      } else {
        assert forall q :: q in partitions && IsUnder(dir, q.mountpoint) && q.mountpoint != "" ==> Holds(q, dir);
        forall q | q in partitions && IsUnder(dir, q.mountpoint)
          ensures |q.mountpoint| < |best.mountpoint|
        {
          if |q.mountpoint| == |best.mountpoint| { SameLengthSameMount(q.mountpoint, best.mountpoint, dir); }
        }
        assert Misleads(best, partitions, dir);
      }
    }
  }

  /** A sibling whose name starts with a mount point's name is taken to be on that mount. */
  lemma SiblingIsMisplaced(root: Partition, data: Partition)
    requires root.mountpoint == "/" && data.mountpoint == "/data"
    ensures IsBest(data, [root, data], "/database") && !IsPartitionOf(data, [root, data], "/database")
    ensures IsPartitionOf(root, [root, data], "/database")
  {
    var dir := "/database";
    assert dir[..5] == "/data" && dir[..1] == "/" && dir[5] == 'b';
    assert !IsUnder(dir, "/data") && IsUnder(dir, "/");
  }
}
