/**
 * The age-based sweep of cache_manager.py over its two cache directories
 * (images and data). A directory is the sequence of its files in listing
 * order, each with its modification time (None when it cannot be read)
 * and its size in bytes; times are whole seconds and `now` is an input.
 */
module CacheSweep {
  import opened Wrappers

  datatype CachedFile = CachedFile(name: string, mtime: Option<int>, size: nat)

  /** The persisted statistics of the last sweep. */
  datatype Stats = Stats(lastCleanup: Option<string>, filesRemoved: nat, spaceCleared: nat)

  /** What get_cache_stats reports. */
  datatype CacheStats = CacheStats(sizeMb: real, lastCleanup: Option<string>, filesRemoved: nat, spaceClearedMb: real)

  const SecondsPerDay: int := 86400
  const BytesPerMb: real := 1048576.0

  /** `_should_remove_file`: strictly older than the maximum age; a file whose time cannot be read stays. */
  predicate ShouldRemove(f: CachedFile, now: int, maxAge: int) {
    f.mtime.Some? && now - f.mtime.value > maxAge
  }

  function Removed(files: seq<CachedFile>, now: int, maxAge: int): seq<CachedFile> {
    if files == [] then []
    else
      var n := |files| - 1;
      Removed(files[..n], now, maxAge) + (if ShouldRemove(files[n], now, maxAge) then [files[n]] else [])
  }

  function Kept(files: seq<CachedFile>, now: int, maxAge: int): seq<CachedFile> {
    if files == [] then []
    else
      var n := |files| - 1;
      Kept(files[..n], now, maxAge) + (if ShouldRemove(files[n], now, maxAge) then [] else [files[n]])
  }

  function TotalSize(files: seq<CachedFile>): nat {
    if files == [] then 0 else TotalSize(files[..|files| - 1]) + files[|files| - 1].size
  }

  lemma TotalSizeSnoc(files: seq<CachedFile>, f: CachedFile)
    ensures TotalSize(files + [f]) == TotalSize(files) + f.size
  {
    assert (files + [f])[..|files|] == files;
  }

  /** One more file in the listing lands in exactly one of the two parts. */
  lemma SweepSnoc(files: seq<CachedFile>, f: CachedFile, now: int, maxAge: int)
    ensures ShouldRemove(f, now, maxAge) ==>
              Removed(files + [f], now, maxAge) == Removed(files, now, maxAge) + [f]
              && Kept(files + [f], now, maxAge) == Kept(files, now, maxAge)
    ensures !ShouldRemove(f, now, maxAge) ==>
              Removed(files + [f], now, maxAge) == Removed(files, now, maxAge)
              && Kept(files + [f], now, maxAge) == Kept(files, now, maxAge) + [f]
  {
    assert (files + [f])[..|files|] == files;
    assert Removed(files, now, maxAge) + [] == Removed(files, now, maxAge);
    assert Kept(files, now, maxAge) + [] == Kept(files, now, maxAge);
  }

  /**
   * The removed files are exactly those older than the maximum age, and the
   * kept ones are the rest: those within the age and those whose time cannot
   * be read.
   */
  lemma {:induction false} SweepMembers(files: seq<CachedFile>, now: int, maxAge: int)
    ensures forall f :: f in Removed(files, now, maxAge) <==> f in files && ShouldRemove(f, now, maxAge)
    ensures forall f :: f in Kept(files, now, maxAge) <==> f in files && !ShouldRemove(f, now, maxAge)
  {
    if files != [] {
      var n := |files| - 1;
      SweepMembers(files[..n], now, maxAge);
      assert files == files[..n] + [files[n]];
      SweepSnoc(files[..n], files[n], now, maxAge);
    }
  }

  /** A sweep loses no file and invents none: the two parts together are the listing. */
  lemma {:induction false} SweepPartition(files: seq<CachedFile>, now: int, maxAge: int)
    ensures multiset(Removed(files, now, maxAge)) + multiset(Kept(files, now, maxAge)) == multiset(files)
  {
    if files != [] {
      var n := |files| - 1;
      SweepPartition(files[..n], now, maxAge);
      assert files == files[..n] + [files[n]];
      SweepSnoc(files[..n], files[n], now, maxAge);
    }
  }

  /** The bytes of the removed and the kept files add up to the bytes of the directory. */
  lemma {:induction false} SweepSizes(files: seq<CachedFile>, now: int, maxAge: int)
    ensures TotalSize(Removed(files, now, maxAge)) + TotalSize(Kept(files, now, maxAge)) == TotalSize(files)
  {
    if files != [] {
      var n := |files| - 1;
      var f := files[n];
      SweepSizes(files[..n], now, maxAge);
      assert files == files[..n] + [f];
      SweepSnoc(files[..n], f, now, maxAge);
      TotalSizeSnoc(files[..n], f);
      if ShouldRemove(f, now, maxAge) {
        TotalSizeSnoc(Removed(files[..n], now, maxAge), f);
      } else {
        TotalSizeSnoc(Kept(files[..n], now, maxAge), f);
      }
    }
  }

  /** A file exactly as old as the maximum age is not removed, and with no file older than the maximum, nothing is. */
  lemma {:induction false} NothingOldNothingRemoved(files: seq<CachedFile>, now: int, maxAge: int)
    requires forall i :: 0 <= i < |files| ==> files[i].mtime.None? || now - files[i].mtime.value <= maxAge
    ensures Removed(files, now, maxAge) == [] && Kept(files, now, maxAge) == files
  {
    if files != [] {
      var n := |files| - 1;
      NothingOldNothingRemoved(files[..n], now, maxAge);
      assert files == files[..n] + [files[n]];
    }
  }

  /** The loop of `clear_old_files` over one directory: the files left, how many were removed, and their bytes. */
  method SweepDirectory(files: seq<CachedFile>, now: int, maxAge: int) returns (kept: seq<CachedFile>, removed: nat, cleared: nat)
    ensures kept == Kept(files, now, maxAge)
    ensures removed == |Removed(files, now, maxAge)| && cleared == TotalSize(Removed(files, now, maxAge))
  {
    kept, removed, cleared := [], 0, 0;
    var i := 0;
    while i < |files|
      invariant 0 <= i <= |files|
      invariant kept == Kept(files[..i], now, maxAge)
      invariant removed == |Removed(files[..i], now, maxAge)|
      invariant cleared == TotalSize(Removed(files[..i], now, maxAge))
    {
      var f := files[i];
      assert files[..i + 1] == files[..i] + [f];
      SweepSnoc(files[..i], f, now, maxAge);
      if f.mtime.Some? && now - f.mtime.value > maxAge {
        TotalSizeSnoc(Removed(files[..i], now, maxAge), f);
        removed := removed + 1;
        cleared := cleared + f.size;
      } else {
        kept := kept + [f];
      }
      i := i + 1;
    }
    assert files[..|files|] == files;
  }

  /** The loop of `get_cache_size` over one directory. */
  method DirectorySize(files: seq<CachedFile>) returns (total: nat)
    ensures total == TotalSize(files)
  {
    total := 0;
    var i := 0;
    while i < |files|
      invariant 0 <= i <= |files|
      invariant total == TotalSize(files[..i])
    {
      assert files[..i + 1][..i] == files[..i];
      total := total + files[i].size;
      i := i + 1;
    }
    assert files[..|files|] == files;
  }

  /** `'space_cleared_mb'`: the stored byte count in megabytes, 0 when it is 0. */
  function ClearedMb(spaceCleared: nat): (mb: real)
    ensures mb * BytesPerMb == spaceCleared as real
    ensures spaceCleared == 0 ==> mb == 0.0
  {
    if spaceCleared != 0 then spaceCleared as real / BytesPerMb else 0.0
  }

  class CacheManager {
    var images: seq<CachedFile>
    var data: seq<CachedFile>
    var maxAge: int
    var stats: Stats

    /** `CacheManager(max_age_days)` with the stats file's content, if it could be read. */
    constructor(maxAgeDays: int, images: seq<CachedFile>, data: seq<CachedFile>, stored: Option<Stats>)
      ensures this.images == images && this.data == data
      ensures maxAge == maxAgeDays * SecondsPerDay
      ensures stats == stored.GetOr(Stats(None, 0, 0))
    {
      this.images := images;
      this.data := data;
      maxAge := maxAgeDays * SecondsPerDay;
      stats := stored.GetOr(Stats(None, 0, 0));
    }

    /**
     * `clear_old_files()` at time `now` (`nowIso` its ISO text): both
     * directories are swept, the stats are overwritten with this sweep's
     * totals (not added to the earlier ones), and the totals are returned.
     */
    method ClearOldFiles(now: int, nowIso: string) returns (filesRemoved: nat, spaceCleared: nat)
      modifies this
      ensures images == Kept(old(images), now, maxAge) && data == Kept(old(data), now, maxAge)
      ensures filesRemoved == |Removed(old(images), now, maxAge)| + |Removed(old(data), now, maxAge)|
      ensures spaceCleared == TotalSize(Removed(old(images), now, maxAge)) + TotalSize(Removed(old(data), now, maxAge))
      ensures stats == Stats(Some(nowIso), filesRemoved, spaceCleared)
      ensures maxAge == old(maxAge)
    {
      var keptImages, removedImages, clearedImages := SweepDirectory(images, now, maxAge);
      var keptData, removedData, clearedData := SweepDirectory(data, now, maxAge);
      images := keptImages;
      data := keptData;
      filesRemoved := removedImages + removedData;
      spaceCleared := clearedImages + clearedData;
      stats := Stats(Some(nowIso), filesRemoved, spaceCleared);
    }

    /** `get_cache_size()`: the bytes of both directories, in megabytes. */
    method GetCacheSize() returns (mb: real)
      ensures mb * BytesPerMb == (TotalSize(images) + TotalSize(data)) as real
    {
      var imageBytes := DirectorySize(images);
      var dataBytes := DirectorySize(data);
      mb := (imageBytes + dataBytes) as real / BytesPerMb;
    }

    /** `get_cache_stats()`: the current size and the stored stats of the last sweep. */
    method GetCacheStats() returns (r: CacheStats)
      ensures r.sizeMb * BytesPerMb == (TotalSize(images) + TotalSize(data)) as real
      ensures r.lastCleanup == stats.lastCleanup && r.filesRemoved == stats.filesRemoved
      ensures r.spaceClearedMb == ClearedMb(stats.spaceCleared)
    {
      var size := GetCacheSize();
      r := CacheStats(size, stats.lastCleanup, stats.filesRemoved, ClearedMb(stats.spaceCleared));
    }
  }
}
