/**
 The archiver's two operations on the local directory: upload one segment, and clean up the
 segments that are both old enough and marked as uploaded.
 */
module Archive {
  import opened Numbers
  import opened Wrappers
  import opened Rows
  import opened Durability

  datatype UploadError = Missing | PutFailed | MarkerFailed | CleanUpFailed | Vanished

  /** Percent of the disk that is free; an empty file system counts as free. */
  function FreePercent(total: nat, available: nat): nat {
    if total == 0 then 100 else Capped(available * 100) / total
  }

  /** What the world answers during one clean-up: the clock, the disk, which removals succeed, and
      the instants at which the clean-up was considered and finished. */
  datatype Surroundings = Surroundings(
    now: nat, total: nat, available: nat, failing: set<Path>, markerFailing: set<Path>, instant: int, finished: int)

  const CLEANUP_INTERVAL := 60

  class Archiver {
    const hourOf: Path -> Option<int>
    const minRetentionHours: nat
    const maxRetentionHours: nat
    const minFreePercent: nat

    var files: map<Path, File>
    var markers: set<Path>
    var lastCleanUp: int
    /** The segments whose put to S3 took effect. */
    var remote: map<Path, File>

    constructor (hourOf: Path -> Option<int>, minRetentionHours: nat, maxRetentionHours: nat, minFreePercent: nat,
                 instant: int)
      ensures Valid() && files == map[] && markers == {} && remote == map[] && lastCleanUp + 60 == instant
      ensures this.hourOf == hourOf && this.minRetentionHours == minRetentionHours
      ensures this.maxRetentionHours == maxRetentionHours && this.minFreePercent == minFreePercent
    {
      this.hourOf := hourOf;
      this.minRetentionHours := minRetentionHours;
      this.maxRetentionHours := maxRetentionHours;
      this.minFreePercent := minFreePercent;
      files, markers, remote, lastCleanUp := map[], {}, map[], instant - CLEANUP_INTERVAL;
    }

    /** A marker stands for a completed put, and the put sent the file that is there. */
    ghost predicate Valid()
      reads this
    {
      && (forall path <- markers :: path in remote)
      && (forall path <- files :: path in remote ==> remote[path] == files[path])
    }

    function Cutoff(around: Surroundings): int {
      FloorHour(around.now) - HOUR *
        if FreePercent(around.total, around.available) < minFreePercent then minRetentionHours else maxRetentionHours
    }

    predicate OldEnough(path: Path, cutoff: int) {
      match hourOf(path)
      case Some(hour) => hour <= cutoff
      case None => false
    }

    /** The marked files whose hour is over by the retention in hours, which is the shorter one while
        too little of the disk is free. A file without an hour in its path stays. */
    ghost function Expired(files: map<Path, File>, markers: set<Path>, around: Surroundings): set<Path> {
      var free := if around.total == 0 then 100 else Capped(around.available * 100) / around.total;
      var hours := if free < minFreePercent then minRetentionHours else maxRetentionHours;
      set path | path in files && path in markers && hourOf(path).Some?
                 && hourOf(path).value + 3600 * hours <= FloorHour(around.now)
    }

    /** Removes exactly the expired files and their markers; when a removal fails, what was removed
        so far was expired, and no other file is touched. */
    method CleanUp(around: Surroundings) returns (ok: bool)
      requires Valid()
      modifies this`files, this`markers
      ensures Valid()
      ensures ok ==> files == old(files) - old(Expired(files, markers, around))
      ensures ok ==> markers == old(markers) - old(Expired(files, markers, around))
      ensures ok <==> old(Expired(files, markers, around)) !! around.failing + around.markerFailing
      ensures exists gone: set<Path> :: gone <= old(Expired(files, markers, around)) && files == old(files) - gone
      ensures old(markers) - old(Expired(files, markers, around)) <= markers <= old(markers)
      ensures forall path <- markers :: path in old(Expired(files, markers, around)) && path !in files ==> !ok
    {
      ghost var due := Expired(files, markers, around);
      ghost var gone: set<Path> := {};
      var todo := files.Keys;
      while todo != {}
        invariant gone <= due && gone !! todo && todo <= files.Keys
        invariant due <= gone + todo
        invariant files == old(files) - gone && markers == old(markers) - gone
        invariant gone !! around.failing + around.markerFailing
        decreases todo
      {
        var path :| path in todo;
        todo := todo - {path};
        if path in markers && OldEnough(path, Cutoff(around)) {
          if path in around.failing {
            assert path in due;
            return false;
          }
          files := files - {path};
          if path in around.markerFailing {
            assert path in due;
            assert files == old(files) - (gone + {path});
            return false;
          }
          markers := markers - {path};
          gone := gone + {path};
        }
      }
      assert gone == due;
      return true;
    }

    /** A clean-up runs at most once a minute; a failed one is tried again at the next occasion. */
    method CleanUpIfDue(around: Surroundings) returns (ok: bool)
      requires Valid()
      modifies this`files, this`markers, this`lastCleanUp
      ensures Valid()
      ensures var due, expired := around.instant - old(lastCleanUp) >= 60, old(Expired(files, markers, around));
        && (ok <==> due ==> expired !! around.failing + around.markerFailing)
        && (!due ==> files == old(files) && markers == old(markers))
        && (ok && due ==> files == old(files) - expired && markers == old(markers) - expired)
        && (!ok ==> exists gone: set<Path> :: gone <= expired && files == old(files) - gone)
        && old(markers) - expired <= markers <= old(markers)
        && lastCleanUp == (if ok && due then around.finished else old(lastCleanUp))
      ensures forall path <- old(files) :: path !in files ==> path in old(markers)
    {
      if around.instant - lastCleanUp < CLEANUP_INTERVAL {
        return true;
      }
      ok := CleanUp(around);
      if ok {
        lastCleanUp := around.finished;
      }
    }

    /** Uploads one segment: a marked one is not sent again unless forced; the marker is
        written only after the put succeeded; then the clean-up runs if it is due. The log line
        at the end asks for the size of the file, which the clean-up may just have removed: then
        the upload reports an error although everything it had to do is done. */
    method Upload(path: Path, force: bool, put: bool, putApplied: bool, marked: bool, markerCreated: bool,
                  logs: bool, around: Surroundings)
      returns (r: Result<(), UploadError>)
      requires Valid() && (put ==> putApplied) && (marked ==> markerCreated)
      modifies this
      ensures Valid()
      ensures r == Err(Missing) <==> path !in old(files)
      ensures var sends := path in old(files) && (path !in old(markers) || force);
        var expired := Expired(old(files), old(markers) + {path}, around);
        var due := around.instant - old(lastCleanUp) >= 60;
        var clean := due ==> expired !! around.failing + around.markerFailing;
        && remote == (if sends && putApplied then old(remote)[path := old(files)[path]] else old(remote))
        && (!sends ==> files == old(files) && markers == old(markers) && (r.Ok? <==> path in old(files)))
        && (sends ==> (r == Err(PutFailed) <==> !put) && (r == Err(MarkerFailed) <==> put && !marked))
        && (sends && !put ==> files == old(files) && markers == old(markers))
        && (sends && put && !marked ==>
              files == old(files) && markers == old(markers) + (if markerCreated then {path} else {}))
        && (sends && put && marked && !due ==> r.Ok? && files == old(files) && markers == old(markers) + {path})
        && (sends && put && marked && due ==>
              && (r.Ok? <==> clean && !(logs && path in expired))
              && (r == Err(Vanished) <==> clean && logs && path in expired)
              && (r == Err(CleanUpFailed) <==> !clean)
              && (clean ==> files == old(files) - expired && markers == old(markers) + {path} - expired)
              && (!clean ==> exists gone: set<Path> :: gone <= expired && files == old(files) - gone)
              && (!clean ==> old(markers) + {path} - expired <= markers <= old(markers) + {path}))
        && lastCleanUp == (if sends && put && marked && due && clean then around.finished else old(lastCleanUp))
      // nothing leaves the disk that S3 does not have
      ensures forall other <- old(files) :: other !in files ==> other in remote && remote[other] == old(files)[other]
      ensures forall other <- files :: other in old(files) && files[other] == old(files)[other]
    {
      if path !in files {
        return Err(Missing);
      }
      if path in markers && !force {
        return Ok(());
      }
      if putApplied {
        remote := remote[path := files[path]];
      }
      if !put {
        return Err(PutFailed);
      }
      if markerCreated {
        markers := markers + {path};
      }
      if !marked {
        return Err(MarkerFailed);
      }
      assert markers == old(markers) + {path};
      var ok := CleanUpIfDue(around);
      if !ok {
        return Err(CleanUpFailed);
      }
      if logs && path !in files {
        return Err(Vanished);
      }
      return Ok(());
    }
  }
}
