/**
 Stream downloads into one shared directory (packages/mcp/src/client.ts):
 `reserveDownloadQuota`, `releaseDownloadQuota`, and the file part of a stream from its
 header frame to its commit or cleanup. Any number of downloads interleave at their awaits.
 */
module Downloads {
  import opened Options
  import opened Totals

  type Path = nat

  datatype Reservation = Reservation(finalPath: Path, bytes: nat)

  datatype Stage = Opening | Receiving | Writing(next: nat) | Renamed | Failing

  datatype Download = Download(part: Path, declared: Option<nat>, fileBytes: nat, stage: Stage)

  function Id(n: nat): nat {
    n
  }

  function Reserved(r: Reservation): nat {
    r.bytes
  }

  function ActivePaths(res: map<Path, Reservation>): set<Path> {
    res.Keys + set p | p in res :: res[p].finalPath
  }

  /** Bytes on disk that no reservation speaks for. */
  ghost function Unreserved(disk: map<Path, nat>, res: map<Path, Reservation>): nat {
    Total(disk - ActivePaths(res), Id)
  }

  ghost function AllReserved(res: map<Path, Reservation>): nat {
    Total(res, Reserved)
  }

  function SizeAt(disk: map<Path, nat>, p: Path): nat {
    if p in disk then disk[p] else 0
  }

  /** No path belongs to two reservations, or to both ends of one. */
  ghost predicate Separate(res: map<Path, Reservation>) {
    && (forall p :: p in res ==> res[p].finalPath !in res)
    && (forall p, q :: p in res && q in res && p != q ==> res[p].finalPath != res[q].finalPath)
  }

  /** What is on disk for a reservation stays within it. */
  ghost predicate Within(disk: map<Path, nat>, res: map<Path, Reservation>) {
    forall p :: p in res ==> SizeAt(disk, p) + SizeAt(disk, res[p].finalPath) <= res[p].bytes
  }

  lemma ActiveWithout(res: map<Path, Reservation>, p: Path)
    requires p in res
    ensures ActivePaths(res) == ActivePaths(res - {p}) + {p, res[p].finalPath}
  {
    var rest := res - {p};
    forall x | x in ActivePaths(res)
      ensures x in ActivePaths(rest) + {p, res[p].finalPath}
    {
      if x !in res {
        var q :| q in res && res[q].finalPath == x;
        assert q != p ==> q in rest && rest[q].finalPath == x;
      }
    }
    forall x | x in ActivePaths(rest)
      ensures x in ActivePaths(res)
    {
      if x !in rest {
        var q :| q in rest && rest[q].finalPath == x;
        assert q in res && res[q].finalPath == x;
      }
    }
  }

  /** Giving up a reservation turns what it wrote into unreserved bytes, and nothing else. */
  lemma ReleaseUnreserved(disk: map<Path, nat>, res: map<Path, Reservation>, p: Path)
    requires p in res && Separate(res)
    ensures Unreserved(disk, res - {p}) == Unreserved(disk, res) + SizeAt(disk, p) + SizeAt(disk, res[p].finalPath)
    ensures AllReserved(res) == AllReserved(res - {p}) + res[p].bytes
    ensures Separate(res - {p})
  {
    var f, rest := res[p].finalPath, disk - ActivePaths(res - {p});
    ActiveWithout(res, p);
    assert p !in ActivePaths(res - {p}) && f !in ActivePaths(res - {p});
    TotalDrop(rest, p, Id);
    TotalDrop(rest - {p}, f, Id);
    assert rest - {p} - {f} == disk - ActivePaths(res);
    TotalWithout(res, p, Reserved);
  }

  /** Counting files or counting reservations, the directory holds no more. */
  lemma {:induction false} DiskIsCovered(disk: map<Path, nat>, res: map<Path, Reservation>)
    requires Separate(res) && Within(disk, res)
    ensures Total(disk, Id) <= Unreserved(disk, res) + AllReserved(res)
    decreases |res|
  {
    if res == map[] {
      assert disk - ActivePaths(res) == disk;
    } else {
      var p :| p in res;
      ReleaseUnreserved(disk, res, p);
      DiskIsCovered(disk, res - {p});
    }
  }

  /** Once anything was admitted, unreserved and reserved bytes together fit the quota. */
  ghost predicate Budget(disk: map<Path, nat>, res: map<Path, Reservation>, admitted: bool, quota: nat) {
    && Separate(res) && Within(disk, res)
    && (admitted ==> Unreserved(disk, res) + AllReserved(res) <= quota)
    && (res != map[] ==> admitted)
  }

  /** A download writes only its own part file, within what it reserved. */
  ghost predicate Bounded(d: Download, disk: map<Path, nat>, res: map<Path, Reservation>, limit: nat) {
    && d.part in res && d.fileBytes <= res[d.part].bytes
    && res[d.part].bytes == (if d.declared.Some? then d.declared.value else limit)
    && (d.stage == Opening ==> d.fileBytes == 0 && d.part !in disk)
    && (d.stage == Receiving ==> d.part in disk && disk[d.part] == d.fileBytes)
    && (d.stage.Writing? ==>
          d.part in disk && d.fileBytes <= d.stage.next <= res[d.part].bytes && disk[d.part] <= d.stage.next)
    && (d.stage != Renamed ==> res[d.part].finalPath !in disk)
    && (d.stage == Renamed ==> d.part !in disk)
  }

  ghost predicate DownloadsInv(downloads: map<nat, Download>, disk: map<Path, nat>, res: map<Path, Reservation>,
                               limit: nat, next: nat)
  {
    && (forall i :: i in downloads ==> i < next && Bounded(downloads[i], disk, res, limit))
    && (forall i, j :: i in downloads && j in downloads && downloads[i].part == downloads[j].part ==> i == j)
  }

  lemma AddKeepsBudget(disk: map<Path, nat>, res: map<Path, Reservation>, admitted: bool, quota: nat,
                       part: Path, r: Reservation)
    requires Budget(disk, res, admitted, quota) && part != r.finalPath && part !in disk && r.finalPath !in disk
    requires part !in ActivePaths(res) && r.finalPath !in ActivePaths(res)
    requires Unreserved(disk, res) + AllReserved(res) + r.bytes <= quota
    ensures Budget(disk, res[part := r], true, quota)
  {
    var more := res[part := r];
    assert more - {part} == res;
    assert forall p :: p in res ==> res[p].finalPath in ActivePaths(res);
    ReleaseUnreserved(disk, more, part);
  }

  lemma ReleaseKeepsBudget(disk: map<Path, nat>, res: map<Path, Reservation>, admitted: bool, quota: nat, part: Path)
    requires Budget(disk, res, admitted, quota) && part in res
    ensures Budget(disk, res - {part}, admitted, quota)
  {
    ReleaseUnreserved(disk, res, part);
  }

  ghost predicate SameElsewhere(disk: map<Path, nat>, disk': map<Path, nat>, own: set<Path>) {
    forall p :: p !in own ==> (p in disk <==> p in disk') && (p in disk ==> disk'[p] == disk[p])
  }

  /** Whatever happens to the two files of one reservation, the others and the budget are not touched. */
  lemma FilesKeepBudget(disk: map<Path, nat>, disk': map<Path, nat>, res: map<Path, Reservation>,
                        admitted: bool, quota: nat, part: Path)
    requires Budget(disk, res, admitted, quota) && part in res
    requires SameElsewhere(disk, disk', {part, res[part].finalPath})
    requires SizeAt(disk', part) + SizeAt(disk', res[part].finalPath) <= res[part].bytes
    ensures Budget(disk', res, admitted, quota)
  {
    ActiveWithout(res, part);
    assert disk' - ActivePaths(res) == disk - ActivePaths(res);
  }

  function NoFiles(): map<Path, nat> {
    map[]
  }

  lemma NothingTotal()
    ensures Total(NoFiles(), Id) == 0
  {
  }

  lemma ExistingWithout(disk: map<Path, nat>, active: set<Path>, p: Path)
    requires p in disk
    ensures Total(disk - active, Id) == Total(disk - {p} - active, Id) + if p in active then 0 else disk[p]
  {
    if p in active {
      assert disk - active == disk - {p} - active;
    } else {
      TotalWithout(disk - active, p, Id);
      assert disk - active - {p} == disk - {p} - active;
    }
  }

  datatype View = View(disk: map<Path, nat>, reservations: map<Path, Reservation>, downloads: map<nat, Download>, next: nat)

  class Directory {
    var disk: map<Path, nat>
    var reservations: map<Path, Reservation>
    var downloads: map<nat, Download>
    var nextDownload: nat
    ghost var admitted: bool
    /** The directory as it was found, and after every event. */
    ghost var views: seq<View>

    ghost function Now(): View
      reads this
    {
      View(disk, reservations, downloads, nextDownload)
    }
    const maxStreamBytes: nat

    const quota := 2 * maxStreamBytes

    ghost predicate Valid()
      reads this
    {
      && Budget(disk, reservations, admitted, quota)
      && DownloadsInv(downloads, disk, reservations, maxStreamBytes, nextDownload)
    }

    /** Once anything was admitted, the directory never holds more than its quota. */
    lemma WithinQuota()
      requires Valid()
      ensures admitted ==> Total(disk, Id) <= quota
    {
      DiskIsCovered(disk, reservations);
    }

    constructor (existing: map<Path, nat>, maxStreamBytes: nat)
      ensures Valid() && disk == existing && reservations == map[] && downloads == map[] && !admitted && nextDownload == 0 && views == [Now()]
      ensures this.maxStreamBytes == maxStreamBytes
    {
      this.maxStreamBytes := maxStreamBytes;
      disk, reservations, downloads, nextDownload, admitted := existing, map[], map[], 0, false;
      new;
      views := [Now()];
    }

    /** Admission: refused exactly when existing, reserved and requested bytes exceed the quota. */
    method ReserveDownloadQuota(part: Path, finalPath: Path, bytes: nat) returns (ok: bool)
      requires Valid() && part != finalPath
      requires part !in disk && finalPath !in disk
      requires part !in ActivePaths(reservations) && finalPath !in ActivePaths(reservations)
      modifies `reservations, `admitted
      ensures Valid()
      ensures ok == (old(Unreserved(disk, reservations) + AllReserved(reservations)) + bytes <= quota)
      ensures reservations == if ok then old(reservations)[part := Reservation(finalPath, bytes)] else old(reservations)
      ensures admitted == (ok || old(admitted))
    {
      var reservedBytes := SumReserved();
      var existingBytes := SumExisting(ActivePaths(reservations));
      if existingBytes + reservedBytes + bytes > quota {
        return false;
      }
      AddReservation(part, finalPath, bytes);
      return true;
    }

    method SumReserved() returns (total: nat)
      ensures total == AllReserved(reservations)
    {
      total := 0;
      var todo := reservations;
      while todo != map[]
        invariant todo.Keys <= reservations.Keys && (forall p :: p in todo ==> todo[p] == reservations[p])
        invariant total + Total(todo, Reserved) == AllReserved(reservations)
        decreases |todo|
      {
        var p :| p in todo;
        TotalWithout(todo, p, Reserved);
        total, todo := total + todo[p].bytes, todo - {p};
      }
    }

    method SumExisting(activePaths: set<Path>) returns (total: nat)
      ensures total == Total(disk - activePaths, Id)
    {
      hide Total;
      total := 0;
      var todo := disk;
      while todo != map[]
        invariant total + Total(todo - activePaths, Id) == Total(disk - activePaths, Id)
        decreases |todo|
      {
        var p :| p in todo;
        ExistingWithout(todo, activePaths, p);
        if p !in activePaths {
          total := total + todo[p];
        }
        todo := todo - {p};
      }
      assert todo - activePaths == NoFiles();
      NothingTotal();
    }

    method AddReservation(part: Path, finalPath: Path, bytes: nat)
      requires Valid() && part != finalPath && part !in disk && finalPath !in disk
      requires part !in ActivePaths(reservations) && finalPath !in ActivePaths(reservations)
      requires Unreserved(disk, reservations) + AllReserved(reservations) + bytes <= quota
      modifies `reservations, `admitted
      ensures Valid() && admitted && reservations == old(reservations)[part := Reservation(finalPath, bytes)]
    {
      hide Budget;
      AddKeepsBudget(disk, reservations, admitted, quota, part, Reservation(finalPath, bytes));
      reservations, admitted := reservations[part := Reservation(finalPath, bytes)], true;
    }

    method ReleaseDownloadQuota(part: Path)
      requires Valid() && part in reservations && forall i :: i in downloads ==> downloads[i].part != part
      modifies `reservations
      ensures Valid() && reservations == old(reservations) - {part}
    {
      hide Budget;
      ReleaseKeepsBudget(disk, reservations, admitted, quota, part);
      reservations := reservations - {part};
    }

    /** The header frame: a size over the limit or over the quota is refused, zero means unknown. */
    method Admit(size: nat, part: Path, finalPath: Path) returns (id: Option<nat>)
      requires Valid() && part != finalPath
      requires part !in disk && finalPath !in disk
      requires part !in ActivePaths(reservations) && finalPath !in ActivePaths(reservations)
      modifies `reservations, `admitted, `downloads, `nextDownload
      ensures Valid()
      ensures var want := if size > 0 then size else maxStreamBytes;
              id.Some? <==> size <= maxStreamBytes
                            && old(Unreserved(disk, reservations) + AllReserved(reservations)) + want <= quota
      ensures id.None? ==> unchanged(this)
      ensures admitted == (old(admitted) || id.Some?)
      ensures id.Some? ==>
                && id.value !in old(downloads)
                && downloads == old(downloads)[id.value := Download(part, if size > 0 then Some(size) else None, 0, Opening)]
                && id.value == old(nextDownload) && nextDownload == id.value + 1
                && reservations == old(reservations)[part := Reservation(finalPath, if size > 0 then size else maxStreamBytes)]
    {
      hide Budget;
      if size > maxStreamBytes {
        return None;
      }
      var declared := if size > 0 then Some(size) else None;
      var ok := ReserveDownloadQuota(part, finalPath, if declared.Some? then declared.value else maxStreamBytes);
      if !ok {
        return None;
      }
      id := Some(nextDownload);
      downloads, nextDownload := downloads[nextDownload := Download(part, declared, 0, Opening)], nextDownload + 1;
    }

    lemma AdmittedOf(id: nat)
      requires Valid() && id in downloads
      ensures admitted && Bounded(downloads[id], disk, reservations, maxStreamBytes)
    {
      assert downloads[id].part in reservations;
    }

    /** One download's own files and record change; everything it shares the directory with stays bounded. */
    lemma Touch(id: nat, was: Download, disk': map<Path, nat>, d: Download)
      requires Valid() && id in downloads && downloads[id] == was && d.part == was.part
      requires var final := reservations[was.part].finalPath;
               && SameElsewhere(disk, disk', {was.part, final})
               && SizeAt(disk', was.part) + SizeAt(disk', final) <= reservations[was.part].bytes
      requires Bounded(d, disk', reservations, maxStreamBytes)
      ensures Budget(disk', reservations, admitted, quota)
      ensures DownloadsInv(downloads[id := d], disk', reservations, maxStreamBytes, nextDownload)
    {
      FilesKeepBudget(disk, disk', reservations, admitted, quota, was.part);
      forall i | i in downloads && i != id
        ensures Bounded(downloads[i], disk', reservations, maxStreamBytes)
      {
        assert downloads[i].part != was.part && reservations[downloads[i].part].finalPath != was.part;
      }
    }

    method OpenDone(id: nat, ok: bool)
      requires Valid() && id in downloads && downloads[id].stage == Opening
      modifies `disk, `reservations, `downloads
      ensures Valid()
      ensures ok ==> downloads == old(downloads)[id := old(downloads)[id].(stage := Receiving)]
                     && disk == old(disk)[old(downloads)[id].part := 0] && reservations == old(reservations)
      ensures !ok ==> downloads == old(downloads) - {id} && disk == old(disk)
                      && reservations == old(reservations) - {old(downloads)[id].part}
    {
      hide Budget;
      var d := downloads[id];
      OwnBound(id);
      if ok {
        Touch(id, d, disk[d.part := 0], d.(stage := Receiving));
        disk, downloads := disk[d.part := 0], downloads[id := d.(stage := Receiving)];
      } else {
        downloads := downloads - {id};
        ReleaseDownloadQuota(d.part);
      }
    }

    /** A chunk is taken only while declared size and limit allow; otherwise the download fails. */
    method ChunkArrives(id: nat, length: nat) returns (taken: bool)
      requires Valid() && id in downloads && downloads[id].stage == Receiving
      modifies `downloads
      ensures Valid()
      ensures var d := old(downloads)[id];
              && taken == (d.fileBytes + length <= (if d.declared.Some? then d.declared.value else maxStreamBytes)
                           && d.fileBytes + length <= maxStreamBytes)
              && downloads == old(downloads)[id := d.(stage := if taken then Writing(d.fileBytes + length) else Failing)]
    {
      hide Budget;
      var d := downloads[id];
      var next := d.fileBytes + length;
      taken := !(d.declared.Some? && next > d.declared.value) && next <= maxStreamBytes;
      var stage := if taken then Writing(next) else Failing;
      OwnBound(id);
      Touch(id, d, disk, d.(stage := stage));
      downloads := downloads[id := d.(stage := stage)];
    }

    lemma OwnBound(id: nat)
      requires Valid() && id in downloads
      ensures var d := downloads[id];
              && d.part in reservations && reservations[d.part].finalPath != d.part
              && SizeAt(disk, d.part) + SizeAt(disk, reservations[d.part].finalPath) <= reservations[d.part].bytes
              && Bounded(d, disk, reservations, maxStreamBytes)
    {
    }

    /** Part of a chunk reaches the disk while the write is under way. */
    method WriteGrows(id: nat, size: nat)
      requires Valid() && id in downloads && downloads[id].stage.Writing?
      requires disk[downloads[id].part] <= size <= downloads[id].stage.next
      modifies `disk
      ensures Valid() && disk == old(disk)[downloads[id].part := size]
    {
      hide Budget;
      var d := downloads[id];
      OwnBound(id);
      Touch(id, d, disk[d.part := size], d);
      assert downloads[id := d] == downloads;
      disk := disk[d.part := size];
    }

    method WriteDone(id: nat, ok: bool)
      requires Valid() && id in downloads && downloads[id].stage.Writing?
      modifies `disk, `downloads
      ensures Valid()
      ensures var d := old(downloads)[id];
              if ok then disk == old(disk)[d.part := d.stage.next]
                         && downloads == old(downloads)[id := d.(stage := Receiving, fileBytes := d.stage.next)]
              else disk == old(disk) && downloads == old(downloads)[id := d.(stage := Failing)]
    {
      hide Budget;
      var d := downloads[id];
      OwnBound(id);
      var size := if ok then d.stage.next else disk[d.part];
      var d' := if ok then d.(stage := Receiving, fileBytes := d.stage.next) else d.(stage := Failing);
      Touch(id, d, disk[d.part := size], d');
      disk, downloads := disk[d.part := size], downloads[id := d'];
    }

    /** The commit renames the part file; a size that differs from the declared one never gets here. */
    method Rename(id: nat, ok: bool)
      requires Valid() && id in downloads && downloads[id].stage == Receiving
      modifies `disk, `downloads
      ensures Valid()
      ensures var d := old(downloads)[id];
              var commits := ok && (d.declared.None? || d.declared.value == d.fileBytes);
              if commits then disk == (old(disk) - {d.part})[reservations[d.part].finalPath := d.fileBytes]
                              && downloads == old(downloads)[id := d.(stage := Renamed)]
              else disk == old(disk) && downloads == old(downloads)[id := d.(stage := Failing)]
    {
      hide Budget;
      var d := downloads[id];
      OwnBound(id);
      var final := reservations[d.part].finalPath;
      if ok && (d.declared.None? || d.declared.value == d.fileBytes) {
        var disk' := (disk - {d.part})[final := disk[d.part]];
        Touch(id, d, disk', d.(stage := Renamed));
        disk, downloads := disk', downloads[id := d.(stage := Renamed)];
      } else {
        Touch(id, d, disk, d.(stage := Failing));
        downloads := downloads[id := d.(stage := Failing)];
      }
    }

    method CommitDone(id: nat)
      requires Valid() && id in downloads && downloads[id].stage == Renamed
      modifies `reservations, `downloads
      ensures Valid() && downloads == old(downloads) - {id}
      ensures reservations == old(reservations) - {old(downloads)[id].part}
    {
      Forget(id);
    }

    method Forget(id: nat)
      requires Valid() && id in downloads
      modifies `reservations, `downloads
      ensures Valid() && downloads == old(downloads) - {id}
      ensures reservations == old(reservations) - {old(downloads)[id].part}
    {
      hide Budget;
      OwnBound(id);
      var part := downloads[id].part;
      downloads := downloads - {id};
      ReleaseDownloadQuota(part);
    }

    /** An error, a cancellation or the end of the stream without its terminal. */
    method Fail(id: nat)
      requires Valid() && id in downloads && downloads[id].stage == Receiving
      modifies `downloads
      ensures Valid() && downloads == old(downloads)[id := old(downloads)[id].(stage := Failing)]
    {
      hide Budget;
      var d := downloads[id];
      OwnBound(id);
      Touch(id, d, disk, d.(stage := Failing));
      downloads := downloads[id := d.(stage := Failing)];
    }

    /** Cleanup removes the part file if it can, and releases the reservation either way. */
    method CleanUp(id: nat, removed: bool)
      requires Valid() && id in downloads && downloads[id].stage == Failing
      modifies `disk, `reservations, `downloads
      ensures Valid() && downloads == old(downloads) - {id}
      ensures disk == if removed then old(disk) - {old(downloads)[id].part} else old(disk)
      ensures reservations == old(reservations) - {old(downloads)[id].part}
    {
      hide Budget;
      var d := downloads[id];
      OwnBound(id);
      if removed {
        Touch(id, d, disk - {d.part}, d);
        assert downloads[id := d] == downloads;
        disk := disk - {d.part};
      }
      Forget(id);
    }
  }

  datatype Event =
    | Header(size: nat, part: Path, finalPath: Path)
    | Opened(id: nat, ok: bool)
    | Chunk(id: nat, length: nat)
    | Grows(id: nat, size: nat)
    | Written(id: nat, ok: bool)
    | End(id: nat, ok: bool)
    | Committed(id: nat)
    | Broken(id: nat)
    | Cleaned(id: nat, removed: bool)

  predicate At(v: View, id: nat, stage: Stage) {
    id in v.downloads && v.downloads[id].stage == stage
  }

  predicate WritingAt(v: View, id: nat) {
    id in v.downloads && v.downloads[id].stage.Writing?
  }

  function Put(v: View, id: nat, d: Download): View {
    v.(downloads := v.downloads[id := d])
  }

  /** A download that is over gives its reservation back. */
  function Over(v: View, id: nat): View
    requires id in v.downloads
  {
    v.(downloads := v.downloads - {id}, reservations := v.reservations - {v.downloads[id].part})
  }

  /** Fresh names, as the random part of a file name makes them. */
  predicate FreshNames(disk: map<Path, nat>, res: map<Path, Reservation>, part: Path, finalPath: Path) {
    && part != finalPath && part !in disk && finalPath !in disk
    && part !in ActivePaths(res) && finalPath !in ActivePaths(res)
  }

  /** What the directory is after an event; one that the download's stage does not allow changes nothing. */
  ghost function Next(v: View, e: Event, limit: nat): View {
    match e
    case Header(size, part, finalPath) =>
      var want := if size > 0 then size else limit;
      if !FreshNames(v.disk, v.reservations, part, finalPath) || size > limit
         || Unreserved(v.disk, v.reservations) + AllReserved(v.reservations) + want > 2 * limit then v
      else
        v.(reservations := v.reservations[part := Reservation(finalPath, want)], next := v.next + 1,
           downloads := v.downloads[v.next := Download(part, if size > 0 then Some(size) else None, 0, Opening)])
    case Opened(id, ok) =>
      if !At(v, id, Opening) then v
      else if !ok then Over(v, id)
      else Put(v, id, v.downloads[id].(stage := Receiving)).(disk := v.disk[v.downloads[id].part := 0])
    case Chunk(id, length) =>
      if !At(v, id, Receiving) then v
      else
        var d := v.downloads[id];
        var bytes := d.fileBytes + length;
        var taken := bytes <= (if d.declared.Some? then d.declared.value else limit) && bytes <= limit;
        Put(v, id, d.(stage := if taken then Writing(bytes) else Failing))
    case Grows(id, size) =>
      if WritingAt(v, id) && SizeAt(v.disk, v.downloads[id].part) <= size <= v.downloads[id].stage.next
      then v.(disk := v.disk[v.downloads[id].part := size]) else v
    case Written(id, ok) =>
      if !WritingAt(v, id) then v
      else if !ok then Put(v, id, v.downloads[id].(stage := Failing))
      else
        var d := v.downloads[id];
        Put(v, id, d.(stage := Receiving, fileBytes := d.stage.next)).(disk := v.disk[d.part := d.stage.next])
    case End(id, ok) =>
      if !At(v, id, Receiving) then v
      else
        var d := v.downloads[id];
        if ok && (d.declared.None? || d.declared.value == d.fileBytes) && d.part in v.reservations then
          Put(v, id, d.(stage := Renamed)).(disk := (v.disk - {d.part})[v.reservations[d.part].finalPath := d.fileBytes])
        else Put(v, id, d.(stage := Failing))
    case Committed(id) => if At(v, id, Renamed) then Over(v, id) else v
    case Broken(id) => if At(v, id, Receiving) then Put(v, id, v.downloads[id].(stage := Failing)) else v
    case Cleaned(id, removed) =>
      if !At(v, id, Failing) then v
      else Over(v, id).(disk := if removed then v.disk - {v.downloads[id].part} else v.disk)
  }

  /** One event of one download. */
  method Handle(d: Directory, e: Event)
    requires d.Valid()
    modifies d
    ensures d.Valid() && (old(d.admitted) ==> d.admitted) && (!d.admitted ==> d.disk == old(d.disk))
    ensures d.Now() == Next(old(d.Now()), e, d.maxStreamBytes) && d.views == old(d.views) + [d.Now()]
  {
    hide DownloadsInv, Next, Budget;
    HandleEvent(d, e);
    d.views := d.views + [d.Now()];
  }

  method HandleHeader(d: Directory, e: Event)
    requires d.Valid() && e.Header?
    modifies d
    ensures d.Valid() && (old(d.admitted) ==> d.admitted) && d.disk == old(d.disk)
    ensures d.Now() == Next(old(d.Now()), e, d.maxStreamBytes) && d.views == old(d.views)
  {
    hide DownloadsInv, Budget, ActivePaths, Unreserved, AllReserved;
    if FreshNames(d.disk, d.reservations, e.part, e.finalPath) {
      var id := d.Admit(e.size, e.part, e.finalPath);
    }
  }

  method HandleEvent(d: Directory, e: Event)
    requires d.Valid()
    modifies d
    ensures d.Valid() && (old(d.admitted) ==> d.admitted) && (!d.admitted ==> d.disk == old(d.disk))
    ensures d.Now() == Next(old(d.Now()), e, d.maxStreamBytes) && d.views == old(d.views)
  {
    hide DownloadsInv, Budget, ActivePaths, Unreserved, AllReserved;
    match e
    case Header(_, _, _) => HandleHeader(d, e);
    case Opened(id, ok) => if id in d.downloads && d.downloads[id].stage == Opening { d.AdmittedOf(id); d.OpenDone(id, ok); }
    case Chunk(id, n) => if id in d.downloads && d.downloads[id].stage == Receiving { var taken := d.ChunkArrives(id, n); }
    case Grows(id, n) =>
      if id in d.downloads && d.downloads[id].stage.Writing? {
        d.AdmittedOf(id);
        if d.disk[d.downloads[id].part] <= n <= d.downloads[id].stage.next { d.WriteGrows(id, n); }
      }
    case Written(id, ok) => if id in d.downloads && d.downloads[id].stage.Writing? { d.AdmittedOf(id); d.WriteDone(id, ok); }
    case End(id, ok) => if id in d.downloads && d.downloads[id].stage == Receiving { d.AdmittedOf(id); d.Rename(id, ok); }
    case Committed(id) => if id in d.downloads && d.downloads[id].stage == Renamed { d.CommitDone(id); }
    case Broken(id) => if id in d.downloads && d.downloads[id].stage == Receiving { d.Fail(id); }
    case Cleaned(id, removed) =>
      if id in d.downloads && d.downloads[id].stage == Failing { d.AdmittedOf(id); d.CleanUp(id, removed); }
  }

  /** Each event acts on what the one before it left. */
  ghost predicate Chain(views: seq<View>, events: seq<Event>, limit: nat) {
    |views| == |events| + 1 && forall i :: 0 <= i < |events| ==> views[i + 1] == Next(views[i], events[i], limit)
  }

  /** At every point the directory is as it was found, or within its quota. */
  ghost predicate AlwaysWithin(views: seq<View>, existing: map<Path, nat>, quota: nat) {
    forall i :: 0 <= i < |views| ==> views[i].disk == existing || Total(views[i].disk, Id) <= quota
  }

  lemma ChainGrows(views: seq<View>, events: seq<Event>, limit: nat, e: Event)
    requires Chain(views, events, limit)
    ensures Chain(views + [Next(views[|events|], e, limit)], events + [e], limit)
  {
    hide Next;
  }

  /**
   Any interleaving of downloads: each event does what it must to the directory, and at every
   point that is as it was found, or within its quota.
   */
  method Drive(existing: map<Path, nat>, maxStreamBytes: nat, events: seq<Event>) returns (d: Directory)
    ensures d.Valid() && Chain(d.views, events, maxStreamBytes) && d.views[|events|] == d.Now()
    ensures d.views[0] == View(existing, map[], map[], 0)
    ensures AlwaysWithin(d.views, existing, 2 * maxStreamBytes)
  {
    hide Budget, DownloadsInv, Total, Next;
    d := new Directory(existing, maxStreamBytes);
    for i := 0 to |events|
      invariant fresh(d) && d.Valid() && d.maxStreamBytes == maxStreamBytes && (!d.admitted ==> d.disk == existing)
      invariant |d.views| == i + 1 && d.views[i] == d.Now() && d.views[0] == View(existing, map[], map[], 0)
      invariant Chain(d.views, events[..i], maxStreamBytes) && AlwaysWithin(d.views, existing, 2 * maxStreamBytes)
    {
      ghost var was := d.views;
      Handle(d, events[i]);
      d.WithinQuota();
      ChainGrows(was, events[..i], maxStreamBytes, events[i]);
      assert events[..i + 1] == events[..i] + [events[i]];
    }
    assert events[..|events|] == events;
  }
}
