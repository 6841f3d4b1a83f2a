/**
 The byte budget of the managed log tree (packages/common/src/log-file-transport.ts,
 class LogQuota). A path stands for its rank in locale order. What the file system does
 is a parameter: the listing, the paths whose unlink fails, and the clock.
 */
module LogQuota {
  import opened Options
  import opened Totals

  type Path = nat

  datatype File = File(bytes: nat, mtime: int, day: int)

  /** What `statSync` says of a file about to be opened. */
  datatype Stat = Found(file: File) | Missing | Unreadable

  /** The file system as one synchronous call meets it; no listing means reading it throws. */
  datatype FileSystem = FileSystem(listing: Option<map<Path, File>>, stuck: set<Path>, now: int)

  const QUOTA_RETRY_MS := 5000
  const DAY_MS := 24 * 60 * 60 * 1000

  function SizeOf(f: File): nat {
    f.bytes
  }

  ghost function Bytes(files: map<Path, File>): nat {
    Total(files, SizeOf)
  }

  lemma NoBytes()
    ensures Bytes(map[]) == 0
  {
  }

  /** Eviction order: oldest first, then by path. */
  predicate Before(files: map<Path, File>, p: Path, q: Path)
    requires p in files && q in files
  {
    files[p].mtime < files[q].mtime || (files[p].mtime == files[q].mtime && p <= q)
  }

  predicate IsOldest(files: map<Path, File>, p: Path, among: set<Path>) {
    p in among && p in files && forall q :: q in among && q in files ==> Before(files, p, q)
  }

  /** Of two files the one written earlier goes first, and of two equally old the one whose path comes first. */
  lemma EvictionOrder(files: map<Path, File>, p: Path, q: Path)
    requires p in files && q in files && p != q
    ensures files[p].mtime < files[q].mtime ==> Before(files, p, q) && !Before(files, q, p)
    ensures files[p].mtime == files[q].mtime && p < q ==> Before(files, p, q) && !Before(files, q, p)
  {
  }

  lemma {:induction false} OldestExists(files: map<Path, File>, among: set<Path>)
    requires among != {} && among <= files.Keys
    ensures exists p :: IsOldest(files, p, among)
    decreases |among|
  {
    var p :| p in among;
    if among == {p} {
      assert IsOldest(files, p, among);
    } else {
      OldestExists(files, among - {p});
      var q :| IsOldest(files, q, among - {p});
      if Before(files, p, q) {
        assert IsOldest(files, p, among);
      } else {
        assert IsOldest(files, q, among);
      }
    }
  }

  ghost function OldestOf(files: map<Path, File>, among: set<Path>): (p: Path)
    requires among != {} && among <= files.Keys
    ensures IsOldest(files, p, among) && forall q :: IsOldest(files, q, among) ==> q == p
  {
    OldestExists(files, among);
    var p :| IsOldest(files, p, among);
    p
  }

  /** Closed files go, oldest first, until the bytes fit, none is left or one cannot go. */
  ghost function Trimmed(files: map<Path, File>, closed: set<Path>, incoming: nat, limit: nat, stuck: set<Path>): map<Path, File>
    requires closed <= files.Keys
    decreases |closed|
  {
    if Bytes(files) + incoming <= limit || closed == {} then files
    else
      var p := OldestOf(files, closed);
      if p in stuck then files else Trimmed(files - {p}, closed - {p}, incoming, limit, stuck)
  }

  /** All of these files go, oldest first, until one cannot. */
  ghost function Purged(files: map<Path, File>, expired: set<Path>, stuck: set<Path>): map<Path, File>
    requires expired <= files.Keys
    decreases |expired|
  {
    if expired == {} then files
    else
      var p := OldestOf(files, expired);
      if p in stuck then files else Purged(files - {p}, expired - {p}, stuck)
  }

  /** Closed files dated before the retention; a retention of zero days keeps everything. */
  ghost function ExpiredIn(files: map<Path, File>, active: set<Path>, days: nat, now: int): set<Path> {
    if days == 0 then {} else set p | p in files && p !in active && files[p].day < now - days * 86400000
  }

  function Elements(s: seq<Path>): set<Path> {
    set p | p in s
  }

  /**
   `evicted` is a prefix of `closed` in eviction order: each was the oldest left when it went.
   */
  ghost predicate IsPrefix(files: map<Path, File>, closed: set<Path>, evicted: seq<Path>) {
    forall k :: 0 <= k < |evicted| ==> IsOldest(files, evicted[k], closed - Elements(evicted[..k]))
  }

  lemma NothingToEvict(files: map<Path, File>, evicted: seq<Path>, closed: set<Path>, stuck: set<Path>)
    requires Elements(evicted) <= closed <= stuck && NoneOf(evicted, stuck)
    ensures files - Elements(evicted) == files
  {
    assert forall p :: p in evicted ==> p in Elements(evicted);
    assert forall p :: p in evicted ==> p !in stuck;
  }

  /** Every eviction was needed: with one file fewer gone, the bytes did not fit. */
  ghost predicate EachNeeded(files: map<Path, File>, evicted: seq<Path>, incoming: nat, limit: nat) {
    forall k :: 0 <= k < |evicted| ==> Bytes(files - Elements(evicted[..k])) + incoming > limit
  }

  /** The counter is the number of suspensions not yet given back. */
  ghost predicate SuspensionInv(suspensions: nat, suspended: set<nat>, next: nat) {
    suspensions == |suspended| && forall t :: t in suspended ==> t < next
  }

  ghost predicate NoneOf(evicted: seq<Path>, stuck: set<Path>) {
    forall k :: 0 <= k < |evicted| ==> evicted[k] !in stuck
  }

  /** What a caller can tell of a quota; its byte total is the sum over its files. */
  datatype View = View(
    files: map<Path, File>,
    active: set<Path>,
    degraded: bool,
    nextRetryAt: int,
    dropped: nat,
    suspended: set<nat>,
    nextSuspension: nat,
    limit: nat,
    days: nat)

  /** No closed file is left, or the oldest one cannot be deleted. */
  ghost predicate Exhausted(files: map<Path, File>, active: set<Path>, stuck: set<Path>) {
    files.Keys - active == {} || exists p :: IsOldest(files, p, files.Keys - active) && p in stuck
  }

  /** Why a write is refused: the retry is not due, the tree cannot be read, the file cannot be, or nothing more can be evicted. */
  ghost predicate Refusal(v: View, p: Path, bytes: int, stat: Stat, fs: FileSystem, files: map<Path, File>, active: set<Path>) {
    || (v.degraded && (fs.now < v.nextRetryAt || fs.listing.None?))
    || (stat == Unreadable && p !in files)
    || (Bytes(files) + bytes > v.limit && Exhausted(files, active, fs.stuck))
  }

  // ------------------------------------------------------------------ the quota, call by call

  ghost function DegradedIn(v: View, now: int): View {
    v.(degraded := true, nextRetryAt := now + 5000)
  }

  /** Room for the incoming bytes, or a degraded quota. */
  ghost function FitIn(v: View, incoming: nat, fs: FileSystem): View {
    var n := v.(files := Trimmed(v.files, v.files.Keys - v.active, incoming, v.limit, fs.stuck));
    if Bytes(n.files) + incoming <= v.limit then n else DegradedIn(n, fs.now)
  }

  ghost function RefreshedIn(v: View, disk: map<Path, File>): View {
    v.(files := Refreshed(v.files, v.active, disk))
  }

  ghost function PurgedIn(v: View, fs: FileSystem): View {
    v.(files := Purged(v.files, ExpiredIn(v.files, v.active, v.days, fs.now), fs.stuck))
  }

  ghost function RetriedIn(v: View, force: bool, fs: FileSystem): View {
    if !force && fs.now < v.nextRetryAt then v
    else if fs.listing.None? then DegradedIn(v, fs.now)
    else
      var n := FitIn(RefreshedIn(v, fs.listing.value).(degraded := false), 0, fs);
      if n.degraded then n else n.(nextRetryAt := 0)
  }

  /** Closed files are re-read, expired ones go, and the rest is brought within the budget. */
  ghost function MaintainedIn(v: View, fs: FileSystem): View {
    if fs.listing.None? then DegradedIn(v, fs.now)
    else
      var w := PurgedIn(RefreshedIn(v, fs.listing.value), fs);
      var n := FitIn(w.(degraded := false), 0, fs);
      if v.degraded && !n.degraded then n.(nextRetryAt := 0) else n
  }

  ghost function ActivatedIn(v: View, p: Path, stat: Stat, fs: FileSystem, today: int): View {
    if p in v.files then v.(active := v.active + {p})
    else if stat == Unreadable then DegradedIn(v, fs.now)
    else v.(active := v.active + {p}, files := v.files[p := if stat.Found? then stat.file else File(0, fs.now, today)])
  }

  ghost function ChargedIn(v: View, p: Path, bytes: nat, now: int): View
    requires p in v.files
  {
    v.(files := v.files[p := v.files[p].(bytes := v.files[p].bytes + bytes, mtime := now)])
  }

  ghost function DroppedIn(v: View): View {
    v.(dropped := v.dropped + 1)
  }

  /** A tracked file is charged if there is room. */
  ghost function WrittenIn(v: View, p: Path, bytes: nat, fs: FileSystem): View {
    var c := FitIn(v, bytes, fs);
    if c.degraded then DroppedIn(c) else if p in c.files then ChargedIn(c, p, bytes, fs.now) else c
  }

  ghost function ReservedIn(v: View, p: Path, bytes: int, stat: Stat, fs: FileSystem, today: int): View {
    if bytes <= 0 then v
    else
      var w := if v.degraded then RetriedIn(v, false, fs) else v;
      var c := FitIn(w, bytes, fs);
      if w.degraded then DroppedIn(w)
      else if c.degraded || p in c.files then WrittenIn(w, p, bytes, fs)
      else if stat == Unreadable then DroppedIn(DegradedIn(c, fs.now))
      else WrittenIn(ActivatedIn(c, p, stat, fs, today), p, bytes, fs)
  }

  /** Everything closed goes but what cannot; a clean sweep ends a degraded state, unless what is left exceeds the budget. */
  ghost function SweptIn(v: View, fs: FileSystem): View
    requires fs.listing.Some?
  {
    var n := v.(files := Swept(Refreshed(v.files, v.active, fs.listing.value), v.active, fs.stuck));
    var base := if n.files.Keys - n.active == {} then n.(degraded := false, nextRetryAt := 0) else n;
    if Bytes(n.files) > n.limit then DegradedIn(base, fs.now) else base
  }

  /** With nothing expired and the bytes within the budget, maintenance deletes nothing. */
  lemma MaintenanceSparesWhatFits(v: View, fs: FileSystem)
    requires fs.listing.Some?
    requires var r := Refreshed(v.files, v.active, fs.listing.value);
             ExpiredIn(r, v.active, v.days, fs.now) == {} && Bytes(r) <= v.limit
    ensures MaintainedIn(v, fs).files == Refreshed(v.files, v.active, fs.listing.value) && !MaintainedIn(v, fs).degraded
  {
  }

  /** Maintenance deletes only closed files. */
  lemma {:induction false} TrimSparesOthers(files: map<Path, File>, closed: set<Path>, incoming: nat, limit: nat, stuck: set<Path>)
    requires closed <= files.Keys
    ensures var n := Trimmed(files, closed, incoming, limit, stuck);
            Kept(files, n) && n.Keys <= files.Keys && forall p :: p in files && p !in n ==> p in closed && p !in stuck
    decreases |closed|
  {
    if !(Bytes(files) + incoming <= limit || closed == {}) {
      var p := OldestOf(files, closed);
      if p !in stuck {
        TrimSparesOthers(files - {p}, closed - {p}, incoming, limit, stuck);
      }
    }
  }

  /** A write to a tracked file of a healthy quota is charged or refused at once, without another look at the file. */
  lemma TrackedWrite(v: View, p: Path, bytes: nat, stat: Stat, fs: FileSystem, today: int)
    requires p in v.active && p in v.files && !v.degraded && bytes > 0
    ensures ReservedIn(v, p, bytes, stat, fs, today) == WrittenIn(v, p, bytes, fs)
  {
    TrimSparesOthers(v.files, v.files.Keys - v.active, bytes, v.limit, fs.stuck);
  }

  lemma {:induction false} PurgeSparesOthers(files: map<Path, File>, expired: set<Path>, stuck: set<Path>)
    requires expired <= files.Keys
    ensures var n := Purged(files, expired, stuck);
            Kept(files, n) && n.Keys <= files.Keys && forall p :: p in files && p !in n ==> p in expired && p !in stuck
    ensures expired !! stuck ==> Purged(files, expired, stuck).Keys == files.Keys - expired
    decreases |expired|
  {
    if expired != {} {
      var p := OldestOf(files, expired);
      if p !in stuck {
        PurgeSparesOthers(files - {p}, expired - {p}, stuck);
      }
    }
  }

  class Quota {
    var files: map<Path, File>
    var active: set<Path>
    var usedBytes: int
    var degraded: bool
    var nextRetryAt: int
    var droppedLines: nat
    var suspensions: nat
    /** Suspensions of maintenance not yet given back. */
    var suspended: set<nat>
    var nextSuspension: nat
    /** The quota as it was loaded, and after every call. */
    ghost var views: seq<View>
    var maxTotalBytes: nat
    var retainDays: nat

    /** The counter is the sum over tracked files, and what is being written is tracked. */
    ghost predicate Valid()
      reads this
    {
      && usedBytes == Bytes(files) && active <= files.Keys
      && SuspensionInv(suspensions, suspended, nextSuspension)
    }

    ghost function Now(): View
      reads this
    {
      View(files, active, degraded, nextRetryAt, droppedLines, suspended, nextSuspension, maxTotalBytes, retainDays)
    }

    function Closed(): set<Path>
      reads this
    {
      files.Keys - active
    }

    /** With maintenance, expired files go at once and the rest is brought within the budget or degrades. */
    constructor (disk: map<Path, File>, maxTotalBytes: nat, retainDays: nat, maintainOnLoad: bool, fs: FileSystem)
      ensures Valid() && active == {} && droppedLines == 0 && suspended == {} && views == [Now()]
      ensures this.maxTotalBytes == maxTotalBytes && this.retainDays == retainDays
      ensures var loaded := View(disk, {}, false, 0, 0, {}, 0, maxTotalBytes, retainDays);
              Now() == if maintainOnLoad then FitIn(PurgedIn(loaded, fs), 0, fs) else loaded
    {
      this.maxTotalBytes, this.retainDays := maxTotalBytes, retainDays;
      files, active, usedBytes := map[], {}, 0;
      degraded, nextRetryAt, droppedLines := false, 0, 0;
      suspensions, suspended, nextSuspension, views := 0, {}, 0, [];
      new;
      NoBytes();
      assert Valid() && Now() == View(map[], {}, false, 0, 0, {}, 0, maxTotalBytes, retainDays);
      hide Bytes, FitIn, PurgedIn, NoneOf, Elements, SuspensionInv;
      LoadManagedFiles(disk);
      if maintainOnLoad {
        MaintainOnLoad(fs);
      }
      views := [Now()];
    }

    method MaintainOnLoad(fs: FileSystem)
      requires Valid() && !degraded
      modifies `files, `usedBytes, `degraded, `nextRetryAt
      ensures Valid() && Now() == FitIn(PurgedIn(old(Now()), fs), 0, fs) && degraded == (usedBytes > maxTotalBytes)
    {
      hide IsPrefix, EachNeeded, Bytes, IsOldest, SuspensionInv, NoneOf, Elements;
      CleanupExpired(fs);
      var ok, evicted := EnsureCapacity(0, fs);
    }

    method LoadManagedFiles(disk: map<Path, File>)
      requires Valid() && files == map[]
      modifies `files, `usedBytes
      ensures Valid() && files == disk
    {
      var todo := disk.Keys;
      while todo != {}
        invariant todo <= disk.Keys && files == disk - todo && Valid()
      {
        var p :| p in todo;
        TotalPut(files, p, disk[p], SizeOf);
        assert files - {p} == files;
        files, usedBytes, todo := files[p := disk[p]], usedBytes + disk[p].bytes, todo - {p};
      }
    }

    method EnterDegraded(now: int)
      modifies `degraded, `nextRetryAt
      ensures degraded && nextRetryAt == now + 5000 && Now() == DegradedIn(old(Now()), now)
    {
      degraded, nextRetryAt := true, now + QUOTA_RETRY_MS;
    }

    method DeleteManagedFile(p: Path, stuck: set<Path>) returns (ok: bool)
      requires Valid() && p in Closed()
      modifies `files, `usedBytes
      ensures Valid() && ok == (p !in stuck)
      ensures ok ==> usedBytes + old(files)[p].bytes == old(usedBytes)
      ensures files == if ok then old(files) - {p} else old(files)
    {
      if p in stuck {
        return false;
      }
      TotalWithout(files, p, SizeOf);
      var left := usedBytes - files[p].bytes;
      files, usedBytes := files - {p}, if left < 0 then 0 else left;
      return true;
    }

    /**
     Makes room for `incoming` bytes by deleting closed files, oldest first, and no more of
     them than it takes. Where that fails, no closed file is left or the next one cannot go.
     */
    method EnsureCapacity(incoming: nat, fs: FileSystem) returns (ok: bool, evicted: seq<Path>)
      requires Valid()
      modifies `files, `usedBytes, `degraded, `nextRetryAt
      ensures Valid() && ok == (usedBytes + incoming <= maxTotalBytes)
      ensures files == old(files) - Elements(evicted) && Elements(evicted) <= old(Closed()) && NoneOf(evicted, fs.stuck)
      ensures IsPrefix(old(files), old(Closed()), evicted) && EachNeeded(old(files), evicted, incoming, maxTotalBytes)
      ensures old(usedBytes) + incoming <= maxTotalBytes ==> ok && evicted == [] && files == old(files)
      ensures ok ==> degraded == old(degraded) && nextRetryAt == old(nextRetryAt)
      ensures !ok ==> degraded && Exhausted(files, active, fs.stuck)
      ensures Now() == FitIn(old(Now()), incoming, fs)
    {
      hide IsOldest, IsPrefix, EachNeeded, Bytes, SuspensionInv;
      ghost var was, closed := files, Closed();
      evicted := [];
      EmptyPrefix(files, closed, incoming, maxTotalBytes);
      if usedBytes + incoming <= maxTotalBytes {
        return true, [];
      }
      var left := Closed();
      var failed := false;
      while usedBytes + incoming > maxTotalBytes && left != {} && !failed
        invariant Valid() && left == Closed() == closed - Elements(evicted)
        invariant files == was - Elements(evicted) && Elements(evicted) <= closed && NoneOf(evicted, fs.stuck)
        invariant IsPrefix(was, closed, evicted) && EachNeeded(was, evicted, incoming, maxTotalBytes)
        invariant failed ==> usedBytes + incoming > maxTotalBytes && exists p :: IsOldest(files, p, left) && p in fs.stuck
        invariant degraded == old(degraded) && nextRetryAt == old(nextRetryAt)
        invariant Trimmed(was, closed, incoming, maxTotalBytes, fs.stuck) == Trimmed(files, left, incoming, maxTotalBytes, fs.stuck)
        invariant failed ==> Trimmed(files, left, incoming, maxTotalBytes, fs.stuck) == files
        decreases left, !failed
      {
        var p, deleted := EvictOldest(left, fs.stuck);
        if deleted {
          PrefixGrows(was, closed, evicted, p, incoming, maxTotalBytes);
          evicted, left := evicted + [p], left - {p};
        } else {
          failed := true;
        }
      }
      ok := usedBytes + incoming <= maxTotalBytes;
      if !ok {
        EnterDegraded(fs.now);
      }
    }

    method EvictOldest(left: set<Path>, stuck: set<Path>) returns (p: Path, deleted: bool)
      requires Valid() && left == Closed() && left != {}
      modifies `files, `usedBytes
      ensures Valid() && deleted == (p !in stuck) && p == OldestOf(old(files), left) && p in left && IsOldest(old(files), p, left)
      ensures files == if deleted then old(files) - {p} else old(files)
    {
      p := PickOldest(left);
      deleted := DeleteManagedFile(p, stuck);
    }

    /** The first of these files in eviction order. */
    method PickOldest(left: set<Path>) returns (p: Path)
      requires left != {} && left <= files.Keys
      ensures p in left && IsOldest(files, p, left) && p == OldestOf(files, left)
    {
      OldestExists(files, left);
      p :| p in left && IsOldest(files, p, left);
    }

    /** Deletes closed files past the retention, oldest first, until one cannot go. */
    method CleanupExpired(fs: FileSystem)
      requires Valid()
      modifies `files, `usedBytes
      ensures Valid() && Now() == PurgedIn(old(Now()), fs)
    {
      hide IsOldest, Bytes, SuspensionInv;
      if retainDays == 0 {
        return;
      }
      var left := set p | p in files && p !in active && files[p].day < fs.now - retainDays * DAY_MS;
      ghost var was, expired := files, ExpiredIn(files, active, retainDays, fs.now);
      assert left == expired;
      while left != {}
        invariant Valid() && left <= Closed()
        invariant Purged(was, expired, fs.stuck) == Purged(files, left, fs.stuck)
      {
        var p := PickOldest(left);
        var deleted := DeleteManagedFile(p, fs.stuck);
        if !deleted {
          return;
        }
        left := left - {p};
      }
    }

    /** Re-reads closed files from the listing; bytes of files being written are known only here. */
    method RefreshClosedFiles(disk: map<Path, File>)
      requires Valid()
      modifies `files, `usedBytes
      ensures Valid() && Now() == RefreshedIn(old(Now()), disk)
    {
      var rest := RereadTracked(disk);
      AddListed(rest);
    }

    /** The first pass: tracked closed files follow the listing or are forgotten. */
    method RereadTracked(disk: map<Path, File>) returns (rest: map<Path, File>)
      requires Valid()
      modifies `files, `usedBytes
      ensures Valid() && rest == disk - (old(files).Keys - active)
      ensures files == map p | p in old(files) && (p in active || p in disk) :: if p in active then old(files)[p] else disk[p]
    {
      hide Bytes;
      ghost var was := files;
      rest := disk;
      var todo := files.Keys;
      while todo != {}
        invariant todo <= was.Keys && Valid()
        invariant files == map p | p in was && (p in todo || p in active || p in disk) ::
                             if p in todo || p in active then was[p] else disk[p]
        invariant rest == disk - ((was.Keys - todo) - active)
      {
        var p :| p in todo;
        todo := todo - {p};
        if p !in active {
          Reread(p, if p in rest then Some(rest[p]) else None);
          rest := rest - {p};
        }
      }
    }

    method Reread(p: Path, next: Option<File>)
      requires Valid() && p in Closed()
      modifies `files, `usedBytes
      ensures Valid() && files == if next.Some? then old(files)[p := next.value] else old(files) - {p}
    {
      TotalWithout(files, p, SizeOf);
      usedBytes := usedBytes - files[p].bytes;
      if next.Some? {
        TotalPut(files, p, next.value, SizeOf);
        files, usedBytes := files[p := next.value], usedBytes + next.value.bytes;
      } else {
        files := files - {p};
      }
    }

    /** The second pass: listed files that were not tracked before. */
    method AddListed(rest: map<Path, File>)
      requires Valid()
      modifies `files, `usedBytes
      ensures Valid() && files == rest + old(files)
    {
      var todo := rest.Keys;
      while todo != {}
        invariant todo <= rest.Keys && Valid() && files == (rest - todo) + old(files)
      {
        var p :| p in todo;
        todo := todo - {p};
        if p !in files {
          TotalPut(files, p, rest[p], SizeOf);
          assert files - {p} == files;
          files, usedBytes := files[p := rest[p]], usedBytes + rest[p].bytes;
        }
      }
    }

    /** Tries to leave the degraded state: at once if forced, else once the retry is due. */
    method Retry(force: bool, fs: FileSystem) returns (recovered: bool)
      requires Valid() && degraded
      modifies `files, `usedBytes, `degraded, `nextRetryAt
      ensures Valid() && ActiveKept(old(files)) && recovered == !degraded && Now() == RetriedIn(old(Now()), force, fs)
      ensures recovered ==> usedBytes <= maxTotalBytes
      ensures (force || fs.now >= old(nextRetryAt)) && fs.listing.Some? ==> recovered == (usedBytes <= maxTotalBytes)
      ensures (force || fs.now >= old(nextRetryAt)) && fs.listing.Some? && !recovered ==> Exhausted(files, active, fs.stuck)
      ensures !force && fs.now < old(nextRetryAt) ==> Now() == old(Now())
      ensures recovered ==> fs.listing.Some? && (force || fs.now >= old(nextRetryAt))
    {
      if !force && fs.now < nextRetryAt {
        return false;
      }
      degraded := false;
      if fs.listing.None? {
        EnterDegraded(fs.now);
        return false;
      }
      RefreshClosedFiles(fs.listing.value);
      var evicted;
      recovered, evicted := EnsureCapacity(0, fs);
      if recovered {
        nextRetryAt := 0;
      }
    }

    /** Files being written stay tracked with the bytes they had. */
    ghost predicate ActiveKept(was: map<Path, File>)
      reads this
    {
      forall p :: p in active && p in was ==> p in files && files[p] == was[p]
    }

    method Activate(p: Path, stat: Stat, fs: FileSystem, today: int) returns (bytes: Option<nat>)
      requires Valid()
      modifies `files, `active, `usedBytes, `degraded, `nextRetryAt
      ensures Valid() && Now() == ActivatedIn(old(Now()), p, stat, fs, today)
      ensures bytes == if p in files then Some(files[p].bytes) else None
      ensures bytes.None? <==> p !in old(files) && stat == Unreadable
    {
      if p in files {
        active := active + {p};
        return Some(files[p].bytes);
      }
      if stat == Unreadable {
        EnterDegraded(fs.now);
        return None;
      }
      var file := if stat.Found? then stat.file else File(0, fs.now, today);
      TotalPut(files, p, file, SizeOf);
      assert files - {p} == files;
      files, usedBytes, active := files[p := file], usedBytes + file.bytes, active + {p};
      return Some(file.bytes);
    }

    /**
     Reserves bytes before a line is queued. An accepted reservation fits the budget and is
     charged to its file; a refused one drops exactly one line; nothing being written is lost.
     */
    method Reserve(p: Path, bytes: int, stat: Stat, fs: FileSystem, today: int) returns (ok: bool)
      requires Valid()
      modifies `files, `active, `usedBytes, `degraded, `nextRetryAt, `droppedLines
      ensures Valid() && old(active) <= active <= old(active) + {p}
      ensures bytes <= 0 ==> ok && files == old(files) && active == old(active) && droppedLines == old(droppedLines)
      ensures bytes > 0 ==> droppedLines == old(droppedLines) + if ok then 0 else 1
      ensures bytes > 0 && ok ==>
                && usedBytes <= maxTotalBytes && !degraded && p in files && files[p].bytes >= bytes
                && (p in old(active) ==> files[p].bytes == old(files)[p].bytes + bytes)
      ensures bytes > 0 && !ok ==> degraded && Refusal(old(Now()), p, bytes, stat, fs, files, active)
      ensures bytes > 0 && ok && old(degraded) ==> fs.now >= old(nextRetryAt) && fs.listing.Some?
      ensures Now() == ReservedIn(old(Now()), p, bytes, stat, fs, today) && (bytes <= 0 ==> Now() == old(Now()))
      ensures old(degraded) && fs.now < old(nextRetryAt) && bytes > 0 ==> Now() == old(Now()).(dropped := old(droppedLines) + 1)
      ensures bytes > 0 && !old(degraded) && p in old(files) && old(usedBytes) + bytes <= maxTotalBytes ==>
                ok && Now() == old(Now()).(files := old(files)[p := old(files)[p].(bytes := old(files)[p].bytes + bytes, mtime := fs.now)])
      ensures forall q :: q in old(active) && (q != p || !ok) ==> q in files && files[q] == old(files)[q]
      decreases if p in active then 0 else 1, 1
    {
      hide IsPrefix, EachNeeded, Bytes, IsOldest, SuspensionInv, NoneOf, Elements, Exhausted;
      hide FitIn, RetriedIn, MaintainedIn, Trimmed, Purged, WrittenIn;
      if bytes <= 0 {
        return true;
      }
      if degraded {
        var recovered := Retry(false, fs);
        if !recovered {
          droppedLines := droppedLines + 1;
          return false;
        }
      }
      ok := ReserveHealthy(p, bytes, stat, fs, today);
    }

    /** The rest of a reservation, once the quota is not degraded. */
    method ReserveHealthy(p: Path, bytes: nat, stat: Stat, fs: FileSystem, today: int) returns (ok: bool)
      requires Valid() && !degraded && bytes > 0
      modifies `files, `active, `usedBytes, `degraded, `nextRetryAt, `droppedLines
      ensures Valid() && old(active) <= active <= old(active) + {p}
      ensures droppedLines == old(droppedLines) + if ok then 0 else 1
      ensures ok ==>
                && usedBytes <= maxTotalBytes && !degraded && p in files && files[p].bytes >= bytes
                && (p in old(active) ==> files[p].bytes == old(files)[p].bytes + bytes)
      ensures !ok ==> degraded && Refusal(old(Now()), p, bytes, stat, fs, files, active)
      ensures Now() == ReservedIn(old(Now()), p, bytes, stat, fs, today)
      ensures p in old(files) && old(usedBytes) + bytes <= maxTotalBytes ==> ok && Now() == ChargedIn(old(Now()), p, bytes, fs.now)
      ensures forall q :: q in old(active) && (q != p || !ok) ==> q in files && files[q] == old(files)[q]
      decreases if p in active then 0 else 1, 0
    {
      hide IsPrefix, EachNeeded, Bytes, IsOldest, SuspensionInv, NoneOf, Elements, Exhausted;
      hide FitIn, RetriedIn, MaintainedIn, Trimmed, Purged;
      var fits, evicted := EnsureCapacity(bytes, fs);
      if !fits {
        droppedLines := droppedLines + 1;
        return false;
      }
      if p !in files {
        var known := Activate(p, stat, fs, today);
        if known == None {
          droppedLines := droppedLines + 1;
          return false;
        }
        TrackedWrite(Now(), p, bytes, stat, fs, today);
        ok := Reserve(p, bytes, stat, fs, today);
        return;
      }
      Charge(p, bytes, fs.now);
      return true;
    }

    method Charge(p: Path, bytes: nat, now: int)
      requires Valid() && p in files
      modifies `files, `usedBytes
      ensures Valid() && usedBytes == old(usedBytes) + bytes && Now() == ChargedIn(old(Now()), p, bytes, now)
    {
      var file := files[p].(bytes := files[p].bytes + bytes, mtime := now);
      TotalWithout(files, p, SizeOf);
      TotalPut(files, p, file, SizeOf);
      files, usedBytes := files[p := file], usedBytes + bytes;
    }

    method Deactivate(p: Path, fs: FileSystem)
      requires Valid()
      modifies `files, `active, `usedBytes, `degraded, `nextRetryAt
      ensures Valid() && active == old(active) - {p} && ActiveKept(old(files))
      ensures suspended != {} ==> Now() == old(Now()).(active := active)
      ensures suspended == {} ==> Now() == MaintainedIn(old(Now()).(active := active), fs)
      ensures suspended == {} ==> degraded == (fs.listing.None? || usedBytes > maxTotalBytes)
    {
      hide IsPrefix, EachNeeded, Bytes, IsOldest;
      active := active - {p};
      if suspensions > 0 {
        return;
      }
      Maintain(fs);
    }

    /** A failed write or another storage error. */
    method StorageFailed(now: int)
      requires Valid()
      modifies `degraded, `nextRetryAt
      ensures Valid() && degraded && nextRetryAt == now + QUOTA_RETRY_MS
    {
      EnterDegraded(now);
    }

    /** The returned token stands for the function that gives the suspension back. */
    method SuspendMaintenance() returns (token: nat)
      requires Valid()
      modifies `suspensions, `suspended, `nextSuspension
      ensures Valid() && token !in old(suspended) && suspensions > 0
      ensures Now() == old(Now()).(suspended := old(suspended) + {token}, nextSuspension := token + 1) && token == old(nextSuspension)
    {
      token := nextSuspension;
      suspensions, suspended, nextSuspension := suspensions + 1, suspended + {token}, nextSuspension + 1;
    }

    /** Giving a suspension back twice counts once. */
    method ResumeMaintenance(token: nat)
      requires Valid()
      modifies `suspensions, `suspended
      ensures Valid() && suspended == old(suspended) - {token}
    {
      if token !in suspended {
        return;
      }
      // the counter is that of the tokens, so the floor at zero never applies
      suspended, suspensions := suspended - {token}, suspensions - 1;
    }

    /**
     Clearing on request: every closed file goes but those that cannot, what was freed is told
     exactly, and a clean sweep ends a degraded state unless active files alone exceed the budget.
     */
    method ClearClosedFiles(fs: FileSystem) returns (cleared: bool, failures: set<Path>, freed: nat)
      requires Valid()
      modifies `files, `usedBytes, `degraded, `nextRetryAt
      ensures Valid() && cleared == fs.listing.Some? && (!cleared ==> unchanged(this) && failures == {} && freed == 0)
      ensures cleared ==>
                && failures == Closed() && failures <= fs.stuck
                && files == Swept(Refreshed(old(files), active, fs.listing.value), active, fs.stuck)
                && freed + Bytes(files) == Bytes(Refreshed(old(files), active, fs.listing.value))
                && degraded == (usedBytes > maxTotalBytes || (failures != {} && old(degraded)))
                && Now() == SweptIn(old(Now()), fs)
    {
      hide IsPrefix, EachNeeded, Bytes, IsOldest, SuspensionInv, NoneOf, Elements;
      cleared, failures, freed := false, {}, 0;
      if fs.listing.None? {
        return;
      }
      cleared := true;
      RefreshClosedFiles(fs.listing.value);
      failures, freed := Sweep(fs.stuck);
      if failures == {} {
        degraded, nextRetryAt := false, 0;
      } else if usedBytes > maxTotalBytes {
        EnterDegraded(fs.now);
      }
      ghost var left := files;
      var ok, evicted := EnsureCapacity(0, fs);
      assert files == left by { NothingToEvict(left, evicted, failures, fs.stuck); }
    }

    method Sweep(stuck: set<Path>) returns (failures: set<Path>, freed: nat)
      requires Valid()
      modifies `files, `usedBytes
      ensures Valid() && failures == Closed() && failures <= stuck
      ensures files == Swept(old(files), active, stuck) && freed + Bytes(files) == Bytes(old(files))
    {
      hide Bytes;
      ghost var was := files;
      failures, freed := {}, 0;
      var todo := Closed();
      while todo != {}
        invariant Valid() && todo <= Closed() && failures == Closed() - todo && failures <= stuck
        invariant files == map p | p in was && (p in active || p in todo || p in stuck) :: was[p]
        invariant freed + Bytes(files) == Bytes(was)
      {
        var p :| p in todo;
        var bytes := files[p].bytes;
        ghost var before := usedBytes;
        var ok := DeleteManagedFile(p, stuck);
        if ok {
          freed := freed + bytes;
        } else {
          failures := failures + {p};
        }
        todo := todo - {p};
      }
    }

    method Maintain(fs: FileSystem)
      requires Valid()
      modifies `files, `usedBytes, `degraded, `nextRetryAt
      ensures Valid() && ActiveKept(old(files))
      ensures degraded == (fs.listing.None? || usedBytes > maxTotalBytes)
      ensures Now() == MaintainedIn(old(Now()), fs)
    {
      hide IsPrefix, EachNeeded, Bytes, IsOldest, SuspensionInv, NoneOf, Elements, Exhausted, Trimmed, Purged, ExpiredIn;
      if fs.listing.None? {
        EnterDegraded(fs.now);
        return;
      }
      RefreshClosedFiles(fs.listing.value);
      ghost var refreshed := Now();
      CleanupExpired(fs);
      PurgeSparesActive(refreshed, fs);
      if degraded {
        // what was deleted is gone from the listing that the retry reads
        var listing := map p | p in fs.listing.value && p in files :: fs.listing.value[p];
        RereadAgrees(old(files), active, fs.listing.value, files, listing);
        var recovered := Retry(true, fs.(listing := Some(listing)));
      } else {
        var ok, evicted := EnsureCapacity(0, fs);
      }
    }

    /** A changed policy applies at once; an unreadable tree degrades and the error goes to the caller. */
    method UpdatePolicy(maxTotalBytes: nat, retainDays: nat, fs: FileSystem) returns (applied: bool)
      requires Valid()
      modifies `files, `usedBytes, `degraded, `nextRetryAt, `maxTotalBytes, `retainDays
      ensures Valid() && active == old(active) && ActiveKept(old(files)) && applied == fs.listing.Some?
      ensures Now() == MaintainedIn(old(Now()).(limit := maxTotalBytes, days := retainDays, degraded := false, nextRetryAt := 0), fs)
      ensures degraded == (!applied || usedBytes > maxTotalBytes)
      ensures this.maxTotalBytes == maxTotalBytes && this.retainDays == retainDays
    {
      this.maxTotalBytes, this.retainDays := maxTotalBytes, retainDays;
      degraded, nextRetryAt := false, 0;
      if fs.listing.None? {
        EnterDegraded(fs.now);
        return false;
      }
      hide IsPrefix, EachNeeded, Bytes, IsOldest, SuspensionInv, NoneOf, Elements, Exhausted, Trimmed, Purged, ExpiredIn;
      RefreshClosedFiles(fs.listing.value);
      ghost var refreshed := Now();
      CleanupExpired(fs);
      PurgeSparesActive(refreshed, fs);
      var ok, evicted := EnsureCapacity(0, fs);
      return true;
    }
  }

  /** Files left are as they were. */
  ghost predicate Kept(was: map<Path, File>, files: map<Path, File>) {
    forall p :: p in files ==> p in was && files[p] == was[p]
  }

  /** What a sweep leaves: files being written, and closed ones that cannot be deleted. */
  ghost function Swept(files: map<Path, File>, active: set<Path>, stuck: set<Path>): map<Path, File> {
    map p | p in files && (p in active || p in stuck) :: files[p]
  }

  /** Tracked active files as they are, everything else as the listing says. */
  ghost function Refreshed(files: map<Path, File>, active: set<Path>, disk: map<Path, File>): map<Path, File> {
    map p | p in files.Keys + disk.Keys && ((p in active && p in files) || p in disk) ::
      if p in active && p in files then files[p] else disk[p]
  }

  /** A purge of expired closed files leaves those being written. */
  lemma PurgeSparesActive(v: View, fs: FileSystem)
    ensures forall p :: p in v.active && p in v.files ==> p in PurgedIn(v, fs).files && PurgedIn(v, fs).files[p] == v.files[p]
    ensures Kept(v.files, PurgedIn(v, fs).files) && PurgedIn(v, fs).files.Keys <= v.files.Keys
  {
    PurgeSparesOthers(v.files, ExpiredIn(v.files, v.active, v.days, fs.now), fs.stuck);
  }

  /** Re-reading what is left of a listing changes nothing. */
  lemma RereadAgrees(was: map<Path, File>, active: set<Path>, disk: map<Path, File>, files: map<Path, File>, listing: map<Path, File>)
    requires Kept(Refreshed(was, active, disk), files) && active <= files.Keys
    requires listing == map p | p in disk && p in files :: disk[p]
    ensures Refreshed(files, active, listing) == files
  {
    var again := Refreshed(files, active, listing);
    forall p | p in files ensures p in again && again[p] == files[p] {
      assert p in Refreshed(was, active, disk);
    }
    forall p | p in again ensures p in files {
    }
  }

  lemma EmptyPrefix(files: map<Path, File>, closed: set<Path>, incoming: nat, limit: nat)
    ensures IsPrefix(files, closed, []) && EachNeeded(files, [], incoming, limit) && files - Elements([]) == files
  {
  }

  lemma PrefixGrows(files: map<Path, File>, closed: set<Path>, evicted: seq<Path>, p: Path, incoming: nat, limit: nat)
    requires IsPrefix(files, closed, evicted) && EachNeeded(files, evicted, incoming, limit)
    requires IsOldest(files - Elements(evicted), p, closed - Elements(evicted))
    requires Bytes(files - Elements(evicted)) + incoming > limit
    ensures IsPrefix(files, closed, evicted + [p]) && EachNeeded(files, evicted + [p], incoming, limit)
    ensures Elements(evicted + [p]) == Elements(evicted) + {p}
    ensures files - Elements(evicted + [p]) == files - Elements(evicted) - {p}
  {
    var more := evicted + [p];
    assert forall k :: 0 <= k <= |evicted| ==> more[..k] == evicted[..k];
    assert evicted[..|evicted|] == evicted;
    assert Elements(more) == Elements(evicted) + {p};
    assert IsOldest(files, p, closed - Elements(evicted));
  }

  datatype Event =
    | Opens(path: Path, stat: Stat, today: int)
    | Writes(path: Path, bytes: int, stat: Stat, today: int)
    | Closes(path: Path)
    | PolicyChanges(maxTotalBytes: nat, retainDays: nat)
    | Fails
    | Suspends
    | Resumes(token: nat)
    | Clears

  /** What the quota is after a call. */
  ghost function Next(v: View, e: Event, fs: FileSystem): View {
    match e
    case Opens(p, stat, today) => ActivatedIn(v, p, stat, fs, today)
    case Writes(p, bytes, stat, today) => ReservedIn(v, p, bytes, stat, fs, today)
    case Closes(p) =>
      var w := v.(active := v.active - {p});
      if v.suspended == {} then MaintainedIn(w, fs) else w
    case PolicyChanges(limit, days) =>
      MaintainedIn(v.(limit := limit, days := days, degraded := false, nextRetryAt := 0), fs)
    case Fails => DegradedIn(v, fs.now)
    case Suspends => v.(suspended := v.suspended + {v.nextSuspension}, nextSuspension := v.nextSuspension + 1)
    case Resumes(token) => v.(suspended := v.suspended - {token})
    case Clears => if fs.listing.None? then v else SweptIn(v, fs)
  }

  /** Files being written are kept as they are, but for the one closed or written. */
  ghost predicate KeepsActive(v: View, e: Event, n: View) {
    && (forall p :: p in v.active && !(e.Closes? && p == e.path) ==> p in n.active)
    && (forall p :: p in v.active && p in n.active && !(e.Writes? && p == e.path && n.dropped == v.dropped) ==>
          p in n.files && p in v.files && n.files[p] == v.files[p])
  }

  ghost predicate SameSettings(v: View, n: View) {
    n.suspended == v.suspended && n.limit == v.limit && n.days == v.days
  }

  /** A write is accepted within the budget and charged to its file, or refused for a reason and counted. */
  ghost predicate ReactsToWrite(v: View, p: Path, bytes: nat, stat: Stat, fs: FileSystem, n: View) {
    && SameSettings(v, n)
    && (n.dropped == v.dropped || n.dropped == v.dropped + 1)
    && (n.dropped == v.dropped ==>
          && !n.degraded && Bytes(n.files) <= n.limit && p in n.files && n.files[p].bytes >= bytes
          && (p in v.active && p in v.files ==> n.files[p].bytes == v.files[p].bytes + bytes)
          && (v.degraded ==> fs.now >= v.nextRetryAt && fs.listing.Some?))
    && (n.dropped == v.dropped + 1 ==> n.degraded && Refusal(v, p, bytes, stat, fs, n.files, n.active))
    && (v.degraded && fs.now < v.nextRetryAt ==> n == v.(dropped := v.dropped + 1))
    && (!v.degraded && p in v.files && Bytes(v.files) + bytes <= v.limit ==>
          n == v.(files := v.files[p := v.files[p].(bytes := v.files[p].bytes + bytes, mtime := fs.now)]))
  }

  /** What one call may make of the quota. */
  ghost predicate Reacts(v: View, e: Event, fs: FileSystem, n: View) {
    && KeepsActive(v, e, n) && (!e.Writes? ==> n.dropped == v.dropped)
    && match e
       case Opens(p, stat, today) =>
         if p in v.files then n == v.(active := v.active + {p})
         else if stat == Unreadable then n == v.(degraded := true, nextRetryAt := fs.now + 5000)
         else n == v.(active := v.active + {p}, files := v.files[p := if stat.Found? then stat.file else File(0, fs.now, today)])
       case Writes(p, bytes, stat, today) => if bytes <= 0 then n == v else ReactsToWrite(v, p, bytes, stat, fs, n)
       case Closes(p) =>
         if v.suspended != {} then n == v.(active := v.active - {p})
         else SameSettings(v, n) && n.active == v.active - {p} && n.degraded == (fs.listing.None? || Bytes(n.files) > n.limit)
       case PolicyChanges(limit, days) =>
         && n.limit == limit && n.days == days && n.active == v.active && n.suspended == v.suspended
         && n.degraded == (fs.listing.None? || Bytes(n.files) > limit)
       case Fails => n == v.(degraded := true, nextRetryAt := fs.now + 5000)
       case Suspends => v.nextSuspension !in v.suspended ==> n.suspended == v.suspended + {v.nextSuspension}
       case Resumes(t) => n == v.(suspended := v.suspended - {t})
       case Clears =>
         if fs.listing.None? then n == v
         else
           && SameSettings(v, n) && n.active == v.active
           && n.files == Swept(Refreshed(v.files, v.active, fs.listing.value), v.active, fs.stuck)
           && n.degraded == (Bytes(n.files) > n.limit || (n.files.Keys - n.active != {} && v.degraded))
  }

  method HandleWrite(q: Quota, p: Path, bytes: int, stat: Stat, today: int, fs: FileSystem)
    requires q.Valid()
    modifies q
    ensures q.Valid() && q.views == old(q.views) && Reacts(old(q.Now()), Writes(p, bytes, stat, today), fs, q.Now())
    ensures q.Now() == Next(old(q.Now()), Writes(p, bytes, stat, today), fs)
  {
    hide IsPrefix, EachNeeded, Bytes, IsOldest, SuspensionInv, NoneOf, Elements, Exhausted, Refusal;
    hide MaintainedIn, FitIn, PurgedIn, RefreshedIn, Trimmed, Purged, ExpiredIn, RetriedIn, ReservedIn, WrittenIn, SweptIn;
    var ok := q.Reserve(p, bytes, stat, fs, today);
  }

  method HandleFile(q: Quota, e: Event, fs: FileSystem)
    requires q.Valid() && (e.Opens? || e.Closes? || e.PolicyChanges?)
    modifies q
    ensures q.Valid() && q.views == old(q.views) && Reacts(old(q.Now()), e, fs, q.Now())
    ensures q.Now() == Next(old(q.Now()), e, fs)
  {
    hide IsPrefix, EachNeeded, Bytes, IsOldest, NoneOf, Elements, Exhausted, ReactsToWrite, SuspensionInv;
    hide MaintainedIn, FitIn, PurgedIn, RefreshedIn, Trimmed, Purged, ExpiredIn, RetriedIn, ReservedIn, WrittenIn, SweptIn, Refusal;
    match e
    case Opens(p, stat, today) => var bytes := q.Activate(p, stat, fs, today);
    case Closes(p) => q.Deactivate(p, fs);
    case PolicyChanges(limit, days) => var applied := q.UpdatePolicy(limit, days, fs);
  }

  /** A call that neither opens, writes nor closes a file. */
  method HandleAside(q: Quota, e: Event, fs: FileSystem)
    requires q.Valid() && (e.Fails? || e.Suspends? || e.Resumes? || e.Clears?)
    modifies q
    ensures q.Valid() && q.views == old(q.views) && Reacts(old(q.Now()), e, fs, q.Now())
    ensures q.Now() == Next(old(q.Now()), e, fs)
  {
    hide IsPrefix, EachNeeded, Bytes, IsOldest, SuspensionInv, NoneOf, Elements, Exhausted, ReactsToWrite;
    hide MaintainedIn, FitIn, PurgedIn, RefreshedIn, Trimmed, Purged, ExpiredIn, RetriedIn, ReservedIn, WrittenIn, Refusal;
    match e
    case Fails => q.StorageFailed(fs.now);
    case Suspends => var token := q.SuspendMaintenance();
    case Resumes(token) => q.ResumeMaintenance(token);
    case Clears => var cleared, failures, freed := q.ClearClosedFiles(fs);
  }

  /** One call of the transport. */
  method Handle(q: Quota, e: Event, fs: FileSystem)
    requires q.Valid()
    modifies q
    ensures q.Valid() && Reacts(old(q.Now()), e, fs, q.Now()) && q.views == old(q.views) + [q.Now()]
    ensures q.Now() == Next(old(q.Now()), e, fs)
  {
    hide Reacts, Bytes, SuspensionInv, Next;
    if e.Writes? {
      HandleWrite(q, e.path, e.bytes, e.stat, e.today, fs);
    } else if e.Opens? || e.Closes? || e.PolicyChanges? {
      HandleFile(q, e, fs);
    } else {
      HandleAside(q, e, fs);
    }
    q.views := q.views + [q.Now()];
  }

  /** Each call reacts to the view that the one before it left. */
  ghost predicate Chain(views: seq<View>, events: seq<Event>, fs: seq<FileSystem>) {
    && |views| == |events| + 1 && |fs| == |events|
    && forall i :: 0 <= i < |events| ==>
         views[i + 1] == Next(views[i], events[i], fs[i]) && Reacts(views[i], events[i], fs[i], views[i + 1])
  }

  /** The quota as the listing and, where asked for, the first maintenance leave it. */
  ghost function Loaded(disk: map<Path, File>, limit: nat, days: nat, maintained: bool, fs: FileSystem): View {
    var loaded := View(disk, {}, false, 0, 0, {}, 0, limit, days);
    if maintained then FitIn(PurgedIn(loaded, fs), 0, fs) else loaded
  }

  /** The writes that were refused. */
  function Refusals(views: seq<View>): nat {
    if |views| <= 1 then 0
    else Refusals(views[..|views| - 1]) + if views[|views| - 1].dropped > views[|views| - 2].dropped then 1 else 0
  }

  lemma {:induction false} DroppedLinesAreRefusals(views: seq<View>, events: seq<Event>, fs: seq<FileSystem>)
    requires Chain(views, events, fs)
    ensures views[|events|].dropped == views[0].dropped + Refusals(views)
  {
    if events != [] {
      var n := |events| - 1;
      assert Reacts(views[n], events[n], fs[n], views[n + 1]);
      assert Chain(views[..n + 1], events[..n], fs[..n]) by {
        hide Reacts, Next;
        assert forall i :: 0 <= i < n ==>
          views[i + 1] == Next(views[i], events[i], fs[i]) && Reacts(views[i], events[i], fs[i], views[i + 1]);
      }
      DroppedLinesAreRefusals(views[..n + 1], events[..n], fs[..n]);
    }
  }

  /**
   Any run, with the file system changing under it: every call reacts as it may to what the call
   before left, from the loaded quota to the final one, and each refused write is counted once.
   */
  method Drive(disk: map<Path, File>, limit: nat, days: nat, maintainOnLoad: bool, atLoad: FileSystem,
               events: seq<Event>, fs: seq<FileSystem>)
    returns (q: Quota)
    requires |fs| == |events|
    ensures q.Valid() && Chain(q.views, events, fs) && q.views[|events|] == q.Now()
    ensures q.views[0] == Loaded(disk, limit, days, maintainOnLoad, atLoad) && q.droppedLines == Refusals(q.views)
  {
    hide Reacts, Bytes, SuspensionInv, Refusals, Next;
    q := new Quota(disk, limit, days, maintainOnLoad, atLoad);
    for i := 0 to |events|
      invariant fresh(q) && q.Valid() && |q.views| == i + 1 && q.views[i] == q.Now()
      invariant Chain(q.views, events[..i], fs[..i]) && q.views[0] == Loaded(disk, limit, days, maintainOnLoad, atLoad)
    {
      ghost var was := q.views;
      Handle(q, events[i], fs[i]);
      ChainGrows(was, events[..i], fs[..i], q.Now(), events[i], fs[i]);
      assert events[..i + 1] == events[..i] + [events[i]] && fs[..i + 1] == fs[..i] + [fs[i]];
    }
    assert events[..|events|] == events && fs[..|events|] == fs;
    DroppedLinesAreRefusals(q.views, events, fs);
  }

  lemma ChainGrows(views: seq<View>, events: seq<Event>, fs: seq<FileSystem>, n: View, e: Event, f: FileSystem)
    requires Chain(views, events, fs) && n == Next(views[|events|], e, f) && Reacts(views[|events|], e, f, n)
    ensures Chain(views + [n], events + [e], fs + [f])
  {
    hide Reacts, Next;
  }
}
