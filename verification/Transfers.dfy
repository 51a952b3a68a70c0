/** Moving a job's files: fetching its inputs with retries, and naming and publishing its outputs. */
module Transfers {
  import opened Json
  import opened Strings
  import opened ObjectKeys
  import opened MessageValidation
  import opened JobRequests
  import opened Backoff

  /** What the object store and the random generator answer: a fetch of a bucket and key per entry and
      attempt, a jitter draw per entry and attempt, an upload and a presigned URL per object key. */
  datatype Storage = Storage(fetch: (nat, Download, nat) -> Result<()>, draw: (nat, nat) -> nat,
                             upload: string -> Result<()>, presign: string -> Result<string>)

  /** One attempt at an entry. */
  function Attempt(storage: Storage, entry: nat, download: Download, attempt: nat): Result<()> {
    storage.fetch(entry, download, attempt)
  }

  /** Some attempt at an entry succeeds. */
  predicate Fetchable(storage: Storage, entry: nat, download: Download) {
    exists attempt :: 1 <= attempt <= DOWNLOAD_ATTEMPTS && Attempt(storage, entry, download, attempt).Ok?
  }

  /** The first n entries can all be fetched. */
  predicate AllFetched(storage: Storage, downloads: seq<Download>, n: int)
    requires n <= |downloads|
  {
    forall i :: 0 <= i < n ==> Fetchable(storage, i, downloads[i])
  }

  lemma OneMoreFetched(storage: Storage, downloads: seq<Download>, n: nat)
    requires n < |downloads| && AllFetched(storage, downloads, n) && Fetchable(storage, n, downloads[n])
    ensures AllFetched(storage, downloads, n + 1)
  {}

  function LastError(storage: Storage, entry: nat, download: Download): string {
    var last := Attempt(storage, entry, download, DOWNLOAD_ATTEMPTS);
    if last.Err? then last.error else ""
  }

  function CannotDownload(key: string, error: string): string {
    "cannot download s3 object [" + key + "]: " + error
  }

  /** The names under which the inputs are stored. */
  function Names(downloads: seq<Download>): set<string> {
    set i | 0 <= i < |downloads| :: KeyFilename(downloads[i].key)
  }

  lemma NamesAppend(downloads: seq<Download>, n: nat)
    requires n < |downloads|
    ensures Names(downloads[..n + 1]) == Names(downloads[..n]) + {KeyFilename(downloads[n].key)}
  {
    forall x | x in Names(downloads[..n]) + {KeyFilename(downloads[n].key)} ensures x in Names(downloads[..n + 1]) {
      if x in Names(downloads[..n]) {
        var i :| 0 <= i < n && KeyFilename(downloads[..n][i].key) == x;
        assert downloads[..n + 1][i] == downloads[..n][i];
      } else {
        assert downloads[..n + 1][n] == downloads[n];
      }
    }
    forall x | x in Names(downloads[..n + 1]) ensures x in Names(downloads[..n]) + {KeyFilename(downloads[n].key)} {
      var i :| 0 <= i < n + 1 && KeyFilename(downloads[..n + 1][i].key) == x;
      if i < n { assert downloads[..n][i] == downloads[i]; }
    }
  }

  class Clock {
    var slept: nat

    constructor ()
      ensures slept == 0
    {
      slept := 0;
    }

    /** Waits for one backoff; `draw` is reduced to the range of the jitter, so every wait in it can occur. */
    method Backoff(attempt: int, base: nat, cap: nat, draw: nat)
      modifies this
      ensures old(slept) + Capped(attempt, base, cap) <= slept <= old(slept) + Capped(attempt, base, cap) * 3 / 2
      ensures draw <= Capped(attempt, base, cap) / 2 ==> slept == old(slept) + Capped(attempt, base, cap) + draw
    {
      hide Capped;
      slept := slept + Delay(attempt, base, cap, draw % (Capped(attempt, base, cap) / 2 + 1));
    }
  }

  /** The least and the most an entry waits in all, by its number of failed attempts. */
  function LeastWait(failures: nat): nat {
    if failures == 0 then 0 else if failures == 1 then 500 else if failures == 2 then 1500 else 3500
  }

  function MostWait(failures: nat): nat {
    if failures == 0 then 0 else if failures == 1 then 750 else if failures == 2 then 2250 else 5250
  }

  /** Up to three attempts at one entry, each failure followed by a wait. */
  method Fetch(storage: Storage, entry: nat, download: Download, clock: Clock) returns (r: Result<()>, attempts: nat)
    modifies clock
    ensures r.Ok? <==> Fetchable(storage, entry, download)
    ensures r.Err? ==> r.error == LastError(storage, entry, download)
    ensures 1 <= attempts <= 3 && (r.Err? ==> attempts == 3)
    ensures forall k :: 1 <= k < attempts ==> Attempt(storage, entry, download, k).Err?
    ensures r.Ok? ==> Attempt(storage, entry, download, attempts).Ok?
    ensures var failures := if r.Ok? then attempts - 1 else attempts;
            old(clock.slept) + LeastWait(failures) <= clock.slept <= old(clock.slept) + MostWait(failures)
  {
    hide Attempt;
    DownloadDelays();
    r, attempts := Err(""), 0;
    while attempts < DOWNLOAD_ATTEMPTS && r.Err?
      invariant 0 <= attempts <= DOWNLOAD_ATTEMPTS
      invariant attempts > 0 ==> r == Attempt(storage, entry, download, attempts)
      invariant attempts == 0 ==> r.Err?
      invariant forall k :: 1 <= k < attempts ==> Attempt(storage, entry, download, k).Err?
      invariant var failures := if r.Ok? then attempts - 1 else attempts;
                old(clock.slept) + LeastWait(failures) <= clock.slept <= old(clock.slept) + MostWait(failures)
      decreases DOWNLOAD_ATTEMPTS - attempts
    {
      attempts := attempts + 1;
      r := Attempt(storage, entry, download, attempts);
      if r.Err? {
        hide Capped;
        clock.Backoff(attempts, DOWNLOAD_BASE_MS, DOWNLOAD_MAX_MS, storage.draw(entry, attempts));
      }
    }
  }

  /** No entry was tried more than three times. */
  predicate AtMostThreeEach(attempts: seq<nat>) {
    forall i :: 0 <= i < |attempts| ==> 1 <= attempts[i] <= 3
  }

  /** The least and the most the entries wait in all: the first `fetched` of them succeeded in the end. */
  function LeastWaits(attempts: seq<nat>, fetched: nat): nat {
    if attempts == [] then 0
    else LeastWaits(attempts[..|attempts| - 1], fetched) + LeastWait(Failures(attempts, fetched))
  }

  function MostWaits(attempts: seq<nat>, fetched: nat): nat {
    if attempts == [] then 0
    else MostWaits(attempts[..|attempts| - 1], fetched) + MostWait(Failures(attempts, fetched))
  }

  /** The failed attempts at the last entry that was tried. */
  function Failures(attempts: seq<nat>, fetched: nat): nat
    requires attempts != []
  {
    var last := attempts[|attempts| - 1];
    if |attempts| <= fetched && last > 0 then last - 1 else last
  }

  lemma OneMoreEntry(attempts: seq<nat>, n: nat)
    requires AtMostThreeEach(attempts) && 1 <= n <= 3
    ensures AtMostThreeEach(attempts + [n])
  {}

  lemma {:induction false} SameWaits(attempts: seq<nat>, a: nat, b: nat)
    requires |attempts| <= a && |attempts| <= b
    ensures LeastWaits(attempts, a) == LeastWaits(attempts, b) && MostWaits(attempts, a) == MostWaits(attempts, b)
  {
    if attempts != [] { SameWaits(attempts[..|attempts| - 1], a, b); }
  }

  /** The waits with one more entry, which succeeded if `fetched` counts it. */
  lemma WaitsAppend(attempts: seq<nat>, n: nat, fetched: nat)
    requires 1 <= n && |attempts| <= fetched <= |attempts| + 1
    ensures var failures := if fetched == |attempts| then n else n - 1;
            && LeastWaits(attempts + [n], fetched) == LeastWaits(attempts, |attempts|) + LeastWait(failures)
            && MostWaits(attempts + [n], fetched) == MostWaits(attempts, |attempts|) + MostWait(failures)
  {
    assert (attempts + [n])[..|attempts|] == attempts;
    SameWaits(attempts, fetched, |attempts|);
    hide LeastWait, MostWait;
  }

  lemma {:induction false} MostWaitsBound(attempts: seq<nat>, fetched: nat)
    requires AtMostThreeEach(attempts) && fetched <= |attempts| <= fetched + 1
    ensures MostWaits(attempts, fetched) <= 2250 * |attempts| + (if fetched == |attempts| then 0 else 3000)
  {
    if attempts != [] {
      var front := attempts[..|attempts| - 1];
      SameWaits(front, fetched, |front|);
      MostWaitsBound(front, |front|);
    }
  }

  /** Fetches the inputs in order and stops at the first entry that fails three times. */
  method DownloadInputs(downloads: seq<Download>, storage: Storage, clock: Clock)
    returns (r: Result<()>, names: set<string>, fetched: nat, attempts: seq<nat>)
    modifies clock
    ensures fetched <= |downloads| && AllFetched(storage, downloads, fetched)
    ensures r.Ok? <==> fetched == |downloads|
    ensures r.Ok? ==> names == Names(downloads)
    ensures r.Err? ==> !Fetchable(storage, fetched, downloads[fetched])
                       && r.error
                          == CannotDownload(downloads[fetched].key, LastError(storage, fetched, downloads[fetched]))
    ensures |attempts| == (if r.Ok? then fetched else fetched + 1) && AtMostThreeEach(attempts)
    ensures old(clock.slept) + LeastWaits(attempts, fetched) <= clock.slept
              <= old(clock.slept) + MostWaits(attempts, fetched)
    ensures clock.slept <= old(clock.slept) + 2250 * |downloads| + (if r.Ok? then 0 else 3000)
  {
    assert downloads[..0] == [];
    assert Names(downloads[..0]) == {};
    names, fetched, attempts := {}, 0, [];
    assert AtMostThreeEach(attempts) && LeastWaits(attempts, 0) == 0 && MostWaits(attempts, 0) == 0;
    hide Fetchable, KeyFilename, Names, CannotDownload, LastError, AtMostThreeEach, LeastWait, MostWait, LeastWaits,
      MostWaits, AllFetched;
    while fetched < |downloads|
      invariant fetched <= |downloads|
      invariant names == Names(downloads[..fetched])
      invariant AllFetched(storage, downloads, fetched)
      invariant |attempts| == fetched && AtMostThreeEach(attempts)
      invariant old(clock.slept) + LeastWaits(attempts, fetched) <= clock.slept
                  <= old(clock.slept) + MostWaits(attempts, fetched)
    {
      var one, count := Fetch(storage, fetched, downloads[fetched], clock);
      OneMoreEntry(attempts, count);
      WaitsAppend(attempts, count, if one.Ok? then fetched + 1 else fetched);
      SameWaits(attempts, fetched, |attempts|);
      attempts := attempts + [count];
      if one.Err? {
        MostWaitsBound(attempts, fetched);
        return Err(CannotDownload(downloads[fetched].key, one.error)), names, fetched, attempts;
      }
      OneMoreFetched(storage, downloads, fetched);
      NamesAppend(downloads, fetched);
      names := names + {KeyFilename(downloads[fetched].key)};
      fetched := fetched + 1;
    }
    assert downloads[..fetched] == downloads;
    MostWaitsBound(attempts, fetched);
    r := Ok(());
  }

  // ---- Outputs ----

  datatype DirectoryEntry = DirectoryEntry(filename: string, regular: bool)

  function DownloadResult(filename: string, url: string): Json {
    Obj(map[OtherKey("filename") := Str(filename), OtherKey("download_url") := Str(url), MethodKey := Str("GET")])
  }

  /** Uploads one output under its key and presigns a link to it. */
  function Transfer(storage: Storage, prefix: string, filename: string): Result<Json> {
    var key := OutputKey(prefix, filename);
    if storage.upload(key).Err? then Err("cannot upload output [" + filename + "]: " + storage.upload(key).error)
    else if storage.presign(key).Err? then
      Err("cannot presign output [" + filename + "]: " + storage.presign(key).error)
    else Ok(DownloadResult(filename, storage.presign(key).value))
  }

  /** A result needs a successful upload and a successful presigning of the prefixed name, and links to
      it; otherwise the first of the two errors is reported. */
  lemma TransferMeans(storage: Storage, prefix: string, filename: string)
    ensures var r, key := Transfer(storage, prefix, filename), prefix + filename;
            && (r.Ok? <==> storage.upload(key).Ok? && storage.presign(key).Ok?)
            && (r.Ok? ==> r.value == Obj(map[OtherKey("filename") := Str(filename),
                                             OtherKey("download_url") := Str(storage.presign(key).value),
                                             MethodKey := Str("GET")]))
            && (storage.upload(key).Err? ==>
                  r == Err("cannot upload output [" + filename + "]: " + storage.upload(key).error))
            && (storage.upload(key).Ok? && storage.presign(key).Err? ==>
                  r == Err("cannot presign output [" + filename + "]: " + storage.presign(key).error))
  {}

  /** The regular files, in listing order. */
  function Regulars(entries: seq<DirectoryEntry>): seq<string> {
    if entries == [] then []
    else
      var front, last := Regulars(entries[..|entries| - 1]), entries[|entries| - 1];
      if last.regular then front + [last.filename] else front
  }

  lemma RegularsAppend(entries: seq<DirectoryEntry>, n: nat)
    requires n < |entries|
    ensures Regulars(entries[..n + 1]) == Regulars(entries[..n])
                                          + (if entries[n].regular then [entries[n].filename] else [])
  {
    assert entries[..n + 1][..n] == entries[..n];
  }

  lemma {:induction false} RegularsGrow(entries: seq<DirectoryEntry>, n: nat)
    requires n <= |entries|
    ensures Regulars(entries[..n]) <= Regulars(entries)
    decreases |entries| - n
  {
    if n < |entries| {
      RegularsAppend(entries, n);
      RegularsGrow(entries, n + 1);
    } else {
      assert entries[..n] == entries;
    }
  }

  /** Exactly the names of regular entries are published. */
  lemma {:induction false} RegularsMean(entries: seq<DirectoryEntry>, filename: string)
    ensures filename in Regulars(entries) <==> DirectoryEntry(filename, true) in entries
  {
    if entries != [] {
      RegularsMean(entries[..|entries| - 1], filename);
      assert entries == entries[..|entries| - 1] + [entries[|entries| - 1]];
    }
  }

  /** Publishes every regular output, or reports the first that cannot be. */
  method UploadOutputs(prefix: string, listed: Result<seq<DirectoryEntry>>, storage: Storage)
    returns (r: Result<seq<Json>>)
    ensures listed.Err? ==> r == Err("cannot iterate outputs directory: " + listed.error)
    ensures listed.Ok? ==>
              var files := Regulars(listed.value);
              && (r.Ok? <==> forall i :: 0 <= i < |files| ==> Transfer(storage, prefix, files[i]).Ok?)
              && (r.Ok? ==> |r.value| == |files|
                            && forall i :: 0 <= i < |files| ==> Transfer(storage, prefix, files[i]) == Ok(r.value[i]))
              && (r.Err? ==> exists i :: 0 <= i < |files| && Transfer(storage, prefix, files[i]) == Err(r.error)
                                         && forall k :: 0 <= k < i ==> Transfer(storage, prefix, files[k]).Ok?)
  {
    if listed.Err? { return Err("cannot iterate outputs directory: " + listed.error); }
    hide Transfer;
    var entries, results := listed.value, [];
    for n := 0 to |entries|
      invariant |results| == |Regulars(entries[..n])|
      invariant forall i :: 0 <= i < |results| ==>
                              Transfer(storage, prefix, Regulars(entries[..n])[i]) == Ok(results[i])
    {
      RegularsAppend(entries, n);
      if entries[n].regular {
        var done := Transfer(storage, prefix, entries[n].filename);
        if done.Err? {
          RegularsGrow(entries, n + 1);
          assert Regulars(entries)[|results|] == entries[n].filename;
          return Err(done.error);
        }
        results := results + [done.value];
      }
    }
    assert entries[..|entries|] == entries;
    r := Ok(results);
  }

  // ---- What the transfers of a job come to ----

  /** The first entry from i on that cannot be fetched; the number of entries if there is none. */
  function FirstMissing(storage: Storage, downloads: seq<Download>, i: nat): nat
    requires i <= |downloads|
    decreases |downloads| - i
  {
    if i == |downloads| || !Fetchable(storage, i, downloads[i]) then i else FirstMissing(storage, downloads, i + 1)
  }

  lemma {:induction false} FirstMissingIs(storage: Storage, downloads: seq<Download>, i: nat, k: nat)
    requires i <= k <= |downloads| && (forall j :: i <= j < k ==> Fetchable(storage, j, downloads[j]))
    requires k < |downloads| ==> !Fetchable(storage, k, downloads[k])
    ensures FirstMissing(storage, downloads, i) == k
    decreases k - i
  {
    hide Fetchable;
    if i < k { FirstMissingIs(storage, downloads, i + 1, k); }
  }

  lemma {:induction false} FirstMissingMeans(storage: Storage, downloads: seq<Download>, i: nat)
    requires i <= |downloads|
    ensures var k := FirstMissing(storage, downloads, i);
            && i <= k <= |downloads| && (forall j :: i <= j < k ==> Fetchable(storage, j, downloads[j]))
            && (k < |downloads| ==> !Fetchable(storage, k, downloads[k]))
    decreases |downloads| - i
  {
    hide Fetchable;
    if i < |downloads| && Fetchable(storage, i, downloads[i]) { FirstMissingMeans(storage, downloads, i + 1); }
  }

  /** The result entries of the files, or the first transfer error. */
  function Results(storage: Storage, prefix: string, files: seq<string>): Result<seq<Json>> {
    if files == [] then Ok([])
    else
      var first :- Transfer(storage, prefix, files[0]);
      var rest :- Results(storage, prefix, files[1..]);
      Ok([first] + rest)
  }

  lemma {:induction false} ResultsAre(storage: Storage, prefix: string, files: seq<string>, results: seq<Json>)
    requires |results| == |files|
    requires forall i :: 0 <= i < |files| ==> Transfer(storage, prefix, files[i]) == Ok(results[i])
    ensures Results(storage, prefix, files) == Ok(results)
  {
    hide Transfer;
    if files != [] {
      ResultsAre(storage, prefix, files[1..], results[1..]);
      assert results == [results[0]] + results[1..];
    }
  }

  lemma {:induction false} ResultsFail(storage: Storage, prefix: string, files: seq<string>, i: nat)
    requires i < |files| && Transfer(storage, prefix, files[i]).Err?
    requires forall k :: 0 <= k < i ==> Transfer(storage, prefix, files[k]).Ok?
    ensures Results(storage, prefix, files) == Err(Transfer(storage, prefix, files[i]).error)
  {
    hide Transfer;
    if i > 0 { ResultsFail(storage, prefix, files[1..], i - 1); }
  }

  // ---- What a service's message leads to ----

  lemma ReadKeys(job: string, bucket: string, files: seq<string>, downloads: seq<Download>)
    requires bucket != "" && ReadDownloads(DownloadEntries(bucket, job, files)) == Ok(downloads)
    ensures |downloads| == |files| && forall i :: 0 <= i < |files| ==> downloads[i].key == CStr(InputKey(job, files[i]))
  {
    var entries := DownloadEntries(bucket, job, files);
    DownloadsAreShaped(bucket, job, files);
    ReadDownloadsSafe(entries);
    assert forall i :: 0 <= i < |files| ==> entries[i] == DownloadEntry(bucket, InputKey(job, files[i]));
  }

  lemma StoredName(job: string, filename: string)
    requires IsValidJobId(job) && SafeFilename(filename)
    ensures KeyFilename(CStr(InputKey(job, filename))) == CStr(filename)
    ensures CStr(filename) == filename <==> '\0' !in filename
  {
    JobIdHasNoNul(job);
    hide IsValidJobId, InputKey, HasDots;
    DownloadedName(job, filename);
  }

  /** The inputs of a service's message are stored under their names cut at the first NUL, so under
      exactly the requested names if and only if no name holds a NUL. */
  lemma InputsKeepTheirNames(job: string, bucket: string, files: seq<string>, downloads: seq<Download>)
    requires IsValidJobId(job) && bucket != "" && (forall f :: f in files ==> SafeFilename(f))
    requires ReadDownloads(DownloadEntries(bucket, job, files)) == Ok(downloads)
    ensures Names(downloads) == set f | f in files :: CStr(f)
    ensures Names(downloads) == (set f | f in files) <==> forall f :: f in files ==> '\0' !in f
  {
    hide IsValidJobId, SafeFilename, ReadDownloads, DownloadEntries;
    ReadKeys(job, bucket, files, downloads);
    forall f | f in files
      ensures KeyFilename(CStr(InputKey(job, f))) == CStr(f)
      ensures CStr(f) == f <==> '\0' !in f
      ensures '\0' !in CStr(f)
    {
      StoredName(job, f);
    }
    hide KeyFilename, CStr, InputKey;
    NamesOf(downloads, files);
    if forall f :: f in files ==> '\0' !in f {
      assert (set f | f in files :: CStr(f)) == set f | f in files;
    } else {
      var f :| f in files && '\0' in f;
      assert f in set g | g in files;
      assert f !in Names(downloads);
    }
  }

  lemma NamesOf(downloads: seq<Download>, files: seq<string>)
    requires |downloads| == |files| && forall i :: 0 <= i < |files| ==> KeyFilename(downloads[i].key) == CStr(files[i])
    ensures Names(downloads) == set f | f in files :: CStr(f)
  {
    hide KeyFilename, CStr;
    forall x | x in set f | f in files :: CStr(f) ensures x in Names(downloads) {
      var f :| f in files && CStr(f) == x;
      var i :| 0 <= i < |files| && files[i] == f;
      assert KeyFilename(downloads[i].key) == x;
    }
    forall x | x in Names(downloads) ensures exists f :: f in files && CStr(f) == x {
      var i :| 0 <= i < |downloads| && KeyFilename(downloads[i].key) == x;
      assert files[i] in files;
    }
  }
}
