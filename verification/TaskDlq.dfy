/** The file DLQ: one file per job that remembers how often the job has failed. */
module TaskDlq {
  import opened Json

  type Entries = map<string, Payload>

  function FileCount(entries: Entries, job: string): Int32 {
    if job in entries then IntField(Fields(entries[job]), TryCountKey) else 0
  }

  /** The recorded count: one more than the larger of the inbound count and the file's.
      At the largest `int` the increment wraps. */
  function NextCount(inbound: Int32, fileCount: Int32): Int32 {
    ToInt32(Max(Max(inbound, 0), fileCount) + 1)
  }

  lemma NextCountInRange(inbound: Int32, fileCount: Int32)
    requires 0 <= inbound < INT32_MAX && 0 <= fileCount < INT32_MAX
    ensures NextCount(inbound, fileCount) == Max(inbound, fileCount) + 1
  {}

  /** Negative counts are taken as none; past the largest `int` the count starts again at the smallest. */
  lemma NextCountMeans(inbound: Int32, fileCount: Int32)
    ensures var n := NextCount(inbound, fileCount);
            if inbound <= 0 && fileCount <= 0 then n == 1
            else if inbound == 2147483647 || fileCount == 2147483647 then n == -2147483648
            else n > inbound && n > fileCount && (n == inbound + 1 || n == fileCount + 1)
  {}

  /** What a job's file holds: `request` is the text of the message that failed. */
  function Entry(job: string, tryCount: Int32, reason: string, request: string): Payload {
    Parsed(Obj(map[JobIdKey := Str(job),
                   TryCountKey := Int(tryCount),
                   FailureReasonKey := Str(reason),
                   OtherKey("request_message") := Str(request)]))
  }

  /** A file's path: a separator is added unless the directory's path is empty or ends in one. */
  function PathOf(directory: string, name: string): string {
    if directory == "" || directory[|directory| - 1] == '/' then directory + name else directory + "/" + name
  }

  lemma PathText(directory: string, job: string)
    ensures PathOf(directory, EntryName(job))
            == directory + (if directory == "" || directory[|directory| - 1] == '/' then "" else "/") + job + ".json"
  {
    if directory == "" || directory[|directory| - 1] == '/' {
      assert directory + "" == directory;
      assert directory + (job + ".json") == directory + job + ".json";
    } else {
      assert directory + "/" + (job + ".json") == directory + "/" + job + ".json";
    }
  }

  /** The count read from a job's file; 0 when there is none to read. */
  function StoredCount(directory: map<string, Node>, job: string): Int32 {
    var path := EntryName(job);
    if path in directory && directory[path].Regular? then IntField(Fields(directory[path].content), TryCountKey) else 0
  }

  predicate CanRetry(tryCount: int, maxRetryCount: int) {
    tryCount <= maxRetryCount
  }

  datatype Node = Regular(content: Payload) | Folder(empty: bool)

  function EntryName(job: string): string {
    job + ".json"
  }

  /** A file name whose extension is ".json": a name of just that suffix has no extension. */
  predicate IsEntryName(name: string) {
    |name| > 5 && name[|name| - 5..] == ".json"
  }

  function JobOfName(name: string): string
    requires IsEntryName(name)
  {
    name[..|name| - 5]
  }

  lemma EntryNameRoundTrip(job: string)
    requires job != ""
    ensures IsEntryName(EntryName(job)) && JobOfName(EntryName(job)) == job
  {}

  lemma NameOfJob(name: string)
    requires IsEntryName(name)
    ensures EntryName(JobOfName(name)) == name
  {}

  predicate Counted(directory: map<string, Node>, name: string) {
    name in directory && IsEntryName(name) && directory[name].Regular?
  }

  lemma EntryNameInjective(a: string, b: string)
    requires EntryName(a) == EntryName(b)
    ensures a == b
  {
    assert a == EntryName(a)[..|a|] && b == EntryName(b)[..|b|];
  }

  /** The entries of a directory, by job. */
  ghost function EntriesOf(directory: map<string, Node>): (entries: Entries)
    ensures forall job :: job in entries <==> job != "" && Counted(directory, EntryName(job))
    ensures forall job :: job in entries ==> Counted(directory, EntryName(job))
                                             && directory[EntryName(job)] == Regular(entries[job])
  {
    var jobs := set name | name in directory && Counted(directory, name) :: JobOfName(name);
    forall job | job != "" ensures IsEntryName(EntryName(job)) && JobOfName(EntryName(job)) == job {
      EntryNameRoundTrip(job);
    }
    map job | job in jobs && Counted(directory, EntryName(job)) :: directory[EntryName(job)].content
  }

  lemma EntriesAfterWrite(directory: map<string, Node>, job: string, content: Payload)
    requires job != ""
    ensures EntriesOf(directory[EntryName(job) := Regular(content)]) == EntriesOf(directory)[job := content]
  {
    EntryNameRoundTrip(job);
    forall other: string | EntryName(other) == EntryName(job) ensures other == job {
      EntryNameInjective(other, job);
    }
  }

  lemma EntriesAfterRemove(directory: map<string, Node>, job: string)
    ensures EntriesOf(directory - {EntryName(job)}) == EntriesOf(directory) - {job}
  {
    forall other: string | EntryName(other) == EntryName(job) ensures other == job {
      EntryNameInjective(other, job);
    }
  }

  lemma FolderIsNoEntry(directory: map<string, Node>, job: string)
    requires EntryName(job) in directory && directory[EntryName(job)].Folder?
    ensures EntriesOf(directory) == EntriesOf(directory) - {job}
  {
    assert job !in EntriesOf(directory);
  }

  ghost function CountedNames(directory: map<string, Node>): set<string> {
    set name | name in directory && Counted(directory, name)
  }

  /** Jobs and counted file names correspond one to one. */
  lemma {:induction false} EntryPerName(names: set<string>, jobs: set<string>)
    requires forall name :: name in names ==> IsEntryName(name) && JobOfName(name) in jobs
    requires forall job :: job in jobs ==> job != "" && EntryName(job) in names
    ensures |names| == |jobs|
    decreases names
  {
    if names == {} {
      assert jobs == {};
    } else {
      var name :| name in names;
      var job := JobOfName(name);
      NameOfJob(name);
      forall other | other in names - {name} ensures JobOfName(other) in jobs - {job} {
        NameOfJob(other);
      }
      forall other | other in jobs - {job} ensures EntryName(other) in names - {name} {
        EntryNameRoundTrip(other);
      }
      EntryPerName(names - {name}, jobs - {job});
    }
  }

  lemma CountedNamesAreEntries(directory: map<string, Node>)
    ensures |CountedNames(directory)| == |EntriesOf(directory)|
  {
    var jobs := EntriesOf(directory).Keys;
    forall name | name in CountedNames(directory) ensures JobOfName(name) in jobs {
      NameOfJob(name);
    }
    EntryPerName(CountedNames(directory), jobs);
  }

  lemma StoredIsFiled(directory: map<string, Node>, job: string)
    requires job != ""
    ensures StoredCount(directory, job) == FileCount(EntriesOf(directory), job)
  {
    EntryNameRoundTrip(job);
  }

  lemma CountedNamesMean(directory: map<string, Node>)
    ensures CountedNames(directory) == set name | name in directory && directory[name].Regular?
                                                  && |name| > 5 && name[|name| - 5..] == ".json"
  {}

  lemma NothingLeft(directory: map<string, Node>)
    ensures |CountedNames(directory) - directory.Keys| == 0
  {
    assert CountedNames(directory) - directory.Keys == {};
  }

  lemma OneMoreName(directory: map<string, Node>, rest: set<string>, name: string)
    requires name in rest && rest <= directory.Keys
    ensures |CountedNames(directory) - (rest - {name})|
            == |CountedNames(directory) - rest| + if IsEntryName(name) && directory[name].Regular? then 1 else 0
  {
    var before, after := CountedNames(directory) - rest, CountedNames(directory) - (rest - {name});
    if IsEntryName(name) && directory[name].Regular? {
      assert after == before + {name};
    } else {
      assert after == before;
    }
  }

  class Dlq {
    const path: string
    const maxRetryCount: nat
    var directory: map<string, Node>

    constructor (path: string, maxRetryCount: nat)
      ensures this.path == path && this.maxRetryCount == maxRetryCount && directory == map[]
    {
      this.path := path;
      this.maxRetryCount := maxRetryCount;
      directory := map[];
    }

    ghost function View(): Entries
      reads this
    {
      EntriesOf(directory)
    }

    /** The entry can be written: the disk allows it and no directory is in its place. */
    predicate Recordable(job: string, writable: bool)
      reads this
    {
      writable && (EntryName(job) in directory ==> directory[EntryName(job)].Regular?)
    }

    /** The count of one more failure: the file's may only raise the message's. */
    method CountFailure(job: string, inbound: Int32) returns (tryCount: Int32)
      ensures tryCount == NextCount(inbound, StoredCount(directory, job))
    {
      var name := EntryName(job);
      var count: int := if inbound > 0 then inbound else 0;
      if name in directory && directory[name].Regular? {
        var parsed := directory[name].content;
        if IsObject(parsed) && TryCountKey in parsed.value.fields && parsed.value.fields[TryCountKey].Int? {
          count := Max(count, ToInt32(parsed.value.fields[TryCountKey].n));
        }
      }
      return ToInt32(count + 1);
    }

    /** `writable` says whether the entry's file can be opened for writing. */
    method RecordFailure(job: string, request: string, reason: string, inbound: Int32, writable: bool)
      returns (r: Result<Int32>)
      modifies this`directory
      ensures r.Ok? <==> old(Recordable(job, writable))
      ensures r.Ok? <==> writable && (job + ".json" in old(directory) ==> !old(directory)[job + ".json"].Folder?)
      ensures r.Ok? ==> r.value == NextCount(inbound, StoredCount(old(directory), job))
                        && directory == old(directory)[job + ".json" :=
                                          Regular(Parsed(Obj(map[JobIdKey := Str(job),
                                                                 TryCountKey := Int(r.value),
                                                                 FailureReasonKey := Str(reason),
                                                                 OtherKey("request_message") := Str(request)])))]
      ensures r.Ok? && job != "" ==> r.value == NextCount(inbound, FileCount(old(View()), job))
                                     && View() == old(View())[job := Entry(job, r.value, reason, request)]
      ensures r.Err? ==> directory == old(directory)
                         && r.error == "cannot write dlq entry: "
                                       + (path + (if path == "" || path[|path| - 1] == '/' then "" else "/") + job
                                          + ".json")
    {
      if job != "" { StoredIsFiled(directory, job); }
      PathText(path, job);
      hide EntriesOf, NextCount, StoredCount, FileCount, PathOf;
      var tryCount := CountFailure(job, inbound);
      var name := EntryName(job);
      if !writable || (name in directory && directory[name].Folder?) {
        return Err("cannot write dlq entry: " + PathOf(path, name));
      }
      if job != "" { EntriesAfterWrite(directory, job, Entry(job, tryCount, reason, request)); }
      directory := directory[name := Regular(Entry(job, tryCount, reason, request))];
      return Ok(tryCount);
    }

    /** Removes the entry; a directory in its place goes only if it is empty. */
    method Remove(job: string)
      modifies this`directory
      ensures directory == if job + ".json" in old(directory) && old(directory)[job + ".json"] == Folder(false)
                           then old(directory) else old(directory) - {job + ".json"}
      ensures View() == old(View()) - {job}
    {
      var name := EntryName(job);
      if name in directory && directory[name] == Folder(false) {
        FolderIsNoEntry(directory, job);
        return;
      }
      EntriesAfterRemove(directory, job);
      directory := directory - {name};
    }

    /** The number of entries: regular files with the entry extension. */
    method PendingCount() returns (count: nat)
      ensures count == |View()|
      ensures count == |set name | name in directory && directory[name].Regular?
                                   && |name| > 5 && name[|name| - 5..] == ".json"|
    {
      hide CountedNames, EntriesOf, IsEntryName;
      count := 0;
      var rest := directory.Keys;
      NothingLeft(directory);
      while rest != {}
        invariant rest <= directory.Keys
        invariant count == |CountedNames(directory) - rest|
        decreases rest
      {
        var name :| name in rest;
        OneMoreName(directory, rest, name);
        if IsEntryName(name) && directory[name].Regular? {
          count := count + 1;
        }
        rest := rest - {name};
      }
      assert CountedNames(directory) - rest == CountedNames(directory);
      CountedNamesAreEntries(directory);
      CountedNamesMean(directory);
    }
  }
}
