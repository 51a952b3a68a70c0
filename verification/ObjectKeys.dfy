/** S3 object keys of a job, and the file name the worker recovers from one. */
module ObjectKeys {
  import opened Strings

  function JobKey(job: string, rest: string): string {
    "jobs/" + (job + ['/'] + rest)
  }

  function InputKey(job: string, filename: string): string {
    JobKey(job, "inputs/" + filename)
  }

  function OutputPrefix(job: string): string {
    JobKey(job, "outputs/")
  }

  function OutputKey(prefix: string, filename: string): string {
    prefix + filename
  }

  /** `find_last_of`: -1 stands for npos. */
  function FindLast(s: string, c: char): (i: int)
    ensures -1 <= i < |s|
    ensures i >= 0 ==> s[i] == c
    ensures forall k :: i < k < |s| ==> s[k] != c
  {
    if s == [] then -1
    else if s[|s| - 1] == c then |s| - 1
    else FindLast(s[..|s| - 1], c)
  }

  function KeyFilename(key: string): string {
    var separator := FindLast(key, '/');
    if separator == -1 then key else key[separator + 1..]
  }

  /** How the keys of a job read. */
  lemma KeyTexts(job: string, filename: string)
    ensures InputKey(job, filename) == "jobs/" + job + "/inputs/" + filename
    ensures OutputPrefix(job) == "jobs/" + job + "/outputs/"
  {
    assert InputKey(job, filename) == "jobs/" + job + "/" + "inputs/" + filename;
    assert OutputPrefix(job) == "jobs/" + job + "/" + "outputs/";
  }

  /** The name recovered from a key is what follows its last separator, or the whole key. */
  lemma KeyFilenameOfPath(directory: string, filename: string)
    requires '/' !in filename
    ensures KeyFilename(directory + ['/'] + filename) == filename
    ensures KeyFilename(filename) == filename
  {
    var key := directory + ['/'] + filename;
    var i := FindLast(key, '/');
    assert key[|directory|] == '/';
    assert key == key[..i] + ['/'] + key[i + 1..];
    SplitAtLast(directory, filename, key[..i], key[i + 1..], '/');
  }

  lemma KeyFilenameOfInput(job: string, filename: string)
    requires '/' !in filename
    ensures KeyFilename(InputKey(job, filename)) == filename
  {
    KeyFilenameOfPath("jobs/" + job + "/inputs", filename);
    assert InputKey(job, filename) == "jobs/" + job + "/inputs" + ['/'] + filename;
  }

  lemma InputKeyPrefix(job: string, filename: string)
    ensures InputKey(job, filename) == InputKey(job, "") + filename
    ensures '\0' !in job ==> '\0' !in InputKey(job, "")
  {
    assert InputKey(job, "") == "jobs/" + job + "/inputs/";
    assert InputKey(job, filename) == "jobs/" + job + "/inputs/" + filename;
  }

  /** The worker passes keys through C strings, so it finds the requested name exactly when the
      name holds no NUL. */
  lemma DownloadedName(job: string, filename: string)
    requires '\0' !in job && '/' !in filename
    ensures KeyFilename(CStr(InputKey(job, filename))) == CStr(filename)
    ensures KeyFilename(CStr(InputKey(job, filename))) == filename <==> '\0' !in filename
  {
    var prefix := InputKey(job, "");
    InputKeyPrefix(job, filename);
    InputKeyPrefix(job, CStr(filename));
    CStrOfPrefix(prefix, filename);
    KeyFilenameOfInput(job, CStr(filename));
  }

  /** The key the worker asks the store for is the one a client was given a URL to upload to, exactly
      when the name holds no NUL. */
  lemma RequestedKey(job: string, filename: string)
    requires '\0' !in job
    ensures CStr(InputKey(job, filename)) == InputKey(job, CStr(filename))
    ensures CStr(InputKey(job, filename)) == InputKey(job, filename) <==> '\0' !in filename
  {
    var prefix := InputKey(job, "");
    InputKeyPrefix(job, filename);
    InputKeyPrefix(job, CStr(filename));
    CStrOfPrefix(prefix, filename);
  }

  lemma JobKeyInjective(j1: string, r1: string, j2: string, r2: string)
    requires '/' !in j1 && '/' !in j2
    requires JobKey(j1, r1) == JobKey(j2, r2)
    ensures j1 == j2 && r1 == r2
  {
    assert j1 + ['/'] + r1 == JobKey(j1, r1)[5..];
    assert j2 + ['/'] + r2 == JobKey(j2, r2)[5..];
    SplitAtFirst(j1, r1, j2, r2, '/');
  }

  /** Distinct jobs or names have distinct input keys, and no input key is an output key. */
  lemma KeysAreSeparate(j1: string, f1: string, j2: string, f2: string)
    requires '/' !in j1 && '/' !in j2
    ensures InputKey(j1, f1) == InputKey(j2, f2) ==> j1 == j2 && f1 == f2
    ensures OutputKey(OutputPrefix(j1), f1) == OutputKey(OutputPrefix(j2), f2) ==> j1 == j2 && f1 == f2
    ensures InputKey(j1, f1) != OutputKey(OutputPrefix(j2), f2)
  {
    assert OutputKey(OutputPrefix(j1), f1) == JobKey(j1, "outputs/" + f1);
    assert OutputKey(OutputPrefix(j2), f2) == JobKey(j2, "outputs/" + f2);
    assert ("inputs/" + f1)[0] != ("outputs/" + f2)[0];
    assert f1 == ("inputs/" + f1)[7..] == ("outputs/" + f1)[8..];
    assert f2 == ("inputs/" + f2)[7..] == ("outputs/" + f2)[8..];
    if InputKey(j1, f1) == InputKey(j2, f2) { JobKeyInjective(j1, "inputs/" + f1, j2, "inputs/" + f2); }
    if OutputKey(OutputPrefix(j1), f1) == OutputKey(OutputPrefix(j2), f2) {
      JobKeyInjective(j1, "outputs/" + f1, j2, "outputs/" + f2);
    }
    if InputKey(j1, f1) == OutputKey(OutputPrefix(j2), f2) {
      JobKeyInjective(j1, "inputs/" + f1, j2, "outputs/" + f2);
      assert false;
    }
  }
}
