/** JSON values, and texts that are parsed as JSON. */
module Json {

  const INT32_MAX := 0x7FFF_FFFF

  type Int32 = n: int | -0x8000_0000 <= n < 0x8000_0000
  type Int64 = n: int | -0x8000_0000_0000_0000 <= n < 0x8000_0000_0000_0000

  /** Field names: each constructor is the JSON name the program uses, spelled in its own style
      (`JobIdKey` is "job_id"); `OtherKey` is any other name. */
  datatype Key =
    | JobIdKey | ModeKey | TaskKey | NameKey | ArgumentsKey
    | TimeoutSecKey | DownloadS3Key | BucketKey | ObjectKeyKey | MethodKey
    | OutputPrefixKey | EnqueuedAtKey | DlqTryCountKey | TaskNameKey | StatusKey
    | UpdatedAtKey | FailureReasonKey | RetryCountKey | ExitCodeKey | StdoutTailKey
    | ResultDownloadUrlKey | TryCountKey
    | OtherKey(name: string)

  /** `OtherNumber` is any number literal the parser does not store as a signed 64-bit integer. */
  datatype Json =
    | Null
    | Bool(b: bool)
    | Int(n: Int64)
    | OtherNumber(text: string)
    | Str(s: string)
    | Arr(items: seq<Json>)
    | Obj(fields: Object)

  type Object = map<Key, Json>

  /** A stored or transported text: one that does not parse, or the value it parses to. */
  datatype Payload = Garbage | Parsed(value: Json)

  datatype Option<+T> = None | Some(value: T)

  datatype Result<+T> = Ok(value: T) | Err(error: string) {
    predicate IsFailure() { Err? }

    function PropagateFailure<U>(): Result<U>
      requires Err?
    {
      Err(error)
    }

    function Extract(): T
      requires Ok?
    {
      value
    }
  }

  /** The narrowing cast `(int)` of a 64-bit value. */
  function ToInt32(n: int): (r: Int32)
    ensures -0x8000_0000 <= n < 0x8000_0000 ==> r == n
    ensures (n - r) % 0x1_0000_0000 == 0
  {
    (n + 0x8000_0000) % 0x1_0000_0000 - 0x8000_0000
  }

  function Max(a: int, b: int): int {
    if a > b then a else b
  }

  predicate IsObject(p: Payload) {
    p.Parsed? && p.value.Obj?
  }

  /** The object in `p`; empty when `p` holds none. */
  function Fields(p: Payload): Object {
    if IsObject(p) then p.value.fields else map[]
  }

  predicate HasString(o: Object, key: Key) {
    key in o && o[key].Str?
  }

  /** The integer stored under `key`, cast to `int`; 0 when there is none. */
  function IntField(o: Object, key: Key): Int32 {
    if key in o && o[key].Int? then ToInt32(o[key].n) else 0
  }
}
