/** The Python values the client library handles: parsed JSON documents, what
    an HTTP GET hands back, the exceptions the library raises or lets through,
    and the few built-in operations (subscript, iteration, truthiness,
    `str.lower`, substring `in`) whose edge cases decide its behaviour. */
module Values {

  datatype Option<+T> = None | Some(value: T)

  /** A Python call either returns a value or raises one of the exceptions below. */
  datatype Result<+T> = Ok(value: T) | Err(error: Error)

  newtype byte = x: int | 0 <= x < 256

  /** A parsed JSON document, as Python's `json` module builds it.
      Numbers are kept as exact reals; objects are dictionaries keyed by strings. */
  datatype Json =
    | JNull
    | JBool(b: bool)
    | JNum(n: real)
    | JStr(s: string)
    | JArr(items: seq<Json>)
    | JObj(fields: map<string, Json>)

  /** The exceptions that reach the caller of the library. */
  datatype Error =
    | KeyError(arg: string)       // a missing dictionary key, or the facade's "could not retrieve" errors
    | TypeError                   // subscripting, iterating or hashing a value of the wrong kind
    | IndexError                  // indexing past the end of a string or list
    | ValueError(message: string) // raised by the transport helpers, and by the JSON decoder
    | HttpStatusError(status: int) // raised by `raise_for_status` on a non-success status

  /** What an HTTP GET hands back: a parsed JSON document, or a
      `(file_name, content)` pair for a binary download. */
  datatype Value = Doc(json: Json) | File(name: string, content: seq<byte>)

  /** Python's truth value of a JSON document (`data or {}`): false exactly on
      `None`, `False`, zero and the empty string, list and dictionary. */
  predicate Truthy(j: Json): (r: bool)
    ensures !r <==> j in {JNull, JBool(false), JNum(0.0), JStr(""), JArr([]), JObj(map[])}
  {
    match j
    case JNull => false
    case JBool(b) => b
    case JNum(n) => n != 0.0
    case JStr(s) => s != ""
    case JArr(items) => items != []
    case JObj(fields) => fields != map[]
  }

  /** Lists and dictionaries cannot be dictionary keys. */
  predicate Hashable(j: Json) {
    !j.JArr? && !j.JObj?
  }

  /** `j[key]` for a string key: a dictionary lookup, a `TypeError` on any other kind of value. */
  function Subscript(j: Json, key: string): (r: Result<Json>)
    ensures r.Ok? <==> j.JObj? && key in j.fields
    ensures r.Ok? ==> r.value == j.fields[key]
    ensures r.Err? ==> r.error == if j.JObj? then KeyError(key) else TypeError
  {
    match j
    case JObj(fields) => if key in fields then Ok(fields[key]) else Err(KeyError(key))
    case _ => Err(TypeError)
  }

  /** `v[key]` on what a GET returned: a tuple cannot be subscripted by a string. */
  function SubscriptValue(v: Value, key: string): (r: Result<Json>)
    ensures v.Doc? ==> r == Subscript(v.json, key)
    ensures v.File? ==> r == Err(TypeError)
  {
    match v
    case Doc(j) => Subscript(j, key)
    case File(_, _) => Err(TypeError)
  }

  /** The elements a `for` loop visits. A list yields its items and a string its
      one-character strings; an empty dictionary yields nothing. A non-empty
      dictionary would yield its keys; the model refuses it with `TypeError`
      instead (see the README); numbers, booleans and `None` are not iterable. */
  function Elements(j: Json): (r: Result<seq<Json>>)
    ensures j.JArr? ==> r == Ok(j.items)
    ensures j.JStr? ==> r.Ok? && |r.value| == |j.s|
    ensures j.JStr? ==> forall i :: 0 <= i < |j.s| ==> r.value[i] == JStr([j.s[i]])
    ensures j == JObj(map[]) ==> r == Ok([])
    ensures r.Ok? <==> j.JArr? || j.JStr? || j == JObj(map[])
    ensures r.Err? ==> r.error == TypeError
  {
    match j
    case JArr(items) => Ok(items)
    case JStr(s) => Ok(seq(|s|, i requires 0 <= i < |s| => JStr([s[i]])))
    case JObj(fields) => if fields == map[] then Ok([]) else Err(TypeError)
    case _ => Err(TypeError)
  }

  /** `str.lower` on one character (ASCII letters only). */
  function LowerChar(c: char): (r: char)
    ensures 'A' <= c <= 'Z' ==> 'a' <= r <= 'z' && r as int == c as int + 32
    ensures !('A' <= c <= 'Z') ==> r == c
  {
    if 'A' <= c <= 'Z' then (c as int + 32) as char else c
  }

  /** `s.lower()` (ASCII letters only): same length, every upper-case letter replaced. */
  function Lower(s: string): (r: string)
    ensures |r| == |s|
    ensures forall i :: 0 <= i < |s| ==> r[i] == LowerChar(s[i])
  {
    seq(|s|, i requires 0 <= i < |s| => LowerChar(s[i]))
  }

  /** `sub` occurs in `s` starting at index `i`. */
  predicate OccursAt(s: string, sub: string, i: int) {
    0 <= i <= |s| - |sub| && s[i..i + |sub|] == sub
  }

  /** `sub in s` for strings: some slice of `s` equals `sub`. */
  function Contains(s: string, sub: string): (r: bool)
    ensures r <==> exists i :: OccursAt(s, sub, i)
    decreases |s|
  {
    if |s| < |sub| then false
    else if s[..|sub|] == sub then assert OccursAt(s, sub, 0); true
    else
      var rest := Contains(s[1..], sub);
      assert !OccursAt(s, sub, 0);
      assert (exists i :: OccursAt(s, sub, i)) <==> (exists j :: OccursAt(s[1..], sub, j)) by {
        forall i | 1 <= i ensures OccursAt(s, sub, i) <==> OccursAt(s[1..], sub, i - 1) {
          OccursShift(s, sub, i);
        }
        assert forall j :: OccursAt(s[1..], sub, j) ==> OccursAt(s, sub, (j + 1));
      }
      rest
  }

  /** An occurrence at `i > 0` is an occurrence at `i - 1` of the string without its first character. */
  lemma OccursShift(s: string, sub: string, i: int)
    requires 1 <= i && s != []
    ensures OccursAt(s, sub, i) <==> OccursAt(s[1..], sub, i - 1)
  {
    if 0 <= i <= |s| - |sub| {
      var here, there := s[i..i + |sub|], s[1..][i - 1..i - 1 + |sub|];
      assert forall k :: 0 <= k < |sub| ==> here[k] == there[k];
      assert here == there;
    }
  }
}
