/** Types shared by the cache, client, app and security modules. */
module Common {

  datatype Option<+T> = None | Some(value: T)

  datatype Result<+T, +E> = Success(value: T) | Failure(error: E)

  /** Response headers. The HTTP library keeps them in a case-insensitive
      dictionary; the model keys them by lower-cased name. A value of `None`
      is an entry that the code assigned Python's `None` to: `HeaderGet`
      cannot tell it from a missing header, but `name in h` can. */
  type Headers = map<string, Option<string>>

  /** `headers.get(name, None)` */
  function HeaderGet(h: Headers, name: string): (r: Option<string>)
    ensures r.Some? ==> name in h && h[name] == r
    ensures name !in h ==> r.None?
  {
    if name in h then h[name] else None
  }

  /** The wall clock and the `Expires` date parser. `now` is `time.time()`
      in whole seconds; `expiresAt` turns an `Expires` value into the
      instant it names, and `TimeLeft` is what `get_cache_time_left`
      computes from it. Both are read once per modelled call. */
  datatype Clock = Clock(now: int, expiresAt: Option<string> -> int)

  function TimeLeft(c: Clock, expires: Option<string>): int
  {
    c.expiresAt(expires) - c.now
  }

  /** A request descriptor as the operation registry prepares it: the HTTP
      method, the URL, the caller's header dictionary, the resolved path
      parameters, the query parameters (a list of pairs), the body, and the
      security requirements of the operation (each one a set of scheme
      names). */
  datatype Request = Request(
    verb: string,
    url: string,
    header: map<string, string>,
    path: map<string, string>,
    query: seq<(string, string)>,
    data: string,
    security: seq<set<string>>)

  function UpperChar(c: char): char
  {
    if 'a' <= c <= 'z' then (c as int - 'a' as int + 'A' as int) as char else c
  }

  /** `str.upper()` on ASCII text */
  function Upper(s: string): (r: string)
    ensures |r| == |s|
    ensures forall i :: 0 <= i < |s| ==> r[i] == UpperChar(s[i])
  {
    if s == [] then [] else [UpperChar(s[0])] + Upper(s[1..])
  }
}
