/**
 * The wire view of a request: a JSON object body is a list of members in the
 * order `encoding/json` writes them, and a query string is a list of
 * parameters. The order of query parameters is not modelled: the encoder
 * sorts them by key. Decoding a member that is missing leaves the Go zero value, which is
 * what makes `omitempty` lossless.
 */
module Wire {
  import opened Base

  datatype Json = JInt(i: int) | JString(s: string) | JBool(b: bool)

  /** One key/value pair of a JSON object or of a query string. */
  datatype Entry<V> = Entry(key: string, value: V)

  /** The value of the first entry under `key`, if any. */
  function Lookup<V>(es: seq<Entry<V>>, key: string): Option<V>
  {
    if es == [] then None
    else if es[0].key == key then Some(es[0].value)
    else Lookup(es[1..], key)
  }

  /** Looking up in a concatenation looks in the first part, then in the second. */
  lemma {:induction false} LookupAppend<V>(a: seq<Entry<V>>, b: seq<Entry<V>>)
    ensures forall key :: Lookup(a + b, key) == if Lookup(a, key).Some? then Lookup(a, key) else Lookup(b, key)
  {
    if a == [] {
      assert a + b == b;
    } else {
      assert (a + b)[1..] == a[1..] + b;
      LookupAppend(a[1..], b);
    }
  }

  /** An entry that is always written. */
  function Always<V>(key: string, value: V): (es: seq<Entry<V>>)
    ensures Lookup(es, key) == Some(value)
    ensures forall k :: k != key ==> Lookup(es, k) == None
  {
    [Entry(key, value)]
  }

  /** An entry written only when its value is not the zero value ("omitempty"). */
  function OmitEmpty<V>(key: string, value: V, isZero: bool): (es: seq<Entry<V>>)
    ensures Lookup(es, key) == if isZero then None else Some(value)
    ensures forall k :: k != key ==> Lookup(es, k) == None
  {
    if isZero then [] else [Entry(key, value)]
  }

  /** What `encoding/json` leaves in a `string` field: the member's string, else "". */
  function StringMember(body: seq<Entry<Json>>, key: string): string {
    match Lookup<Json>(body, key)
    case Some(JString(s)) => s
    case _ => ""
  }

  /** What `encoding/json` leaves in a `bool` field: the member's bool, else false. */
  function BoolMember(body: seq<Entry<Json>>, key: string): bool {
    match Lookup<Json>(body, key)
    case Some(JBool(b)) => b
    case _ => false
  }

  /** What `encoding/json` leaves in an `int64` field: the member's number, else 0. */
  function Int64Member(body: seq<Entry<Json>>, key: string): int64 {
    match Lookup<Json>(body, key)
    case Some(JInt(i)) => if -0x8000_0000_0000_0000 <= i < 0x8000_0000_0000_0000 then i as int64 else 0
    case _ => 0
  }
}
