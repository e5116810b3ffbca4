/** The Redis keyspace that the backing store and the tag index share: one
    value per key, either a set (a tag's members) or a hash (a cache entry
    written by the vector store).  Only the commands the cache issues are
    modelled: SMEMBERS, SADD and DEL, with their WRONGTYPE failure. */
module Redis {
  import opened Wrappers

  /** A value the cache stores under `metadata`: text, or the caller's whole context. */
  datatype Meta = Text(s: string) | Ctx(c: map<string, string>)

  /** The hash the vector store writes for one entry. */
  datatype StoredEntry = StoredEntry(
    prompt: string,
    response: string,
    metadata: map<string, Meta>,
    filters: seq<(string, string)>,
    ttl: Option<int>)

  datatype RedisValue = SetValue(members: set<string>) | HashValue(entry: StoredEntry)

  type Keyspace = map<string, RedisValue>

  /** A key that set commands can read: absent (an empty set) or holding a set. */
  predicate IsSet(d: Keyspace, k: string)
  {
    k !in d || d[k].SetValue?
  }

  /** SMEMBERS: the members of a set, empty for an absent key. */
  function Members(d: Keyspace, k: string): set<string>
  {
    if k in d && d[k].SetValue? then d[k].members else {}
  }

  /** SADD of one member; a key holding another type is left as it is (the command fails). */
  function SAdd(d: Keyspace, k: string, m: string): (r: Keyspace)
    ensures IsSet(d, k) ==> k in r && r[k] == SetValue(Members(d, k) + {m})
    ensures !IsSet(d, k) ==> r == d
    ensures forall j :: j != k ==> (j in r <==> j in d) && (j in d ==> r[j] == d[j])
  {
    if IsSet(d, k) then d[k := SetValue(Members(d, k) + {m})] else d
  }

  /** The shared Redis database. */
  class RedisStore {
    var data: Keyspace

    constructor (initial: Keyspace)
      ensures data == initial
    {
      data := initial;
    }
  }
}
