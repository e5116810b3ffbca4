/** Tag-based invalidation: the reverse index `"tag:" + t -> set of store keys`
    kept in the shared keyspace, and the bulk deletes it drives. */
module TagIndex {
  import opened Wrappers
  import opened Redis

  /** The keyspace key under which a tag's members are kept. */
  function TagKey(t: string): string
  {
    "tag:" + t
  }

  lemma TagKeyInjective(a: string, b: string)
    requires TagKey(a) == TagKey(b)
    ensures a == b
  {
    assert a == TagKey(a)[4..];
    assert b == TagKey(b)[4..];
  }

  function TagKeySeq(tags: seq<string>): (r: seq<string>)
    ensures |r| == |tags|
    ensures forall i :: 0 <= i < |tags| ==> r[i] == TagKey(tags[i])
  {
    if tags == [] then [] else TagKeySeq(tags[..|tags| - 1]) + [TagKey(tags[|tags| - 1])]
  }

  /** The keys of the sets of the given tags. */
  function TagKeySet(tags: seq<string>): set<string>
  {
    if tags == [] then {} else TagKeySet(tags[..|tags| - 1]) + {TagKey(tags[|tags| - 1])}
  }

  lemma {:induction false} TagKeySetMembers(tags: seq<string>, k: string)
    ensures k in TagKeySet(tags) <==> exists i :: 0 <= i < |tags| && k == TagKey(tags[i])
  {
    if tags != [] {
      var prefix := tags[..|tags| - 1];
      TagKeySetMembers(prefix, k);
      if exists i :: 0 <= i < |tags| && k == TagKey(tags[i]) {
        var i :| 0 <= i < |tags| && k == TagKey(tags[i]);
        if i < |prefix| {
          assert prefix[i] == tags[i];
        }
      }
      if exists i :: 0 <= i < |prefix| && k == TagKey(prefix[i]) {
        var i :| 0 <= i < |prefix| && k == TagKey(prefix[i]);
        assert prefix[i] == tags[i];
      }
    }
  }

  /** The keyspace after `key` has been added to the set under every key of `ks`
      that can hold a set; every other key keeps its value. */
  function Tagged(d: Keyspace, key: string, ks: set<string>): (r: Keyspace)
    ensures r.Keys == d.Keys + ks
    ensures forall k :: k in ks && IsSet(d, k) ==> r[k] == SetValue(Members(d, k) + {key})
    ensures forall k :: k in d && (k !in ks || !IsSet(d, k)) ==> r[k] == d[k]
  {
    map k | k in d.Keys + ks :: if k in ks && IsSet(d, k) then SetValue(Members(d, k) + {key}) else d[k]
  }

  /** One more SADD extends the set of keys already tagged. */
  lemma TaggedStep(d: Keyspace, key: string, ks: set<string>, k: string)
    ensures SAdd(Tagged(d, key, ks), k, key) == Tagged(d, key, ks + {k})
  {
    var a := SAdd(Tagged(d, key, ks), k, key);
    var b := Tagged(d, key, ks + {k});
    assert IsSet(Tagged(d, key, ks), k) <==> IsSet(d, k);
    assert a.Keys == b.Keys;
    forall j | j in a.Keys
      ensures a[j] == b[j]
    {
    }
  }

  /** Tagging is idempotent: repeating `add_tags` with the same key and tags changes nothing. */
  lemma TaggedIdempotent(d: Keyspace, key: string, ks: set<string>)
    ensures Tagged(Tagged(d, key, ks), key, ks) == Tagged(d, key, ks)
  {
    var once := Tagged(d, key, ks);
    var twice := Tagged(once, key, ks);
    forall k | k in ks
      ensures IsSet(once, k) <==> IsSet(d, k)
      ensures IsSet(d, k) ==> Members(once, k) == Members(d, k) + {key}
    {
    }
    assert twice.Keys == once.Keys;
    forall k | k in twice.Keys
      ensures twice[k] == once[k]
    {
    }
  }

  /** SUNION over the given keys (absent keys are empty sets). */
  function UnionAll(d: Keyspace, ks: seq<string>): set<string>
  {
    if ks == [] then {} else UnionAll(d, ks[..|ks| - 1]) + Members(d, ks[|ks| - 1])
  }

  /** SINTER over the given keys (absent keys are empty sets). */
  function InterAll(d: Keyspace, ks: seq<string>): set<string>
    requires ks != []
  {
    if |ks| == 1 then Members(d, ks[0]) else InterAll(d, ks[..|ks| - 1]) * Members(d, ks[|ks| - 1])
  }

  /** A key is in the union exactly when it is a member under one of the keys. */
  lemma {:induction false} UnionAllMembers(d: Keyspace, ks: seq<string>, m: string)
    ensures m in UnionAll(d, ks) <==> exists i :: 0 <= i < |ks| && m in Members(d, ks[i])
  {
    if ks != [] {
      UnionAllMembers(d, ks[..|ks| - 1], m);
      if m in Members(d, ks[|ks| - 1]) {
        assert 0 <= |ks| - 1 < |ks|;
      }
      if exists i :: 0 <= i < |ks| && m in Members(d, ks[i]) {
        var i :| 0 <= i < |ks| && m in Members(d, ks[i]);
        if i < |ks| - 1 {
          assert ks[..|ks| - 1][i] == ks[i];
        }
      }
    }
  }

  /** A key is in the intersection exactly when it is a member under every key. */
  lemma {:induction false} InterAllMembers(d: Keyspace, ks: seq<string>, m: string)
    requires ks != []
    ensures m in InterAll(d, ks) <==> forall i :: 0 <= i < |ks| ==> m in Members(d, ks[i])
  {
    if |ks| > 1 {
      InterAllMembers(d, ks[..|ks| - 1], m);
      var prefix := ks[..|ks| - 1];
      if forall i :: 0 <= i < |ks| ==> m in Members(d, ks[i]) {
        forall i | 0 <= i < |prefix|
          ensures m in Members(d, prefix[i])
        {
          assert prefix[i] == ks[i];
        }
      }
      if m in InterAll(d, ks) {
        forall i | 0 <= i < |ks|
          ensures m in Members(d, ks[i])
        {
          if i < |ks| - 1 {
            assert ks[..|ks| - 1][i] == ks[i];
          }
        }
      }
    }
  }

  /** `invalidate_by_tag` on a keyspace: the result and the keyspace afterwards. */
  function InvalidatedTag(d: Keyspace, tag: string): (Result<nat>, Keyspace)
  {
    var tk := TagKey(tag);
    if !IsSet(d, tk) then (Err("WRONGTYPE"), d)
    else
      var members := Members(d, tk);
      if members == {} then (Ok(0), d)
      else (Ok(|members|), d - members - {tk})
  }

  /** After one successful invalidation of a tag, a second one finds nothing. */
  lemma InvalidateTagTwice(d: Keyspace, tag: string)
    requires InvalidatedTag(d, tag).0.Ok?
    ensures InvalidatedTag(InvalidatedTag(d, tag).1, tag) == (Ok(0), InvalidatedTag(d, tag).1)
  {
  }

  /** `invalidate_by_tags` on a keyspace: the union or the intersection of the tag sets is deleted. */
  function InvalidatedTags(d: Keyspace, tags: seq<string>, matchAll: bool): (Result<nat>, Keyspace)
  {
    if tags == [] then (Ok(0), d)
    else
      var tks := TagKeySeq(tags);
      if exists i :: 0 <= i < |tks| && !IsSet(d, tks[i]) then (Err("WRONGTYPE"), d)
      else
        var keys := if matchAll then InterAll(d, tks) else UnionAll(d, tks);
        if keys == {} then (Ok(0), d) else (Ok(|keys|), d - keys)
  }

  /** The multi-tag invalidation deletes exactly the entries carrying all (or any) of
      the tags and keeps every other key, tag sets included. */
  lemma InvalidatedTagsSpec(d: Keyspace, tags: seq<string>, matchAll: bool, k: string)
    requires tags != [] && forall t :: t in tags ==> IsSet(d, TagKey(t))
    ensures var (r, d') := InvalidatedTags(d, tags, matchAll);
      var hit := if matchAll then (forall t :: t in tags ==> k in Members(d, TagKey(t)))
                 else (exists t :: t in tags && k in Members(d, TagKey(t)));
      && r.Ok?
      && (k in d' <==> k in d && !hit)
      && (k in d' ==> d'[k] == d[k])
  {
    var tks := TagKeySeq(tags);
    forall i | 0 <= i < |tks|
      ensures IsSet(d, tks[i])
    {
      assert tags[i] in tags;
    }
    if matchAll {
      InterAllMembers(d, tks, k);
      if forall t :: t in tags ==> k in Members(d, TagKey(t)) {
        forall i | 0 <= i < |tks|
          ensures k in Members(d, tks[i])
        {
          assert tags[i] in tags;
        }
      }
    } else {
      UnionAllMembers(d, tks, k);
      if exists t :: t in tags && k in Members(d, TagKey(t)) {
        var t :| t in tags && k in Members(d, TagKey(t));
        var i :| 0 <= i < |tags| && tags[i] == t;
        assert k in Members(d, tks[i]);
      }
    }
  }

  /** The keys carrying all (or any) of the tags. */
  ghost function MatchedKeys(d: Keyspace, tags: seq<string>, matchAll: bool): set<string>
    requires tags != []
  {
    if matchAll then set k | k in Members(d, TagKey(tags[0])) && forall t :: t in tags ==> k in Members(d, TagKey(t))
    else set t, k | t in tags && k in Members(d, TagKey(t)) :: k
  }

  /** SINTER (or SUNION) over the tag keys holds exactly the keys carrying all (or any) of the tags. */
  lemma MatchedByTags(d: Keyspace, tags: seq<string>, matchAll: bool, k: string)
    requires tags != []
    ensures var tks := TagKeySeq(tags);
      k in (if matchAll then InterAll(d, tks) else UnionAll(d, tks)) <==> k in MatchedKeys(d, tags, matchAll)
  {
    var tks := TagKeySeq(tags);
    if matchAll {
      InterAllMembers(d, tks, k);
      if forall t :: t in tags ==> k in Members(d, TagKey(t)) {
        forall i | 0 <= i < |tks|
          ensures k in Members(d, tks[i])
        {
          assert tags[i] in tags;
        }
      }
      if k in InterAll(d, tks) {
        forall t | t in tags
          ensures k in Members(d, TagKey(t))
        {
          var i :| 0 <= i < |tags| && tags[i] == t;
          assert k in Members(d, tks[i]);
        }
        assert k in Members(d, tks[0]);
      }
    } else {
      UnionAllMembers(d, tks, k);
      if exists t :: t in tags && k in Members(d, TagKey(t)) {
        var t :| t in tags && k in Members(d, TagKey(t));
        var i :| 0 <= i < |tags| && tags[i] == t;
        assert k in Members(d, tks[i]);
      }
      if k in UnionAll(d, tks) {
        var i :| 0 <= i < |tks| && k in Members(d, tks[i]);
        assert tags[i] in tags;
      }
    }
  }

  /** A successful multi-tag invalidation returns how many keys carry all (or any)
      of the tags, counting keys the tag sets still name after they were deleted. */
  lemma InvalidatedTagsCount(d: Keyspace, tags: seq<string>, matchAll: bool)
    requires tags != [] && forall t :: t in tags ==> IsSet(d, TagKey(t))
    ensures InvalidatedTags(d, tags, matchAll).0 == Ok(|MatchedKeys(d, tags, matchAll)|)
  {
    var tks := TagKeySeq(tags);
    forall i | 0 <= i < |tks|
      ensures IsSet(d, tks[i])
    {
      assert tags[i] in tags;
    }
    var keys := if matchAll then InterAll(d, tks) else UnionAll(d, tks);
    forall k
      ensures k in keys <==> k in MatchedKeys(d, tags, matchAll)
    {
      MatchedByTags(d, tags, matchAll, k);
    }
    assert keys == MatchedKeys(d, tags, matchAll);
  }

  /** The tag index over the shared store. */
  class TagManager {
    const redis: RedisStore

    constructor (client: RedisStore)
      ensures redis == client
    {
      redis := client;
    }

    /** `add_tags`: one SADD per tag; a tag key holding a non-set value fails its command
        (reported as `ok == false`) while the other commands still take effect. */
    method AddTags(cacheKey: string, tags: seq<string>) returns (ok: bool)
      modifies redis
      ensures redis.data == Tagged(old(redis.data), cacheKey, TagKeySet(tags))
      ensures ok <==> forall i :: 0 <= i < |tags| ==> IsSet(old(redis.data), TagKey(tags[i]))
      ensures tags == [] ==> redis.data == old(redis.data)
    {
      ghost var d0 := redis.data;
      assert Tagged(d0, cacheKey, {}) == d0;
      if tags == [] {
        return true;
      }
      ok := true;
      var i := 0;
      while i < |tags|
        invariant 0 <= i <= |tags|
        invariant redis.data == Tagged(d0, cacheKey, TagKeySet(tags[..i]))
        invariant ok <==> forall j :: 0 <= j < i ==> IsSet(d0, TagKey(tags[j]))
      {
        var tk := TagKey(tags[i]);
        assert IsSet(redis.data, tk) <==> IsSet(d0, tk);
        if !IsSet(redis.data, tk) {
          ok := false;
        }
        TaggedStep(d0, cacheKey, TagKeySet(tags[..i]), tk);
        redis.data := SAdd(redis.data, tk, cacheKey);
        assert tags[..i + 1][..i] == tags[..i];
        i := i + 1;
      }
      assert tags[..i] == tags;
    }

    /** `invalidate_by_tag`: delete every member key and the tag set, return the member count. */
    method InvalidateByTag(tag: string) returns (r: Result<nat>)
      modifies redis
      ensures (r, redis.data) == InvalidatedTag(old(redis.data), tag)
    {
      var tagKey := TagKey(tag);
      if !IsSet(redis.data, tagKey) {
        return Err("WRONGTYPE");
      }
      var cacheKeys := Members(redis.data, tagKey);
      if cacheKeys == {} {
        return Ok(0);
      }
      redis.data := redis.data - cacheKeys;
      redis.data := redis.data - {tagKey};
      r := Ok(|cacheKeys|);
    }

    /** `invalidate_by_tags`: delete the entries under all (`matchAll`) or any of the tags;
        the tag sets themselves are left for lazy cleanup. */
    method InvalidateByTags(tags: seq<string>, matchAll: bool) returns (r: Result<nat>)
      modifies redis
      ensures (r, redis.data) == InvalidatedTags(old(redis.data), tags, matchAll)
    {
      if tags == [] {
        return Ok(0);
      }
      var tagKeys := TagKeySeq(tags);
      if exists i :: 0 <= i < |tagKeys| && !IsSet(redis.data, tagKeys[i]) {
        return Err("WRONGTYPE");
      }
      var cacheKeys := if matchAll then InterAll(redis.data, tagKeys) else UnionAll(redis.data, tagKeys);
      if cacheKeys == {} {
        return Ok(0);
      }
      redis.data := redis.data - cacheKeys;
      r := Ok(|cacheKeys|);
    }
  }
}
