/** The raw FT.SEARCH reply and the records the cache manager builds from it.
    A reply is `[count, key1, [f, v, f, v, ...], key2, [...], ...]`; the count
    and the keys are ignored, and each field list becomes one `Doc`. */
module SearchReply {
  import opened Wrappers

  /** A RESP reply element: an integer, a (decoded) string or an array. */
  datatype Reply = RInt(i: int) | RStr(s: string) | RArr(items: seq<Reply>)

  /** One search result as the manager handles it: the top-level fields, the
      remaining fields as metadata, and the score a reranker may attach. */
  datatype Doc = Doc(
    distance: Option<real>,
    prompt: Option<string>,
    response: Option<string>,
    metadata: map<string, string>,
    rerankScore: Option<real>)

  /** The record a field list starts from: no top-level field, empty metadata. */
  const EmptyDoc: Doc := Doc(None, None, None, map[], None)

  /** The field names that never land in metadata. */
  const Reserved: set<string> := {"vector_distance", "prompt", "response", "prompt_vector"}

  /** The placement of one field: the distance is parsed as a float (a value that
      does not parse raises), prompt and response go top-level, the vector is
      dropped and every other field is copied into metadata. */
  function PlaceField(doc: Doc, name: string, value: string, parseFloat: string -> Option<real>): (r: Result<Doc>)
    ensures r.Err? <==> name == "vector_distance" && parseFloat(value).None?
    ensures r.Ok? ==> r.value.rerankScore == doc.rerankScore
    ensures r.Ok? && name == "vector_distance" ==> r.value == doc.(distance := parseFloat(value))
    ensures name == "prompt" ==> r == Ok(doc.(prompt := Some(value)))
    ensures name == "response" ==> r == Ok(doc.(response := Some(value)))
    ensures name == "prompt_vector" ==> r == Ok(doc)
    ensures name !in Reserved ==> r == Ok(doc.(metadata := doc.metadata[name := value]))
    ensures r.Ok? && name in Reserved ==> r.value.metadata == doc.metadata
  {
    if name == "vector_distance" then
      match parseFloat(value)
      case None => Err("ValueError: could not convert string to float")
      case Some(x) => Ok(doc.(distance := Some(x)))
    else if name == "prompt" then Ok(doc.(prompt := Some(value)))
    else if name == "response" then Ok(doc.(response := Some(value)))
    else if name == "prompt_vector" then Ok(doc)
    else Ok(doc.(metadata := doc.metadata[name := value]))
  }

  /** The record built from a field list, pair by pair from the front.  A
      non-string item is malformed; an odd item count fails on the missing value
      of the last name, after the earlier pairs have been placed. */
  function FieldsDoc(items: seq<Reply>, parseFloat: string -> Option<real>): Result<Doc>
    decreases |items|
  {
    if items == [] then Ok(EmptyDoc)
    else if |items| % 2 == 1 then
      var prefix := FieldsDoc(items[..|items| - 1], parseFloat);
      if prefix.Err? then prefix
      else Err("IndexError: list index out of range")
    else
      var prefix := FieldsDoc(items[..|items| - 2], parseFloat);
      if prefix.Err? then prefix
      else
        var name := items[|items| - 2];
        var value := items[|items| - 1];
        if !name.RStr? || !value.RStr? then Err("TypeError: malformed field")
        else PlaceField(prefix.value, name.s, value.s, parseFloat)
  }

  /** The record built from the element after a key. */
  function EntryDoc(fields: Reply, parseFloat: string -> Option<real>): Result<Doc>
  {
    if fields.RArr? then FieldsDoc(fields.items, parseFloat)
    else Err("TypeError: malformed field list")
  }

  /** The records of the (key, fields) pairs of `entries` (the reply without its count), in order. */
  function EntriesDocs(entries: seq<Reply>, parseFloat: string -> Option<real>): Result<seq<Doc>>
    requires |entries| % 2 == 0
    decreases |entries|
  {
    if entries == [] then Ok([])
    else
      var prefix := EntriesDocs(entries[..|entries| - 2], parseFloat);
      if prefix.Err? then prefix
      else
        var doc := EntryDoc(entries[|entries| - 1], parseFloat);
        if doc.Err? then Err(doc.msg) else Ok(prefix.value + [doc.value])
  }

  /** What the parsing step of the native search returns for a raw reply.  An
      empty reply has no count to read; a reply of even length ends with a key
      that has no field list. */
  function ParsedReply(raw: seq<Reply>, parseFloat: string -> Option<real>): Result<seq<Doc>>
  {
    if raw == [] then Err("IndexError: list index out of range")
    else if |raw| % 2 == 0 then
      var done := EntriesDocs(raw[1..|raw| - 1], parseFloat);
      if done.Err? then done else Err("IndexError: list index out of range")
    else EntriesDocs(raw[1..], parseFloat)
  }

  // ---------------------------------------------------------------- the parsing loops

  /** The inner loop: one field list into one record. */
  method ParseFields(items: seq<Reply>, parseFloat: string -> Option<real>) returns (r: Result<Doc>)
    ensures r == FieldsDoc(items, parseFloat)
  {
    var doc := EmptyDoc;
    var j := 0;
    while j < |items|
      invariant 0 <= j <= |items| && j % 2 == 0
      invariant FieldsDoc(items[..j], parseFloat) == Ok(doc)
    {
      var step := PlacePair(items, j, doc, parseFloat);
      if step.Err? {
        return step;
      }
      doc := step.value;
      j := j + 2;
    }
    assert items[..j] == items;
    r := Ok(doc);
  }

  /** One turn of the inner loop: the pair at `j` is placed into the record; a
      failure here is the failure of the whole field list. */
  method PlacePair(items: seq<Reply>, j: nat, doc: Doc, parseFloat: string -> Option<real>)
    returns (step: Result<Doc>)
    requires j < |items| && j % 2 == 0
    requires FieldsDoc(items[..j], parseFloat) == Ok(doc)
    ensures step.Ok? ==> j + 2 <= |items| && FieldsDoc(items[..j + 2], parseFloat) == step
    ensures step.Err? ==> step == FieldsDoc(items, parseFloat)
  {
    if j + 1 >= |items| {
      assert items[..j] == items[..|items| - 1];
      FieldsMissingValue(items, parseFloat);
      return Err("IndexError: list index out of range");
    }
    var name := items[j];
    var value := items[j + 1];
    FieldsStep(items, j, parseFloat);
    if !name.RStr? || !value.RStr? {
      FieldsPrefixErr(items, j + 2, parseFloat);
      return Err("TypeError: malformed field");
    }
    step := PlaceField(doc, name.s, value.s, parseFloat);
    if step.Err? {
      FieldsPrefixErr(items, j + 2, parseFloat);
    }
  }

  /** The element after a key: a field list is parsed, anything else is malformed. */
  method ParseEntry(fields: Reply, parseFloat: string -> Option<real>) returns (doc: Result<Doc>)
    ensures doc == EntryDoc(fields, parseFloat)
  {
    if fields.RArr? {
      doc := ParseFields(fields.items, parseFloat);
    } else {
      doc := Err("TypeError: malformed field list");
    }
  }

  /** One turn of the outer loop: the fields after the key at `i` are parsed and
      appended; a failure here is the failure of the whole reply. */
  method ParsePair(raw: seq<Reply>, i: nat, parsed: seq<Doc>, parseFloat: string -> Option<real>)
    returns (step: Result<seq<Doc>>)
    requires 1 <= i < |raw| && i % 2 == 1
    requires EntriesDocs(raw[1..i], parseFloat) == Ok(parsed)
    ensures step.Ok? ==> i + 2 <= |raw| && EntriesDocs(raw[1..i + 2], parseFloat) == step
    ensures step.Err? ==> step == ParsedReply(raw, parseFloat)
  {
    if i + 1 >= |raw| {
      ParsedReplyMissingFields(raw, parsed, parseFloat);
      return Err("IndexError: list index out of range");
    }
    var doc := ParseEntry(raw[i + 1], parseFloat);
    EntriesStep(raw, i, parseFloat);
    if doc.Err? {
      ParsedReplyPrefixErr(raw, i + 1, parseFloat);
      return Err(doc.msg);
    }
    step := Ok(parsed + [doc.value]);
  }

  /** The outer loop: step over the reply two elements at a time from index 1. */
  method ParseReply(raw: seq<Reply>, parseFloat: string -> Option<real>) returns (r: Result<seq<Doc>>)
    ensures r == ParsedReply(raw, parseFloat)
  {
    if |raw| == 0 {
      return Err("IndexError: list index out of range");
    }
    var parsed: seq<Doc> := [];
    var i := 1;
    ghost var pairs := 0;
    while i < |raw|
      invariant i == 2 * pairs + 1 && i <= |raw|
      invariant EntriesDocs(raw[1..i], parseFloat) == Ok(parsed)
    {
      var step := ParsePair(raw, i, parsed, parseFloat);
      if step.Err? {
        return step;
      }
      parsed := step.value;
      i, pairs := i + 2, pairs + 1;
    }
    ParsedReplyComplete(raw, parsed, parseFloat);
    r := Ok(parsed);
  }

  // ---------------------------------------------------------------- errors propagate

  /** Once a prefix of a field list fails, the whole list fails with the same error. */
  lemma {:induction false} FieldsPrefixErr(items: seq<Reply>, j: nat, parseFloat: string -> Option<real>)
    requires j <= |items| && j % 2 == 0 && FieldsDoc(items[..j], parseFloat).Err?
    ensures FieldsDoc(items, parseFloat) == FieldsDoc(items[..j], parseFloat)
    decreases |items| - j
  {
    if j < |items| {
      var k := if |items| % 2 == 1 then |items| - 1 else |items| - 2;
      assert items[..k][..j] == items[..j];
      FieldsPrefixErr(items[..k], j, parseFloat);
    } else {
      assert items[..j] == items;
    }
  }

  /** Once a prefix of the entries fails, the whole reply fails with the same error. */
  lemma {:induction false} EntriesPrefixErr(entries: seq<Reply>, j: nat, parseFloat: string -> Option<real>)
    requires j <= |entries| && j % 2 == 0 && |entries| % 2 == 0
    requires EntriesDocs(entries[..j], parseFloat).Err?
    ensures EntriesDocs(entries, parseFloat) == EntriesDocs(entries[..j], parseFloat)
    decreases |entries| - j
  {
    if j < |entries| {
      var k := |entries| - 2;
      assert entries[..k][..j] == entries[..j];
      EntriesPrefixErr(entries[..k], j, parseFloat);
    } else {
      assert entries[..j] == entries;
    }
  }

  /** One more (name, value) pair places that field into the record built so far. */
  lemma FieldsStep(items: seq<Reply>, j: nat, parseFloat: string -> Option<real>)
    requires j + 2 <= |items| && j % 2 == 0
    ensures FieldsDoc(items[..j + 2], parseFloat) ==
      var prefix := FieldsDoc(items[..j], parseFloat);
      if prefix.Err? then prefix
      else if !items[j].RStr? || !items[j + 1].RStr? then Err("TypeError: malformed field")
      else PlaceField(prefix.value, items[j].s, items[j + 1].s, parseFloat)
  {
    assert items[..j + 2][..j] == items[..j];
  }

  /** A field list of odd length fails on its last name once the pairs before it place. */
  lemma FieldsMissingValue(items: seq<Reply>, parseFloat: string -> Option<real>)
    requires |items| % 2 == 1 && FieldsDoc(items[..|items| - 1], parseFloat).Ok?
    ensures FieldsDoc(items, parseFloat) == Err("IndexError: list index out of range")
  {
  }

  /** One more (key, fields) pair extends the entries parsed so far by that pair's record. */
  lemma EntriesStep(raw: seq<Reply>, i: nat, parseFloat: string -> Option<real>)
    requires 1 <= i && i + 1 < |raw| && i % 2 == 1
    ensures EntriesDocs(raw[1..i + 2], parseFloat) ==
      var prefix := EntriesDocs(raw[1..i], parseFloat);
      var doc := EntryDoc(raw[i + 1], parseFloat);
      if prefix.Err? then prefix else if doc.Err? then Err(doc.msg) else Ok(prefix.value + [doc.value])
  {
    assert raw[1..i + 2][..i - 1] == raw[1..i];
  }

  /** A failing prefix of the pairs decides the result of the whole reply. */
  lemma ParsedReplyPrefixErr(raw: seq<Reply>, j: nat, parseFloat: string -> Option<real>)
    requires 0 < j + 1 <= |raw| && j % 2 == 0
    requires EntriesDocs(raw[1..j + 1], parseFloat).Err?
    ensures ParsedReply(raw, parseFloat) == EntriesDocs(raw[1..j + 1], parseFloat)
  {
    var whole := if |raw| % 2 == 0 then raw[1..|raw| - 1] else raw[1..];
    assert whole[..j] == raw[1..j + 1];
    EntriesPrefixErr(whole, j, parseFloat);
  }

  /** A reply of odd length whose pairs all parse yields their records. */
  lemma ParsedReplyComplete(raw: seq<Reply>, parsed: seq<Doc>, parseFloat: string -> Option<real>)
    requires |raw| % 2 == 1
    requires EntriesDocs(raw[1..|raw|], parseFloat) == Ok(parsed)
    ensures ParsedReply(raw, parseFloat) == Ok(parsed)
  {
    assert raw[1..|raw|] == raw[1..];
  }

  /** A reply of even length fails on its last key once the pairs before it parse. */
  lemma ParsedReplyMissingFields(raw: seq<Reply>, parsed: seq<Doc>, parseFloat: string -> Option<real>)
    requires |raw| > 0 && |raw| % 2 == 0
    requires EntriesDocs(raw[1..|raw| - 1], parseFloat) == Ok(parsed)
    ensures ParsedReply(raw, parseFloat) == Err("IndexError: list index out of range")
  {
  }

  // ---------------------------------------------------------------- properties of the parse

  /** The leading count plays no part in the result. */
  lemma ParsedReplyIgnoresCount(a: Reply, b: Reply, rest: seq<Reply>, parseFloat: string -> Option<real>)
    ensures ParsedReply([a] + rest, parseFloat) == ParsedReply([b] + rest, parseFloat)
  {
    assert ([a] + rest)[1..] == rest == ([b] + rest)[1..];
    if |rest| > 0 {
      assert ([a] + rest)[1..|rest|] == rest[..|rest| - 1] == ([b] + rest)[1..|rest|];
    }
  }

  /** One record per (key, fields) pair, in reply order: record `p` is built from the
      field list at position `2p + 1` of the entries. */
  lemma {:induction false} EntriesDocsOrder(entries: seq<Reply>, parseFloat: string -> Option<real>)
    requires |entries| % 2 == 0 && EntriesDocs(entries, parseFloat).Ok?
    ensures |EntriesDocs(entries, parseFloat).value| == |entries| / 2
    ensures forall p :: 0 <= p < |entries| / 2 ==>
      EntryDoc(entries[2 * p + 1], parseFloat) == Ok(EntriesDocs(entries, parseFloat).value[p])
    decreases |entries|
  {
    if entries != [] {
      var prefix := entries[..|entries| - 2];
      EntriesDocsOrder(prefix, parseFloat);
      var docs := EntriesDocs(entries, parseFloat).value;
      forall p | 0 <= p < |entries| / 2
        ensures EntryDoc(entries[2 * p + 1], parseFloat) == Ok(docs[p])
      {
        if p < |prefix| / 2 {
          assert entries[2 * p + 1] == prefix[2 * p + 1];
        }
      }
    }
  }

  /** A parsed reply has odd length and yields one record per pair, in order. */
  lemma ParsedReplyOrder(raw: seq<Reply>, parseFloat: string -> Option<real>)
    requires ParsedReply(raw, parseFloat).Ok?
    ensures |raw| % 2 == 1
    ensures |ParsedReply(raw, parseFloat).value| == |raw| / 2
    ensures forall p :: 0 <= p < |raw| / 2 ==>
      EntryDoc(raw[2 * p + 2], parseFloat) == Ok(ParsedReply(raw, parseFloat).value[p])
  {
    EntriesDocsOrder(raw[1..], parseFloat);
    var docs := ParsedReply(raw, parseFloat).value;
    forall p | 0 <= p < |raw| / 2
      ensures EntryDoc(raw[2 * p + 2], parseFloat) == Ok(docs[p])
    {
      assert raw[1..][2 * p + 1] == raw[2 * p + 2];
    }
  }

  /** Some pair of the field list has `k` as its name. */
  ghost predicate NamesField(items: seq<Reply>, k: string)
  {
    exists j :: 0 <= j < |items| && j % 2 == 0 && items[j] == RStr(k)
  }

  /** A name is among a list's names exactly when it is among those of the list
      without its last pair or is that pair's name. */
  lemma NamesFieldStep(items: seq<Reply>, k: string)
    requires |items| >= 2 && |items| % 2 == 0
    ensures NamesField(items, k) <==> NamesField(items[..|items| - 2], k) || items[|items| - 2] == RStr(k)
  {
    var prefix := items[..|items| - 2];
    if NamesField(items, k) {
      var j :| 0 <= j < |items| && j % 2 == 0 && items[j] == RStr(k);
      if j < |prefix| {
        assert prefix[j] == items[j];
      }
    }
    if NamesField(prefix, k) {
      var j :| 0 <= j < |prefix| && j % 2 == 0 && prefix[j] == RStr(k);
      assert items[j] == prefix[j];
    }
  }

  /** The pair at `j` is the last pair of the field list whose name is `k`. */
  ghost predicate LastNames(items: seq<Reply>, k: string, j: int)
  {
    && 0 <= j < |items| && j % 2 == 0 && items[j] == RStr(k)
    && forall j' :: j < j' < |items| && j' % 2 == 0 ==> items[j'] != RStr(k)
  }

  /** Where each field of a well-formed list ends up: the reserved names set their
      top-level field, `prompt_vector` goes nowhere, every other name becomes a
      metadata key, and nothing else does; a field named more than once holds the
      value of the last pair that names it. */
  lemma {:induction false} FieldsDocPlacement(items: seq<Reply>, parseFloat: string -> Option<real>, k: string)
    requires FieldsDoc(items, parseFloat).Ok?
    ensures |items| % 2 == 0 && forall i :: 0 <= i < |items| ==> items[i].RStr?
    ensures var d := FieldsDoc(items, parseFloat).value;
      && (k in d.metadata <==> k !in Reserved && NamesField(items, k))
      && (k == "prompt" ==> (d.prompt.Some? <==> NamesField(items, k)))
      && (k == "response" ==> (d.response.Some? <==> NamesField(items, k)))
      && (k == "vector_distance" ==> (d.distance.Some? <==> NamesField(items, k)))
      && d.rerankScore.None?
    ensures var d := FieldsDoc(items, parseFloat).value;
      forall j :: LastNames(items, k, j) ==>
        && (k == "prompt" ==> d.prompt == Some(items[j + 1].s))
        && (k == "response" ==> d.response == Some(items[j + 1].s))
        && (k == "vector_distance" ==> d.distance == parseFloat(items[j + 1].s))
        && (k !in Reserved ==> k in d.metadata && d.metadata[k] == items[j + 1].s)
    decreases |items|
  {
    if items != [] {
      assert |items| % 2 == 0;
      var prefix := items[..|items| - 2];
      FieldsDocPlacement(prefix, parseFloat, k);
      NamesFieldStep(items, k);
    }
    FieldsDocLastValue(items, parseFloat, k);
  }

  /** A well-formed list holds only strings, and each field holds the value of the
      last pair naming it. */
  lemma {:induction false} FieldsDocLastValue(items: seq<Reply>, parseFloat: string -> Option<real>, k: string)
    requires FieldsDoc(items, parseFloat).Ok?
    ensures |items| % 2 == 0 && forall i :: 0 <= i < |items| ==> items[i].RStr?
    ensures var d := FieldsDoc(items, parseFloat).value;
      forall j :: LastNames(items, k, j) ==>
        && (k == "prompt" ==> d.prompt == Some(items[j + 1].s))
        && (k == "response" ==> d.response == Some(items[j + 1].s))
        && (k == "vector_distance" ==> d.distance == parseFloat(items[j + 1].s))
        && (k !in Reserved ==> k in d.metadata && d.metadata[k] == items[j + 1].s)
    decreases |items|
  {
    if items != [] {
      var n := |items|;
      var prefix := items[..n - 2];
      FieldsDocLastValue(prefix, parseFloat, k);
      var d := FieldsDoc(items, parseFloat).value;
      var dp := FieldsDoc(prefix, parseFloat).value;
      assert d == PlaceField(dp, items[n - 2].s, items[n - 1].s, parseFloat).value;
      forall i | 0 <= i < n
        ensures items[i].RStr?
      {
        if i < n - 2 {
          assert prefix[i] == items[i];
        }
      }
      forall j | LastNames(items, k, j) && j < n - 2
        ensures LastNames(prefix, k, j)
      {
        forall j' | j < j' < |prefix| && j' % 2 == 0
          ensures prefix[j'] != RStr(k)
        {
          assert prefix[j'] == items[j'];
        }
      }
    }
  }
}
