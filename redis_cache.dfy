/** The cache (`RedisClient` in mock mode): a dictionary from keys to the JSON text of
    the cached values, updated in place by `set` and `delete`. */
module RedisCache {

  import opened Wrappers
  import opened Json

  /** `json.dumps` and `json.loads`; `loads` gives `None` where `json.loads` raises. */
  datatype Codec = Codec(dumps: Json -> string, loads: string -> Option<Json>)

  /** The codec reads `v` back from the text it writes for it, and that text is not
      empty (no JSON document is). */
  predicate RoundTrips(c: Codec, v: Json)
  {
    c.loads(c.dumps(v)) == Some(v) && c.dumps(v) != ""
  }

  /** Every value has a codec that round-trips it, so a promise made under
      `RoundTrips(c, v)` is about some codec. */
  lemma RoundTripsIsSatisfiable(v: Json)
    ensures exists c: Codec :: RoundTrips(c, v)
  {
    var c := Codec(_ => "null", _ => Some(v));
    assert RoundTrips(c, v);
  }

  /** What `get(key)` gives on the dictionary `entries`: `None` (`VNull`) for an absent
      key or an empty text, the decoded value otherwise, and `Raised` for a text that
      does not decode, since mock mode does not catch the decoding error. */
  function Read(c: Codec, entries: map<string, string>, key: string): (r: Call<Json>)
    ensures key !in entries ==> r == Returned(VNull)
    ensures r.Raised? ==> key in entries && c.loads(entries[key]).None?
  {
    if key !in entries || entries[key] == "" then Returned(VNull)
    else
      match c.loads(entries[key])
      case None => Raised
      case Some(v) => Returned(v)
  }

  /** Reading a key back after writing a value under it gives that value, when the
      codec reads that value back. */
  lemma ReadAfterWrite(c: Codec, entries: map<string, string>, key: string, value: Json)
    requires RoundTrips(c, value)
    ensures Read(c, entries[key := c.dumps(value)], key) == Returned(value)
  {
  }

  /** Writing or deleting one key does not change what any other key reads. */
  lemma ReadOtherKey(c: Codec, entries: map<string, string>, key: string, text: string, other: string)
    requires other != key
    ensures Read(c, entries[key := text], other) == Read(c, entries, other)
    ensures Read(c, entries - {key}, other) == Read(c, entries, other)
  {
  }

  class Cache {
    /** `mock_cache`: key to `json.dumps(value)`. */
    var entries: map<string, string>
    const codec: Codec

    /** Mock mode starts with an empty dictionary. */
    constructor(codec: Codec)
      ensures this.codec == codec && entries == map[]
    {
      this.codec := codec;
      entries := map[];
    }

    /** `set`: the key now holds the value's JSON text, every other key is unchanged,
        the answer is `True`, and `expireSeconds` plays no part. */
    method Set(key: string, value: Json, expireSeconds: int) returns (ok: bool)
      modifies this
      ensures ok
      ensures entries == old(entries)[key := codec.dumps(value)]
    {
      entries := entries[key := codec.dumps(value)];
      ok := true;
    }

    /** `get`. */
    method Get(key: string) returns (r: Call<Json>)
      ensures r == Read(codec, entries, key)
    {
      if key !in entries || entries[key] == "" {
        return Returned(VNull);
      }
      var decoded := codec.loads(entries[key]);
      if decoded.None? {
        return Raised;
      }
      r := Returned(decoded.value);
    }

    /** `delete`: `True` exactly when the key was present; afterwards it is absent and
        every other key is unchanged. */
    method Delete(key: string) returns (deleted: bool)
      modifies this
      ensures deleted <==> key in old(entries)
      ensures entries == old(entries) - {key}
    {
      if key in entries {
        entries := entries - {key};
        deleted := true;
      } else {
        deleted := false;
      }
    }

    /** `exists`: whether the key is in the dictionary, whatever text it holds. */
    method Exists(key: string) returns (present: bool)
      ensures present <==> key in entries
    {
      present := key in entries;
    }
  }

  // ---------------------------------------------------------------------------
  // Real mode: the backend's errors become default answers.

  /** `set` and `delete` against the server: `True` once the call returns, `False`
      where it raised. */
  function RealWrite(attempt: Call<()>): (ok: bool)
    ensures ok <==> attempt.Returned?
  {
    attempt.Returned?
  }

  /** `exists` against the server: the reply's count read as a truth value, `False`
      where the call raised. */
  function RealExists(attempt: Call<int>): (present: bool)
    ensures present <==> attempt.Returned? && attempt.value != 0
  {
    attempt.Returned? && attempt.value != 0
  }

  /** `get` against the server, given the text it holds for the key (`None` when it holds
      none): an error from the server or from decoding gives `None`, so `get` never
      raises. */
  function RealGet(c: Codec, attempt: Call<Option<string>>): (r: Json)
    ensures attempt.Raised? ==> r == VNull
  {
    match attempt
    case Raised => VNull
    case Returned(None) => VNull
    case Returned(Some(text)) =>
      if text == "" then VNull
      else Absorb(if c.loads(text).Some? then Returned(c.loads(text).value) else Raised, VNull)
  }

  /** Where the server holds what the mock dictionary holds, real `get` answers as mock
      `get` does, except that the decoding error the mock raises becomes `None`. */
  lemma RealGetAgreesWithRead(c: Codec, entries: map<string, string>, key: string)
    ensures RealGet(c, Returned(if key in entries then Some(entries[key]) else None)) == Absorb(Read(c, entries, key), VNull)
  {
  }
}
