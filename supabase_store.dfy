/** The database (`SupabaseMCPClient` in mock mode): a `users` and a `roadmaps`
    dictionary, updated in place. `order` is the insertion order of `roadmaps`, which
    is the order in which Python iterates its values. */
module SupabaseStore {

  import opened Wrappers
  import opened Json

  /** No key occurs twice. */
  predicate Distinct(keys: seq<string>)
  {
    forall i, j :: 0 <= i < j < |keys| ==> keys[i] != keys[j]
  }

  /** The iteration order of a Python dictionary after assigning `key`: a new key goes
      last, an existing key keeps its place. */
  function Inserted(order: seq<string>, key: string): (r: seq<string>)
    ensures forall k :: k in r <==> k in order || k == key
    ensures |order| <= |r| && r[..|order|] == order
    ensures Distinct(order) ==> Distinct(r)
  {
    if key in order then order else order + [key]
  }

  /** The record `create_user` writes: the name and the two clock readings. */
  function UserRecord(username: string, createdAt: string, lastLogin: string): (u: Dict)
    ensures u.Keys == {"username", "created_at", "last_login"}
    ensures "username" in u && u["username"] == VStr(username)
    ensures "created_at" in u && u["created_at"] == VStr(createdAt)
    ensures "last_login" in u && u["last_login"] == VStr(lastLogin)
  {
    var m: map<string, Value> := map[
      "username" := VStr(username),
      "created_at" := VStr(createdAt),
      "last_login" := VStr(lastLogin)];
    m
  }

  /** A user record after a login: `last_login` is `now`, every other field as it was. */
  function WithLastLogin(record: Dict, now: string): (r: Dict)
    ensures r.Keys == record.Keys + {"last_login"}
    ensures "last_login" in r && r["last_login"] == VStr(now)
    ensures forall k :: k in record && k != "last_login" ==> r[k] == record[k]
  {
    var m: map<string, Value> := record["last_login" := VStr(now)];
    m
  }

  /** The listing's test `rm.get('user_id') == username`. */
  predicate OwnedBy(doc: Dict, username: string)
  {
    "user_id" in doc && doc["user_id"] == VStr(username)
  }

  /** The documents filed under `order`, in that order, that belong to `username`. */
  function Owned(order: seq<string>, roadmaps: map<string, Dict>, username: string): (r: seq<Dict>)
    ensures |r| <= |order|
    ensures forall i :: 0 <= i < |r| ==> OwnedBy(r[i], username) && r[i] in roadmaps.Values
    ensures forall k :: k in order && k in roadmaps && OwnedBy(roadmaps[k], username) ==> roadmaps[k] in r
    decreases |order|
  {
    if order == [] then []
    else
      var rest := Owned(order[1..], roadmaps, username);
      assert forall k :: k in order[1..] ==> k in order;
      assert forall k :: k in order ==> k == order[0] || k in order[1..];
      if order[0] in roadmaps && OwnedBy(roadmaps[order[0]], username) then [roadmaps[order[0]]] + rest
      else rest
  }

  /** Filing a document under a new last key appends it to its owner's listing, after
      every document filed before it. */
  lemma {:induction false} OwnedAfterAppend(order: seq<string>, roadmaps: map<string, Dict>, username: string, key: string)
    requires key in roadmaps
    ensures Owned(order + [key], roadmaps, username)
      == Owned(order, roadmaps, username) + (if OwnedBy(roadmaps[key], username) then [roadmaps[key]] else [])
    decreases |order|
  {
    if order == [] {
      assert [] + [key] == [key];
    } else {
      assert (order + [key])[1..] == order[1..] + [key];
      OwnedAfterAppend(order[1..], roadmaps, username, key);
    }
  }

  /** Why `save_roadmap` raises: the document has no `id`, or the model cannot file it
      under a key that is not a string. */
  datatype SaveError = MissingId | NonStringId

  class Store {
    /** `mock_data['users']`: username to user record. */
    var users: map<string, Dict>
    /** `mock_data['roadmaps']`: roadmap id to roadmap document. */
    var roadmaps: map<string, Dict>
    /** The keys of `roadmaps` in insertion order. */
    var order: seq<string>

    ghost predicate Valid()
      reads this
    {
      Distinct(order) && (forall k :: k in order <==> k in roadmaps)
    }

    /** Mock mode starts with both tables empty. */
    constructor()
      ensures Valid()
      ensures users == map[] && roadmaps == map[] && order == []
    {
      users := map[];
      roadmaps := map[];
      order := [];
    }

    /** `create_user`: inserts or overwrites the user's record and returns it. */
    method CreateUser(username: string, createdAt: string, lastLogin: string) returns (user: Dict)
      modifies this
      ensures user == UserRecord(username, createdAt, lastLogin)
      ensures users == old(users)[username := user]
      ensures roadmaps == old(roadmaps) && order == old(order)
    {
      user := UserRecord(username, createdAt, lastLogin);
      users := users[username := user];
    }

    /** `get_user`: the stored record, or `None`. */
    method GetUser(username: string) returns (r: Option<Dict>)
      ensures username in users ==> r == Some(users[username])
      ensures username !in users ==> r == None
    {
      if username in users {
        r := Some(users[username]);
      } else {
        r := None;
      }
    }

    /** `update_last_login`: a known user's `last_login` becomes `now` and nothing else
        changes; for an unknown user nothing changes at all. */
    method UpdateLastLogin(username: string, now: string)
      modifies this
      ensures username in old(users) ==> users == old(users)[username := WithLastLogin(old(users)[username], now)]
      ensures username !in old(users) ==> users == old(users)
      ensures roadmaps == old(roadmaps) && order == old(order)
    {
      if username in users {
        users := users[username := WithLastLogin(users[username], now)];
      }
    }

    /** `save_roadmap`: files the document under its own `id` and returns it unchanged;
        `roadmap_data['id']` raises for a document without one. */
    method SaveRoadmap(doc: Dict) returns (r: Result<Dict, SaveError>)
      requires Valid()
      modifies this
      ensures Valid()
      ensures "id" !in doc ==> r == Err(MissingId)
      ensures "id" in doc && !doc["id"].VStr? ==> r == Err(NonStringId)
      ensures r.Err? ==> roadmaps == old(roadmaps) && order == old(order)
      ensures "id" in doc && doc["id"].VStr? ==>
        && r == Ok(doc)
        && roadmaps == old(roadmaps)[doc["id"].s := doc]
        && order == Inserted(old(order), doc["id"].s)
      ensures users == old(users)
    {
      if "id" !in doc {
        return Err(MissingId);
      }
      if !doc["id"].VStr? {
        return Err(NonStringId);
      }
      var id := doc["id"].s;
      roadmaps := roadmaps[id := doc];
      order := Inserted(order, id);
      r := Ok(doc);
    }

    /** `get_roadmap`: the stored document, or `None`. */
    method GetRoadmap(id: string) returns (r: Option<Dict>)
      ensures id in roadmaps ==> r == Some(roadmaps[id])
      ensures id !in roadmaps ==> r == None
    {
      if id in roadmaps {
        r := Some(roadmaps[id]);
      } else {
        r := None;
      }
    }

    /** `update_roadmap`: a full replacement filed under `id`, whether or not it was
        there before; the document is returned unchanged. */
    method UpdateRoadmap(id: string, doc: Dict) returns (r: Dict)
      requires Valid()
      modifies this
      ensures Valid()
      ensures r == doc
      ensures roadmaps == old(roadmaps)[id := doc] && order == Inserted(old(order), id)
      ensures users == old(users)
    {
      roadmaps := roadmaps[id := doc];
      order := Inserted(order, id);
      r := doc;
    }

    /** `get_user_roadmaps`: the stored documents whose `user_id` is `username`, in the
        order the dictionary holds them. */
    method GetUserRoadmaps(username: string) returns (r: seq<Dict>)
      ensures r == Owned(order, roadmaps, username)
    {
      r := [];
      var i := 0;
      while i < |order|
        invariant 0 <= i <= |order|
        invariant r == Owned(order[..i], roadmaps, username)
      {
        var key := order[i];
        assert order[..i + 1] == order[..i] + [key];
        if key in roadmaps {
          OwnedAfterAppend(order[..i], roadmaps, username, key);
          if OwnedBy(roadmaps[key], username) {
            r := r + [roadmaps[key]];
          }
        } else {
          OwnedSkipsUnfiled(order[..i], roadmaps, username, key);
        }
        i := i + 1;
      }
      assert order[..i] == order;
    }
  }

  /** A key with no document contributes nothing to a listing. */
  lemma {:induction false} OwnedSkipsUnfiled(order: seq<string>, roadmaps: map<string, Dict>, username: string, key: string)
    requires key !in roadmaps
    ensures Owned(order + [key], roadmaps, username) == Owned(order, roadmaps, username)
    decreases |order|
  {
    if order == [] {
      assert [] + [key] == [key];
    } else {
      assert (order + [key])[1..] == order[1..] + [key];
      OwnedSkipsUnfiled(order[1..], roadmaps, username, key);
    }
  }

  // ---------------------------------------------------------------------------
  // Real mode: every error is absorbed into a default answer.

  /** `get_user` and `get_roadmap` against the service, given the reply's `data` rows:
      the first row, `None` for no rows, and `None` where the call raised. */
  function RealRead(attempt: Call<seq<Dict>>): (r: Option<Dict>)
    ensures attempt.Raised? ==> r == None
    ensures attempt.Returned? && attempt.value == [] ==> r == None
    ensures attempt.Returned? && attempt.value != [] ==> r == Some(attempt.value[0])
  {
    match attempt
    case Raised => None
    case Returned(rows) => if rows == [] then None else Some(rows[0])
  }

  /** `get_user_roadmaps` against the service, given the reply's `data` rows: those
      rows, and the empty list where the call raised. */
  function RealList(attempt: Call<seq<Dict>>): (r: seq<Dict>)
    ensures attempt.Raised? ==> r == []
    ensures attempt.Returned? ==> r == attempt.value
  {
    Absorb(attempt, [])
  }

  /** `save_roadmap` and `update_roadmap` against the service, given the `data` rows of
      the reply (`None` for an empty reply or one without rows): the first row, and the
      input document where the reply has no rows or the call raised. */
  function RealWrite(attempt: Call<Option<seq<Dict>>>, doc: Dict): (r: Dict)
    ensures attempt.Raised? ==> r == doc
    ensures attempt.Returned? && attempt.value.Some? && attempt.value.value != [] ==> r == attempt.value.value[0]
    ensures attempt.Returned? && (attempt.value.None? || attempt.value.value == []) ==> r == doc
  {
    match attempt
    case Raised => doc
    case Returned(None) => doc
    case Returned(Some(rows)) => if rows == [] then doc else rows[0]
  }

  /** `create_user` against the service: the first row of the reply, `{}` for an empty
      reply, and a record made up locally where the call raised (an empty row list
      raises on `[0]` and ends there too). */
  function RealCreateUser(attempt: Call<Option<seq<Dict>>>, username: string, createdAt: string, lastLogin: string): (r: Dict)
    ensures attempt.Raised? ==> r == UserRecord(username, createdAt, lastLogin)
    ensures attempt == Returned(Some([])) ==> r == UserRecord(username, createdAt, lastLogin)
    ensures attempt == Returned(None) ==> r == map[]
    ensures attempt.Returned? && attempt.value.Some? && attempt.value.value != [] ==> r == attempt.value.value[0]
  {
    match attempt
    case Raised => UserRecord(username, createdAt, lastLogin)
    case Returned(None) => map[]
    case Returned(Some(rows)) => if rows == [] then UserRecord(username, createdAt, lastLogin) else rows[0]
  }
}
