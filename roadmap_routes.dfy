/** The roadmap routes: each handler is one sequential method over the store and the
    cache, with the engine, the token decoder, the fresh id and the clock readings as
    inputs. Outcomes the framework maps to HTTP errors are `RouteError`s. */
module RoadmapRoutes {

  import opened Wrappers
  import opened Json
  import opened Text
  import Schemas
  import Scout
  import RedisCache
  import SupabaseStore
  import AuthRoutes

  /** 404 and 500. */
  datatype RouteError = NotFound | ServerError

  // ---------------------------------------------------------------------------
  // Owner resolution

  const Anonymous: string := "anonymous"
  const BearerPrefix: string := "Bearer "

  /** `get_username_from_token`: "anonymous" for a missing header, one that does not
      start with "Bearer ", or a token whose payload is falsy; otherwise the payload's
      `sub`, or "anonymous" where it has none. The token is the header with every
      "Bearer " removed. */
  function OwnerFromHeader(authorization: Option<string>, decode: string -> Option<Dict>): (owner: Json)
    ensures authorization.None? || !StartsWith(authorization.value, BearerPrefix) ==> owner == VStr(Anonymous)
    ensures authorization.Some? && StartsWith(authorization.value, BearerPrefix) ==>
      var payload := decode(RemoveAll(authorization.value, BearerPrefix));
      && (payload.None? || payload.value == map[] ==> owner == VStr(Anonymous))
      && (payload.Some? && "sub" in payload.value ==> owner == payload.value["sub"])
      && (payload.Some? && payload.value != map[] && "sub" !in payload.value ==> owner == VStr(Anonymous))
  {
    if authorization.None? || authorization.value == "" || !StartsWith(authorization.value, BearerPrefix) then
      VStr(Anonymous)
    else
      var token := RemoveAll(authorization.value, BearerPrefix);
      var payload := decode(token);
      if payload.Some? && Truthy(VDict(payload.value)) then GetOr(payload.value, "sub", VStr(Anonymous))
      else VStr(Anonymous)
  }

  /** The header "Bearer <token>" for a token issued at login resolves to the user who
      logged in, provided the decoder reads back a payload whose `sub` is that user
      (other claims, such as an expiry, may sit beside it) and the token does not
      itself contain "Bearer ". */
  lemma LoggedInOwner(auth: AuthRoutes.AuthService, username: string)
    requires !Contains(auth.issue(AuthRoutes.Claims(username)), BearerPrefix)
    requires var payload := auth.decode(auth.issue(AuthRoutes.Claims(username)));
      payload.Some? && "sub" in payload.value && payload.value["sub"] == VStr(username)
    ensures OwnerFromHeader(Some(BearerPrefix + auth.issue(AuthRoutes.Claims(username))), auth.decode) == VStr(username)
  {
    var token := auth.issue(AuthRoutes.Claims(username));
    ConcatStartsWith(BearerPrefix, token);
    RemoveAllLeading(BearerPrefix, token);
    RemoveAllAbsent(token, BearerPrefix);
    assert RemoveAll(BearerPrefix + token, BearerPrefix) == token;
    var payload := auth.decode(token);
    assert payload.value != map[];
  }

  /** `.replace` removes every "Bearer ", not only the leading one. */
  lemma EveryBearerIsRemoved()
    ensures RemoveAll("Bearer xBearer y", BearerPrefix) == "xy"
  {
    assert "Bearer xBearer y" == BearerPrefix + ("x" + (BearerPrefix + "y"));
    RemoveAllLeading(BearerPrefix, "x" + (BearerPrefix + "y"));
    RemoveAllKeepsChar('x', BearerPrefix + "y", BearerPrefix);
    RemoveAllLeading(BearerPrefix, "y");
    RemoveAllKeepsChar('y', "", BearerPrefix);
    assert "y" + "" == "y" && "x" + "y" == "xy";
  }

  // ---------------------------------------------------------------------------
  // The engine's inputs

  /** `[skill.dict() for skill in request.current_skills]`. */
  function SkillDicts(skills: seq<Schemas.SkillAssessment>): (r: seq<Dict>)
    ensures |r| == |skills|
    ensures forall i :: 0 <= i < |skills| ==> r[i] == Schemas.SkillAsDict(skills[i]) && Scout.HasSkillFields(r[i])
  {
    seq(|skills|, i requires 0 <= i < |skills| => Schemas.SkillAsDict(skills[i]))
  }

  /** The preferences the route hands to the engine: the fields that are set. */
  function PreferencesArgument(p: Option<Schemas.LearningPreferences>): (r: Option<Dict>)
    ensures r.Some? <==> p.Some?
    ensures r.Some? ==> r.value == Schemas.PreferencesAsSetDict(p.value)
  {
    if p.Some? then Some(Schemas.PreferencesAsSetDict(p.value)) else None
  }

  /** The preferences as the route as written hands them over: `.dict()`, unset fields
      included as `None`. */
  function PreferencesArgumentAsWritten(p: Option<Schemas.LearningPreferences>): (r: Option<Dict>)
    ensures r.Some? <==> p.Some?
    ensures r.Some? ==> r.value == Schemas.PreferencesAsDict(p.value)
  {
    if p.Some? then Some(Schemas.PreferencesAsDict(p.value)) else None
  }

  /** Some field of the preferences is set. */
  predicate AnyPreferenceSet(p: Schemas.LearningPreferences)
  {
    || p.learningStyle.Some? || p.timeCommitmentHoursPerWeek.Some? || p.focusAreas.Some?
    || p.excludeTopics.Some? || p.targetCompletionDate.Some?
  }

  /** As written, preferences that leave the style unset put "None" into the prompt,
      since `.dict()` keeps the key and `.get` finds it. */
  lemma UnsetStyleShowsNone(p: Schemas.LearningPreferences, repr: Json -> string)
    requires p.learningStyle.None? && p.timeCommitmentHoursPerWeek.Some?
    ensures Scout.PreferencesText(PreferencesArgumentAsWritten(Some(p)), repr)
      == Scout.PreferencesBlock("None", IntToString(p.timeCommitmentHoursPerWeek.value))
  {
    var d := Schemas.PreferencesAsDict(p);
    assert "learning_style" in d && d["learning_style"] == VNull;
    assert d["time_commitment_hours_per_week"] == VInt(p.timeCommitmentHoursPerWeek.value);
  }

  /** Preferences with some field set give a truthy dictionary of the set fields. */
  lemma SetPreferencesAreTruthy(p: Schemas.LearningPreferences)
    requires AnyPreferenceSet(p)
    ensures Schemas.PreferencesAsSetDict(p) != map[]
  {
    var d := Schemas.PreferencesAsSetDict(p);
    if p.learningStyle.Some? {
      assert "learning_style" in d;
    } else if p.timeCommitmentHoursPerWeek.Some? {
      assert "time_commitment_hours_per_week" in d;
    } else if p.focusAreas.Some? {
      assert "focus_areas" in d;
    } else if p.excludeTopics.Some? {
      assert "exclude_topics" in d;
    } else {
      assert "target_completion_date" in d;
    }
  }

  /** The two keys the prompt reads are present in the set fields exactly when set. */
  lemma SetPreferenceValues(p: Schemas.LearningPreferences)
    ensures var d := Schemas.PreferencesAsSetDict(p);
      && GetOr(d, "learning_style", VStr("mixed"))
         == VStr(if p.learningStyle.Some? then Schemas.StyleName(p.learningStyle.value) else "mixed")
      && GetOr(d, "time_commitment_hours_per_week", VInt(10))
         == VInt(if p.timeCommitmentHoursPerWeek.Some? then p.timeCommitmentHoursPerWeek.value else 10)
  {
    var all := Schemas.PreferencesAsDict(p);
    assert all["learning_style"] == if p.learningStyle.Some? then VStr(Schemas.StyleName(p.learningStyle.value)) else VNull;
    assert all["time_commitment_hours_per_week"] == Schemas.OptInt(p.timeCommitmentHoursPerWeek);
  }

  /** With only the fields that are set handed over, every unset preference shows its
      default: "mixed" for the style and 10 for the weekly hours. */
  lemma UnsetPreferencesShowDefaults(p: Schemas.LearningPreferences, repr: Json -> string)
    requires AnyPreferenceSet(p)
    ensures Scout.PreferencesText(PreferencesArgument(Some(p)), repr) == Scout.PreferencesBlock(
      if p.learningStyle.Some? then Schemas.StyleName(p.learningStyle.value) else "mixed",
      IntToString(if p.timeCommitmentHoursPerWeek.Some? then p.timeCommitmentHoursPerWeek.value else 10))
  {
    SetPreferencesAreTruthy(p);
    SetPreferenceValues(p);
  }

  /** Preferences supplied with no field set (`"learning_preferences": {}`): with only
      the set fields handed over the dictionary is empty, so the prompt carries no
      preferences block; as written, `.dict()` is truthy and the block shows "None" for
      both values. */
  lemma EmptyPreferencesShowNoBlock(p: Schemas.LearningPreferences, repr: Json -> string)
    requires !AnyPreferenceSet(p)
    ensures Scout.PreferencesText(PreferencesArgument(Some(p)), repr) == ""
    ensures Scout.PreferencesText(PreferencesArgumentAsWritten(Some(p)), repr) == Scout.PreferencesBlock("None", "None")
  {
    var all := Schemas.PreferencesAsDict(p);
    assert forall k :: k in all ==> all[k] == VNull;
    var chosen := Schemas.PreferencesAsSetDict(p);
    assert chosen.Keys == {};
  }

  /** The generation prompt for a request; never missing, since every skill dictionary
      carries the three fields the prompt reads. */
  function RoutePrompt(request: Schemas.RoadmapGenerateRequest, repr: Json -> string): (r: string)
    ensures Scout.BuildRoadmapPrompt(request.careerGoal, SkillDicts(request.currentSkills),
      PreferencesArgument(request.learningPreferences), repr) == Some(r)
  {
    Scout.BuildRoadmapPrompt(request.careerGoal, SkillDicts(request.currentSkills), PreferencesArgument(request.learningPreferences), repr).value
  }

  /** The request's `existing_roadmap` as the document the update can work from: a
      JSON document, its timestamps as ISO text. */
  function FallbackDocument(fallback: Option<Schemas.Roadmap>): (r: Option<Dict>)
    ensures r.Some? <==> fallback.Some?
    ensures r.Some? ==> r.value == Schemas.RoadmapAsJsonDict(fallback.value)
  {
    if fallback.Some? then Some(Schemas.RoadmapAsJsonDict(fallback.value)) else None
  }

  /** The request's `existing_roadmap` as the route as written converts it: `.dict()`,
      with its timestamps left as `datetime` objects. */
  function FallbackDocumentAsWritten(fallback: Option<Schemas.Roadmap>): (r: Option<map<string, Value>>)
    ensures r.Some? <==> fallback.Some?
    ensures r.Some? ==> r.value == Schemas.RoadmapAsDict(fallback.value)
  {
    if fallback.Some? then Some(Schemas.RoadmapAsDict(fallback.value)) else None
  }

  /** The document the update works from: the stored one when it is truthy, else the
      request's copy, else none at all. */
  function ExistingRoadmap(stored: Option<Dict>, fallback: Option<map<string, Value>>): (r: Option<map<string, Value>>)
    ensures stored.Some? && stored.value != map[] ==> r == Some(stored.value)
    ensures stored.None? || stored.value == map[] ==> r == fallback
    ensures r.None? <==> (stored.None? || stored.value == map[]) && fallback.None?
  {
    if stored.Some? && Truthy(VDict(stored.value)) then Some(stored.value) else fallback
  }

  /** As written, a request copy with a timestamp, used when the store has no roadmap,
      cannot be written into the update prompt: the engine raises and the route
      answers 500. */
  lemma TimestampedFallbackFails(env: Scout.Env, roadmapId: string, userPrompt: string, fallback: Schemas.Roadmap, now: string)
    requires fallback.createdAt.Some? || fallback.updatedAt.Some?
    ensures ExistingRoadmap(None, FallbackDocumentAsWritten(Some(fallback))).Some?
    ensures Scout.Updated(env, roadmapId, userPrompt, ExistingRoadmap(None, FallbackDocumentAsWritten(Some(fallback))).value, now)
      == Err(Scout.NotSerializable)
  {
    Schemas.TimestampedDictIsNotJson(fallback);
  }

  /** The request copy as a JSON document always reaches the model: the update never
      fails for want of a serialisable roadmap. */
  lemma FallbackReachesModel(env: Scout.Env, roadmapId: string, userPrompt: string, fallback: Schemas.Roadmap, now: string)
    ensures ExistingRoadmap(None, FallbackDocument(Some(fallback))).Some?
    ensures Scout.UpdatePrompt(userPrompt, ExistingRoadmap(None, FallbackDocument(Some(fallback))).value, env.dumpsIndented).Some?
    ensures Scout.Updated(env, roadmapId, userPrompt, ExistingRoadmap(None, FallbackDocument(Some(fallback))).value, now) != Err(Scout.NotSerializable)
  {
    Scout.UnserializableOnly(env, roadmapId, userPrompt, ExistingRoadmap(None, FallbackDocument(Some(fallback))).value, now);
    var d := Schemas.RoadmapAsJsonDict(fallback);
    assert JsonCompatible(DictOf(d));
  }

  // ---------------------------------------------------------------------------
  // Store and cache agree

  /** The cache key `f"roadmap:{id}"`. */
  function CacheKey(id: string): (key: string)
  {
    "roadmap:" + id
  }

  /** Different ids have different cache keys. */
  lemma CacheKeyInjective(a: string, b: string)
    ensures CacheKey(a) == CacheKey(b) ==> a == b
  {
    assert CacheKey(a)[8..] == a && CacheKey(b)[8..] == b;
  }

  /** The text the cache holds for a document: `json.dumps` of it. */
  function DocumentText(dumps: Json -> string, doc: Dict): string
  {
    dumps(DictOf(doc))
  }

  /** Every cached roadmap is the JSON text of the stored document with that id. */
  ghost predicate CacheMatchesStore(roadmaps: map<string, Dict>, entries: map<string, string>, dumps: Json -> string)
  {
    forall id :: CacheKey(id) in entries ==> id in roadmaps && entries[CacheKey(id)] == DocumentText(dumps, roadmaps[id])
  }

  /** Every stored document carries its own key as `id`. */
  ghost predicate StoredUnderOwnId(roadmaps: map<string, Dict>)
  {
    forall id :: id in roadmaps ==> "id" in roadmaps[id] && roadmaps[id]["id"] == VStr(id)
  }

  ghost predicate CoherentMaps(roadmaps: map<string, Dict>, entries: map<string, string>, dumps: Json -> string)
  {
    CacheMatchesStore(roadmaps, entries, dumps) && StoredUnderOwnId(roadmaps)
  }

  ghost predicate Coherent(store: SupabaseStore.Store, cache: RedisCache.Cache)
    reads store, cache
  {
    CoherentMaps(store.roadmaps, cache.entries, cache.codec.dumps)
  }

  /** Filing a document under its own id and caching its text under that id keeps
      store and cache coherent. */
  lemma FilingKeepsCoherence(roadmaps: map<string, Dict>, entries: map<string, string>, dumps: Json -> string, id: string, doc: Dict)
    requires CoherentMaps(roadmaps, entries, dumps)
    requires "id" in doc && doc["id"] == VStr(id)
    ensures CoherentMaps(roadmaps[id := doc], entries[CacheKey(id) := DocumentText(dumps, doc)], dumps)
  {
    FilingKeepsCacheMatching(roadmaps, entries, dumps, id, doc);
    FilingKeepsOwnIds(roadmaps, id, doc);
  }

  lemma FilingKeepsCacheMatching(roadmaps: map<string, Dict>, entries: map<string, string>, dumps: Json -> string, id: string, doc: Dict)
    requires CacheMatchesStore(roadmaps, entries, dumps)
    ensures CacheMatchesStore(roadmaps[id := doc], entries[CacheKey(id) := DocumentText(dumps, doc)], dumps)
  {
    var roadmaps' := roadmaps[id := doc];
    var entries' := entries[CacheKey(id) := DocumentText(dumps, doc)];
    forall k | CacheKey(k) in entries'
      ensures k in roadmaps' && entries'[CacheKey(k)] == DocumentText(dumps, roadmaps'[k])
    {
      CacheKeyInjective(k, id);
    }
  }

  lemma FilingKeepsOwnIds(roadmaps: map<string, Dict>, id: string, doc: Dict)
    requires StoredUnderOwnId(roadmaps)
    requires "id" in doc && doc["id"] == VStr(id)
    ensures StoredUnderOwnId(roadmaps[id := doc])
  {
  }

  /** Backfilling the cache with the stored document keeps store and cache coherent. */
  lemma BackfillKeepsCoherence(roadmaps: map<string, Dict>, entries: map<string, string>, dumps: Json -> string, id: string)
    requires CoherentMaps(roadmaps, entries, dumps)
    requires id in roadmaps
    ensures CoherentMaps(roadmaps, entries[CacheKey(id) := DocumentText(dumps, roadmaps[id])], dumps)
  {
    FilingKeepsCoherence(roadmaps, entries, dumps, id, roadmaps[id]);
    assert roadmaps[id := roadmaps[id]] == roadmaps;
  }

  /** Where the codec reads the stored document back, what the cache gives for an id is
      what the store holds under it; where the store holds nothing, the cache gives
      nothing. */
  lemma CoherentCacheReadsStore(roadmaps: map<string, Dict>, entries: map<string, string>, c: RedisCache.Codec, id: string)
    requires CoherentMaps(roadmaps, entries, c.dumps)
    requires id in roadmaps ==> RedisCache.RoundTrips(c, DictOf(roadmaps[id]))
    ensures CacheKey(id) in entries ==> RedisCache.Read(c, entries, CacheKey(id)) == Returned(DictOf(roadmaps[id]))
    ensures id !in roadmaps ==> RedisCache.Read(c, entries, CacheKey(id)) == Returned(VNull)
  {
    if CacheKey(id) in entries {
      RedisCache.ReadAfterWrite(c, entries, CacheKey(id), DictOf(roadmaps[id]));
      assert entries[CacheKey(id) := c.dumps(DictOf(roadmaps[id]))] == entries;
    }
  }

  // ---------------------------------------------------------------------------
  // Handlers

  /** `generate_roadmap`: the owner comes from the header, the engine builds the
      document, the store files it under its fresh id and the cache holds its text;
      an engine error writes nothing. The framework calls it only with a request body
      that passed pydantic's validation (a failing body is answered 422 beforehand). */
  method GenerateRoute(store: SupabaseStore.Store, cache: RedisCache.Cache, env: Scout.Env,
                       decode: string -> Option<Dict>, request: Schemas.RoadmapGenerateRequest,
                       authorization: Option<string>, id: string, createdAt: string, updatedAt: string)
    returns (r: Result<Scout.Generation, RouteError>)
    requires Schemas.ValidGenerateRequest(request)
    requires store.Valid() && Coherent(store, cache)
    modifies store, cache
    ensures store.Valid() && Coherent(store, cache)
    ensures store.users == old(store.users)
    ensures var g := Scout.Generated(env, request.careerGoal, SkillDicts(request.currentSkills),
                       PreferencesArgument(request.learningPreferences), OwnerFromHeader(authorization, decode),
                       id, createdAt, updatedAt);
      && (g.Err? ==> r == Err(ServerError) && store.roadmaps == old(store.roadmaps) && store.order == old(store.order)
                     && cache.entries == old(cache.entries))
      && (g.Ok? ==>
            && r == Ok(g.value)
            && store.roadmaps == old(store.roadmaps)[id := g.value.roadmap]
            && store.order == SupabaseStore.Inserted(old(store.order), id)
            && cache.entries == old(cache.entries)[CacheKey(id) := DocumentText(cache.codec.dumps, g.value.roadmap)])
  {
    var owner := OwnerFromHeader(authorization, decode);
    var skills := SkillDicts(request.currentSkills);
    var prefs := PreferencesArgument(request.learningPreferences);
    var result := Scout.GenerateRoadmap(env, request.careerGoal, skills, prefs, owner, id, createdAt, updatedAt);
    if result.Err? {
      return Err(ServerError);
    }
    GeneratedDocumentCarriesId(env, request.careerGoal, skills, prefs, owner, id, createdAt, updatedAt);
    File(store, cache, id, result.value.roadmap);
    r := Ok(result.value);
  }

  /** The write-back both generating and updating end with: the store files the
      document under its id, then the cache holds its text under that id's key. */
  method File(store: SupabaseStore.Store, cache: RedisCache.Cache, id: string, doc: Dict)
    requires store.Valid() && Coherent(store, cache)
    requires "id" in doc && doc["id"] == VStr(id)
    modifies store, cache
    ensures store.Valid() && Coherent(store, cache)
    ensures store.users == old(store.users)
    ensures store.roadmaps == old(store.roadmaps)[id := doc]
    ensures store.order == SupabaseStore.Inserted(old(store.order), id)
    ensures cache.entries == old(cache.entries)[CacheKey(id) := DocumentText(cache.codec.dumps, doc)]
  {
    FilingKeepsCoherence(store.roadmaps, cache.entries, cache.codec.dumps, id, doc);
    var saved := store.SaveRoadmap(doc);
    assert saved.Ok?;
    var ok := cache.Set(CacheKey(id), DictOf(doc), 3600);
  }

  /** A generated document carries its fresh id. */
  lemma GeneratedDocumentCarriesId(env: Scout.Env, careerGoal: string, skills: seq<Dict>, prefs: Option<Dict>, userId: Json,
                                   id: string, createdAt: string, updatedAt: string)
    ensures var g := Scout.Generated(env, careerGoal, skills, prefs, userId, id, createdAt, updatedAt);
      g.Ok? ==> "id" in g.value.roadmap && g.value.roadmap["id"] == VStr(id)
  {
    var prompt := Scout.BuildRoadmapPrompt(careerGoal, skills, prefs, env.repr);
    if prompt.Some? {
      var decoded := Scout.Decoded(env, prompt.value);
      if decoded.Ok? {
        Scout.AssembledIdentity(decoded.value, careerGoal, userId, id, createdAt, updatedAt);
      }
    }
  }

  /** `get_roadmap`: a truthy cached value is the answer; otherwise the stored document,
      which is then cached; otherwise 404. A cached text that does not decode raises. */
  method GetRoute(store: SupabaseStore.Store, cache: RedisCache.Cache, id: string) returns (r: Result<Json, RouteError>)
    requires Coherent(store, cache)
    modifies cache
    ensures Coherent(store, cache)
    ensures var cached := RedisCache.Read(cache.codec, old(cache.entries), CacheKey(id));
      && (cached.Raised? ==> r == Err(ServerError) && cache.entries == old(cache.entries))
      && (cached.Returned? && Truthy(cached.value) ==> r == Ok(cached.value) && cache.entries == old(cache.entries))
      && (cached.Returned? && !Truthy(cached.value) && id !in store.roadmaps ==>
            r == Err(NotFound) && cache.entries == old(cache.entries))
      && (cached.Returned? && !Truthy(cached.value) && id in store.roadmaps ==>
            r == Ok(DictOf(store.roadmaps[id]))
            && cache.entries == old(cache.entries)[CacheKey(id) := DocumentText(cache.codec.dumps, store.roadmaps[id])])
    ensures id !in store.roadmaps ==> r == Err(NotFound)
    ensures id in store.roadmaps && RedisCache.RoundTrips(cache.codec, DictOf(store.roadmaps[id])) ==>
      r == Ok(DictOf(store.roadmaps[id]))
  {
    CoherentAnswer(store.roadmaps, cache.entries, cache.codec, id);
    var key := CacheKey(id);
    var cached := cache.Get(key);
    assert cached == RedisCache.Read(cache.codec, old(cache.entries), CacheKey(id));
    if cached.Raised? {
      return Err(ServerError);
    }
    if Truthy(cached.value) {
      return Ok(cached.value);
    }
    var stored := store.GetRoadmap(id);
    if stored.None? || !Truthy(VDict(stored.value)) {
      assert id !in store.roadmaps;
      return Err(NotFound);
    }
    assert id in store.roadmaps && stored.value == store.roadmaps[id];
    BackfillKeepsCoherence(store.roadmaps, cache.entries, cache.codec.dumps, id);
    var ok := cache.Set(key, DictOf(stored.value), 3600);
    r := Ok(DictOf(stored.value));
  }

  /** A coherent cache answers with the stored document or with nothing, where the
      codec reads the stored document back; every stored document is truthy. */
  lemma CoherentAnswer(roadmaps: map<string, Dict>, entries: map<string, string>, c: RedisCache.Codec, id: string)
    requires CoherentMaps(roadmaps, entries, c.dumps)
    ensures id in roadmaps ==> roadmaps[id] != map[]
    ensures id in roadmaps ==> RedisCache.RoundTrips(c, DictOf(roadmaps[id])) ==>
      var cached := RedisCache.Read(c, entries, CacheKey(id));
      && cached.Returned?
      && (Truthy(cached.value) ==> cached.value == DictOf(roadmaps[id]))
      && (!Truthy(cached.value) ==> cached.value == VNull)
    ensures id !in roadmaps ==> RedisCache.Read(c, entries, CacheKey(id)) == Returned(VNull)
  {
    if id in roadmaps {
      assert "id" in roadmaps[id];
    }
    if id !in roadmaps || RedisCache.RoundTrips(c, DictOf(roadmaps[id])) {
      CoherentCacheReadsStore(roadmaps, entries, c, id);
    }
  }

  /** `update_roadmap`: the engine revises the stored document, or else the request's
      own copy, or the answer is 404 with nothing written; the revised document is
      filed under `roadmapId` and cached. An engine error writes nothing. */
  method UpdateRoute(store: SupabaseStore.Store, cache: RedisCache.Cache, env: Scout.Env, roadmapId: string,
                     request: Schemas.RoadmapUpdateRequest, now: string)
    returns (r: Result<Scout.Generation, RouteError>)
    requires store.Valid() && Coherent(store, cache)
    modifies store, cache
    ensures store.Valid() && Coherent(store, cache)
    ensures store.users == old(store.users)
    ensures var existing := ExistingRoadmap(
        if roadmapId in old(store.roadmaps) then Some(old(store.roadmaps)[roadmapId]) else None,
        FallbackDocument(request.existingRoadmap));
      && (existing.None? ==> r == Err(NotFound) && store.roadmaps == old(store.roadmaps) && store.order == old(store.order)
                             && cache.entries == old(cache.entries))
      && (existing.Some? ==>
            var g := Scout.Updated(env, roadmapId, request.userPrompt, existing.value, now);
            && (g.Err? ==> r == Err(ServerError) && store.roadmaps == old(store.roadmaps) && store.order == old(store.order)
                           && cache.entries == old(cache.entries))
            && (g.Ok? ==>
                  && r == Ok(g.value)
                  && store.roadmaps == old(store.roadmaps)[roadmapId := g.value.roadmap]
                  && store.order == SupabaseStore.Inserted(old(store.order), roadmapId)
                  && cache.entries == old(cache.entries)[CacheKey(roadmapId) := DocumentText(cache.codec.dumps, g.value.roadmap)]))
    ensures r.Ok? ==> "id" in r.value.roadmap && r.value.roadmap["id"] == VStr(roadmapId)
  {
    var stored := store.GetRoadmap(roadmapId);
    var existing := ExistingRoadmap(stored, FallbackDocument(request.existingRoadmap));
    if existing.None? {
      return Err(NotFound);
    }
    var result := Scout.UpdateRoadmap(env, roadmapId, request.userPrompt, existing.value, now);
    if result.Err? {
      return Err(ServerError);
    }
    Refile(store, cache, roadmapId, result.value.roadmap);
    r := Ok(result.value);
  }

  /** The write-back of `update_roadmap`: the store overwrites (or inserts) the document
      under `roadmapId`, then the cache holds its text under that id's key. */
  method Refile(store: SupabaseStore.Store, cache: RedisCache.Cache, roadmapId: string, doc: Dict)
    requires store.Valid() && Coherent(store, cache)
    requires "id" in doc && doc["id"] == VStr(roadmapId)
    modifies store, cache
    ensures store.Valid() && Coherent(store, cache)
    ensures store.users == old(store.users)
    ensures store.roadmaps == old(store.roadmaps)[roadmapId := doc]
    ensures store.order == SupabaseStore.Inserted(old(store.order), roadmapId)
    ensures cache.entries == old(cache.entries)[CacheKey(roadmapId) := DocumentText(cache.codec.dumps, doc)]
  {
    FilingKeepsCoherence(store.roadmaps, cache.entries, cache.codec.dumps, roadmapId, doc);
    var saved := store.UpdateRoadmap(roadmapId, doc);
    var ok := cache.Set(CacheKey(roadmapId), DictOf(doc), 3600);
  }

  /** The listing's answer: the documents and their number. */
  datatype Listing = Listing(roadmaps: seq<Dict>, count: nat)

  /** `get_user_roadmaps`: the store's listing for the user and its length; the cache
      takes no part. */
  method ListRoute(store: SupabaseStore.Store, username: string) returns (r: Listing)
    ensures r.roadmaps == SupabaseStore.Owned(store.order, store.roadmaps, username)
    ensures r.count == |r.roadmaps|
    ensures forall i :: 0 <= i < r.count ==> SupabaseStore.OwnedBy(r.roadmaps[i], username)
  {
    var roadmaps := store.GetUserRoadmaps(username);
    r := Listing(roadmaps, |roadmaps|);
  }
}
